/** The `config` command: reads, writes and lists configuration properties on the
    running server, or in the local configuration repository when the server is
    unavailable. */
module ConfigCmd {
  import opened Base
  import opened Dispatch
  import opened ConfigRepository

  const ConfigDesc := "config commands: [get, set, dump, list]"

  /** The entry limit of "list" when no limit argument is given. */
  const ListLimit := 80

  /** The sub-command `Run` hands the rest of the arguments to. */
  datatype Route = GetRoute(args: seq<string>) | SetRoute(args: seq<string>)
                 | DumpRoute(cmd: string, args: seq<string>) | Refused(error: string)

  /** `Run`'s dispatch on the first argument. */
  function RouteOf(args: seq<string>): (r: Route)
    ensures |args| == 0 ==> r == Refused("config command needs argument, " + ConfigDesc)
    ensures r.GetRoute? <==> |args| > 0 && args[0] == "get"
    ensures r.SetRoute? <==> |args| > 0 && args[0] == "set"
    ensures r.DumpRoute? <==> |args| > 0 && (args[0] == "dump" || args[0] == "list")
    ensures !r.Refused? ==> r.args == args[1..]
    ensures r.DumpRoute? ==> r.cmd == args[0]
    ensures r.Refused? && |args| > 0 ==> r.error == "unknown sub-command for config '" + args[0] + "'"
  {
    if |args| == 0 then Refused("config command needs argument, " + ConfigDesc)
    else
      var cmd := args[0];
      var rest := args[1..];
      if cmd == "get" then GetRoute(rest)
      else if cmd == "set" then SetRoute(rest)
      else if cmd == "dump" || cmd == "list" then DumpRoute(cmd, rest)
      else Refused("unknown sub-command for config '" + cmd + "'")
  }

  // ---------------------------------------------------------------------------
  // dumpFromStorage: limit and truncation

  /** The limit `dumpFromStorage` applies: unbounded (the largest int64) for "dump",
      80 for "list", or the second argument parsed with `strconv.Atoi`. */
  function LimitOf(cmd: string, rest: seq<string>): (r: Result<int>)
    ensures |rest| == 0 ==> r == Ok(if cmd == "list" then ListLimit else MaxInt64)
    ensures |rest| > 0 && ParseInt64("Atoi", rest[0]).Ok? ==> r == ParseInt64("Atoi", rest[0])
    ensures |rest| > 0 && ParseInt64("Atoi", rest[0]).Err? ==>
              r == Err("parsing limit '" + rest[0] + "', " + ParseInt64("Atoi", rest[0]).error)
    ensures r.Ok? ==> InInt64(r.value)
  {
    if |rest| == 0 then Ok(if cmd == "list" then ListLimit else MaxInt64)
    else
      match ParseInt64("Atoi", rest[0])
      case Ok(n) => Ok(n)
      case Err(e) => Err("parsing limit '" + rest[0] + "', " + e)
  }

  /** A limit given as a formatted int64 is the limit applied, whatever the command. */
  lemma LimitArgumentWins(cmd: string, n: int)
    requires InInt64(n)
    ensures LimitOf(cmd, [IntToString(n)]) == Ok(n)
  {
    ParseIntOfIntToString("Atoi", n);
  }

  /** How a value is shown under a limit: a longer value is cut to `limit`
      characters, "..." is appended and every newline becomes a space. */
  function Truncated(value: string, limit: nat): (r: string)
  {
    if |value| > limit then ReplaceChar(value[..limit] + "...", '\n', ' ') else value
  }

  /** A value within the limit is shown unchanged; a longer one is its first `limit`
      characters, newlines replaced, then "...", on a single line. */
  lemma TruncatedShape(value: string, limit: nat)
    ensures |value| <= limit ==> Truncated(value, limit) == value
    ensures |value| > limit ==>
              var r := Truncated(value, limit);
              |r| == limit + 3 && r[limit..] == "..." && '\n' !in r
              && forall k :: 0 <= k < limit ==> r[k] == (if value[k] == '\n' then ' ' else value[k])
  {
    if |value| > limit {
      var r := Truncated(value, limit);
      assert r[limit..] == "...";
      forall k | 0 <= k < |r| ensures r[k] != '\n' {}
    }
  }

  /** The panic of `value[:limit]` for a negative limit. It passes through
      `doInCore` to `Application.Run`, which returns it as its error. */
  function SlicePanic(limit: int): string {
    "runtime error: slice bounds out of range [:" + IntToString(limit) + "]"
  }

  /** The line written for one entry. */
  function EntryLine(c: Change, limit: nat): Output {
    Stdout(c.key + ": " + Truncated(c.value, limit) + "\n")
  }

  /** The lines written for the entries, in enumeration order. */
  function DumpLines(entries: seq<Change>, limit: nat): (r: seq<Output>)
    ensures |r| == |entries|
    ensures forall k :: 0 <= k < |entries| ==> r[k] == EntryLine(entries[k], limit)
    decreases |entries|
  {
    if |entries| == 0 then []
    else DumpLines(entries[..|entries| - 1], limit) + [EntryLine(entries[|entries| - 1], limit)]
  }

  /** Under "dump" without a limit, every value shorter than the int64 range is
      printed whole. */
  lemma DumpPrintsWholeValues(entries: seq<Change>, k: nat)
    requires k < |entries| && |entries[k].value| <= MaxInt64
    ensures DumpLines(entries, MaxInt64)[k] == Stdout(entries[k].key + ": " + entries[k].value + "\n")
  {
    TruncatedShape(entries[k].value, MaxInt64);
  }

  /** What `dumpFromStorage` ends with over a store with contents `data`, failing
      with `failure`: the limit's parse error, the core context's error, the store's
      error, the panic of a negative limit on the first entry, or the lines of the
      entries under the prefix. */
  function LocalDump(cmd: string, args: seq<string>, coreErr: Option<string>,
                     data: map<string, string>, failure: Option<string>, order: seq<string>)
    : (r: (Option<string>, seq<Output>, Option<string>))
    requires forall k :: k in order ==> k in data
    ensures r.2.Some? ==> r.0.None? && r.1 == []
    ensures r.0.Some? ==> r.1 == []
  {
    var prefix := if |args| > 0 then args[0] else "";
    var limit := LimitOf(cmd, if |args| > 0 then args[1..] else []);
    var entries := Listing(order, data, prefix);
    if limit.Err? then (Some(limit.error), [], None)
    else if coreErr.Some? then (coreErr, [], None)
    else if failure.Some? then (failure, [], None)
    else if limit.value < 0 then (None, [], if |entries| > 0 then Some(SlicePanic(limit.value)) else None)
    else (None, DumpLines(entries, limit.value), None)
  }

  /** `dumpFromStorage`: the first argument is the key prefix, the second the limit.
      `coreErr` is the outcome of setting up the core context (`doInCore`) and `order`
      the store's key order. Returns the error, the lines written and the panic of a
      negative limit, which passes through `doInCore` to `Application.Run`, which
      returns it as its error. */
  method DumpFromStorage(cmd: string, args: seq<string>, coreErr: Option<string>,
                         repo: Repository, order: seq<string>)
    returns (err: Option<string>, out: seq<Output>, panicked: Option<string>)
    requires repo.backend.Store?
    requires forall k :: k in order <==> k in repo.backend.data
    requires NoRepeats(order)
    ensures (err, out, panicked) == LocalDump(cmd, args, coreErr, repo.backend.data, repo.backend.failure, order)
  {
    out := [];
    panicked := None;
    var prefix := "";
    var rest := args;
    if |rest| > 0 {
      prefix := rest[0];
      rest := rest[1..];
    }
    var limit := LimitOf(cmd, rest);
    if limit.Err? {
      return Some(limit.error), out, panicked;
    }
    if coreErr.Some? {
      return coreErr, out, panicked;
    }
    var visited;
    err, visited := repo.EnumerateAll(prefix, (key, value) => true, order);
    if err.Some? {
      return;
    }
    ghost var entries := Listing(order, repo.backend.data, prefix);
    AcceptAll(entries);
    if limit.value < 0 {
      if |visited| > 0 {
        panicked := Some(SlicePanic(limit.value));
      }
      return;
    }
    out := WriteEntries(visited, limit.value);
  }

  /** The enumeration callback of `dumpFromStorage`, once per visited entry: one
      line per entry, its value truncated to the limit. */
  method WriteEntries(entries: seq<Change>, limit: nat) returns (out: seq<Output>)
    ensures out == DumpLines(entries, limit)
  {
    out := [];
    var i := 0;
    while i < |entries|
      invariant 0 <= i <= |entries| && out == DumpLines(entries[..i], limit)
    {
      assert entries[..i + 1][..i] == entries[..i];
      out := out + [EntryLine(entries[i], limit)];
      i := i + 1;
    }
    assert entries[..i] == entries;
  }

  /** A callback that accepts every entry sees all of them. */
  lemma {:induction false} AcceptAll(entries: seq<Change>)
    ensures UntilRefused(entries, (key, value) => true) == entries
    decreases |entries|
  {
    if entries != [] {
      AcceptAll(entries[1..]);
    }
  }

  /** Every line a dump writes is for a stored key under the prefix, with its value. */
  lemma DumpLinesUnderPrefix(order: seq<string>, data: map<string, string>, prefix: string,
                             limit: nat, k: nat)
    requires forall key :: key in order ==> key in data
    requires k < |Listing(order, data, prefix)|
    ensures var c := Listing(order, data, prefix)[k];
            HasPrefix(c.key, prefix) && BackingKey(c.key) in data
            && DumpLines(Listing(order, data, prefix), limit)[k]
               == Stdout(c.key + ": " + Truncated(data[BackingKey(c.key)], limit) + "\n")
  {
    ListingSound(order, data, prefix);
    assert Listing(order, data, prefix)[k] in Listing(order, data, prefix);
  }

  // ---------------------------------------------------------------------------
  // The sub-commands

  /** What `getConfig` returns, calls and prints: the usage error without a key; the
      remote answer unless it falls back; else the local read. */
  function GetOutcome(args: seq<string>, remote: (string, seq<string>) -> Reply,
                      coreErr: Option<string>, repo: Repository): (Option<string>, seq<Call>, seq<Output>)
    reads repo
    requires repo.backend.Store?
  {
    if |args| == 0 then (Some("'config get' command expected key argument: []"), [], [])
    else
      var reply := remote("get", [args[0]]);
      if !FallsBack(reply) then
        var err := ErrorOf(reply);
        (err, [Remote("get", [args[0]])], if err.None? then [Println(reply.content)] else [])
      else
        var local := if coreErr.Some? then Err(coreErr.value) else repo.Get(args[0]);
        (if local.Err? then Some(local.error) else None,
         [Remote("get", [args[0]]), Local("get", [args[0]])],
         if local.Ok? then [Println(local.value)] else [])
  }

  /** `getConfig`: `remote` is the control client's `ConfigCommand` (including a
      failure to reach a single control client), `coreErr` the outcome of setting up
      the core context for the local read. */
  method GetConfig(args: seq<string>, remote: (string, seq<string>) -> Reply,
                   coreErr: Option<string>, repo: Repository)
    returns (err: Option<string>, calls: seq<Call>, out: seq<Output>)
    requires repo.backend.Store?
    ensures |args| == 0 ==> err == Some("'config get' command expected key argument: []")
                            && calls == [] && out == []
    ensures |args| > 0 && !FallsBack(remote("get", [args[0]])) ==>
              calls == [Remote("get", [args[0]])]
              && err == ErrorOf(remote("get", [args[0]]))
              && out == (if err.None? then [Println(remote("get", [args[0]]).content)] else [])
    ensures |args| > 0 && FallsBack(remote("get", [args[0]])) ==>
              calls == [Remote("get", [args[0]]), Local("get", [args[0]])]
              && var local := if coreErr.Some? then Err(coreErr.value) else repo.Get(args[0]);
                 err == (if local.Err? then Some(local.error) else None)
                 && out == (if local.Ok? then [Println(local.value)] else [])
    ensures (err, calls, out) == GetOutcome(args, remote, coreErr, repo)
  {
    calls := [];
    out := [];
    if |args| < 1 {
      return Some("'config get' command expected key argument: []"), calls, out;
    }
    var key := args[0];
    var value := "";
    var reply := remote("get", [key]);
    calls := [Remote("get", [key])];
    err := ErrorOf(reply);
    if reply.Reply? {
      value := reply.content;
    }
    if err.Some? && reply.error.code == Unavailable {
      calls := calls + [Local("get", [key])];
      if coreErr.Some? {
        value, err := "", coreErr;
      } else {
        var got := repo.Get(key);
        value, err := if got.Ok? then got.value else "", if got.Err? then Some(got.error) else None;
      }
    }
    if err.Some? {
      return;
    }
    out := [Println(value)];
  }

  /** The value `setConfig` writes: the second argument, or the prompted one
      (`prompted`, where only the PEM prompt can fail), replaced by the contents
      of the named file when it starts with "@". */
  function SetValue(rest: seq<string>, prompted: Result<string>,
                    readFile: string -> Result<string>): (r: Result<string>)
    ensures |rest| == 0 && prompted.Err? ==> r == prompted
    ensures |rest| > 0 || prompted.Ok? ==>
              var given := if |rest| > 0 then rest[0] else prompted.value;
              if HasPrefix(given, "@") then
                var path := given[1..];
                r == (if readFile(path).Ok? then Ok(readFile(path).value)
                      else Err("i/o error on reading value from file '" + path + "', " + readFile(path).error))
              else r == Ok(given)
  {
    if |rest| == 0 && prompted.Err? then prompted
    else
      var given := if |rest| > 0 then rest[0] else prompted.value;
      if HasPrefix(given, "@") then
        var path := given[1..];
        match readFile(path)
        case Ok(content) => Ok(content)
        case Err(e) => Err("i/o error on reading value from file '" + path + "', " + e)
      else Ok(given)
  }

  /** A value not starting with "@" is written as given; "@path" never is. */
  lemma FileValueRead(rest: seq<string>, prompted: Result<string>, readFile: string -> Result<string>)
    requires |rest| > 0
    ensures !HasPrefix(rest[0], "@") ==> SetValue(rest, prompted, readFile) == Ok(rest[0])
    ensures HasPrefix(rest[0], "@") ==>
              SetValue(rest, prompted, readFile) == (if readFile(rest[0][1..]).Ok? then readFile(rest[0][1..]) else
                Err("i/o error on reading value from file '" + rest[0][1..] + "', " + readFile(rest[0][1..]).error))
  {
  }

  /** What `setConfig` returns, calls and prints, and the store it leaves from
      `backend`: the usage error without a key, the value's error, the remote answer
      unless it falls back, else the "Error on gRPC" line and the local write. */
  function SetOutcome(args: seq<string>, prompted: Result<string>, readFile: string -> Result<string>,
                      remote: (string, seq<string>) -> Reply, coreErr: Option<string>, backend: Backend)
    : (Option<string>, seq<Call>, seq<Output>, Backend)
    requires backend.Store?
  {
    if |args| == 0 then (Some("'config set' command expected key argument: []"), [], [], backend)
    else if SetValue(args[1..], prompted, readFile).Err? then
      (Some(SetValue(args[1..], prompted, readFile).error), [], [], backend)
    else
      var key := args[0];
      var value := SetValue(args[1..], prompted, readFile).value;
      var reply := remote("set", [key, value]);
      if !FallsBack(reply) then
        (ErrorOf(reply), [Remote("set", [key, value])], if reply.Reply? then [Println("SUCCESS")] else [], backend)
      else
        var localErr := if coreErr.Some? then coreErr else backend.failure;
        (localErr, [Remote("set", [key, value]), Local("set", [key, value])],
         [Stdout("Error on gRPC: " + reply.error.text + "\n")] + (if localErr.None? then [Println("SUCCESS")] else []),
         if localErr.None? then Store(Write(backend.data, key, value), None) else backend)
  }

  /** `setConfig`: as `getConfig`, with the value from `SetValue`; a fallback prints
      the remote error before writing to the local repository. */
  method SetConfig(args: seq<string>, prompted: Result<string>, readFile: string -> Result<string>,
                   remote: (string, seq<string>) -> Reply, coreErr: Option<string>, repo: Repository)
    returns (err: Option<string>, calls: seq<Call>, out: seq<Output>)
    requires repo.Valid() && repo.backend.Store?
    modifies repo`backend
    ensures repo.Valid()
    ensures |args| == 0 ==> err == Some("'config set' command expected key argument: []")
                            && calls == [] && out == [] && repo.backend == old(repo.backend)
    ensures |args| > 0 && SetValue(args[1..], prompted, readFile).Err? ==>
              err == Some(SetValue(args[1..], prompted, readFile).error)
              && calls == [] && out == [] && repo.backend == old(repo.backend)
    ensures |args| > 0 && SetValue(args[1..], prompted, readFile).Ok? ==>
              var key := args[0];
              var value := SetValue(args[1..], prompted, readFile).value;
              var reply := remote("set", [key, value]);
              if !FallsBack(reply) then
                calls == [Remote("set", [key, value])] && err == ErrorOf(reply)
                && out == (if reply.Reply? then [Println("SUCCESS")] else [])
                && repo.backend == old(repo.backend)
              else
                calls == [Remote("set", [key, value]), Local("set", [key, value])]
                && var localErr := if coreErr.Some? then coreErr else old(repo.backend).failure;
                   err == localErr
                   && out == [Stdout("Error on gRPC: " + reply.error.text + "\n")]
                             + (if localErr.None? then [Println("SUCCESS")] else [])
                   && repo.backend == (if localErr.None?
                                       then Store(Write(old(repo.backend).data, key, value), None)
                                       else old(repo.backend))
    ensures (err, calls, out, repo.backend)
            == SetOutcome(args, prompted, readFile, remote, coreErr, old(repo.backend))
  {
    calls := [];
    out := [];
    if |args| < 1 {
      return Some("'config set' command expected key argument: []"), calls, out;
    }
    var key := args[0];
    var value := SetValue(args[1..], prompted, readFile);
    if value.Err? {
      return Some(value.error), calls, out;
    }
    var reply := remote("set", [key, value.value]);
    calls := [Remote("set", [key, value.value])];
    err := ErrorOf(reply);
    if err.Some? && reply.error.code == Unavailable {
      out := out + [Stdout("Error on gRPC: " + reply.error.text + "\n")];
      calls := calls + [Local("set", [key, value.value])];
      if coreErr.Some? {
        err := coreErr;
      } else {
        var notified;
        err, notified := repo.Set(key, value.value);
      }
    }
    if err.Some? {
      return;
    }
    out := out + [Println("SUCCESS")];
  }

  /** What `dumpConfig` returns, calls, prints and panics with: the remote answer
      unless it falls back, else the local dump. */
  function DumpOutcome(cmd: string, args: seq<string>, remote: (string, seq<string>) -> Reply,
                       coreErr: Option<string>, data: map<string, string>, failure: Option<string>,
                       order: seq<string>): (Option<string>, seq<Call>, seq<Output>, Option<string>)
    requires forall k :: k in order ==> k in data
  {
    var reply := remote(cmd, args);
    if !FallsBack(reply) then
      var err := ErrorOf(reply);
      (err, [Remote(cmd, args)], if err.None? then [Println(reply.content)] else [], None)
    else
      var local := LocalDump(cmd, args, coreErr, data, failure, order);
      (local.0, [Remote(cmd, args), Local(cmd, args)], local.1, local.2)
  }

  /** `dumpConfig`: the remote dump or list, printed on success; the local dump on
      Unavailable. */
  method DumpConfig(cmd: string, args: seq<string>, remote: (string, seq<string>) -> Reply,
                    coreErr: Option<string>, repo: Repository, order: seq<string>)
    returns (err: Option<string>, calls: seq<Call>, out: seq<Output>, panicked: Option<string>)
    requires repo.backend.Store?
    requires forall k :: k in order <==> k in repo.backend.data
    requires NoRepeats(order)
    ensures !FallsBack(remote(cmd, args)) ==>
              calls == [Remote(cmd, args)] && err == ErrorOf(remote(cmd, args)) && panicked.None?
              && out == (if err.None? then [Println(remote(cmd, args).content)] else [])
    ensures FallsBack(remote(cmd, args)) ==>
              calls == [Remote(cmd, args), Local(cmd, args)]
              && (err, out, panicked) == LocalDump(cmd, args, coreErr, repo.backend.data, repo.backend.failure, order)
    ensures (err, calls, out, panicked)
            == DumpOutcome(cmd, args, remote, coreErr, repo.backend.data, repo.backend.failure, order)
  {
    var reply := remote(cmd, args);
    calls := [Remote(cmd, args)];
    out := [];
    panicked := None;
    err := ErrorOf(reply);
    if reply.Reply? {
      out := [Println(reply.content)];
    }
    if err.Some? && reply.error.code == Unavailable {
      calls := calls + [Local(cmd, args)];
      err, out, panicked := DumpFromStorage(cmd, args, coreErr, repo, order);
    }
  }

  /** `Run`: the dispatch, then the sub-command. `prompted` and `readFile` stand for
      the terminal and the file system, which only "set" uses. */
  method Run(args: seq<string>, prompted: Result<string>, readFile: string -> Result<string>,
             remote: (string, seq<string>) -> Reply, coreErr: Option<string>,
             repo: Repository, order: seq<string>)
    returns (err: Option<string>, calls: seq<Call>, out: seq<Output>, panicked: Option<string>)
    requires repo.Valid() && repo.backend.Store?
    requires forall k :: k in order <==> k in repo.backend.data
    requires NoRepeats(order)
    modifies repo`backend
    ensures repo.Valid()
    ensures RouteOf(args).Refused? ==>
              err == Some(RouteOf(args).error) && calls == [] && out == [] && panicked.None?
    ensures !RouteOf(args).SetRoute? ==> repo.backend == old(repo.backend)
    ensures calls != [] ==> calls[0].Remote? && calls[0].command == args[0]
    ensures forall k :: 0 <= k < |calls| && calls[k].Local? ==>
              k == 1 && FallsBack(remote(calls[0].command, calls[0].args))
    ensures RouteOf(args).GetRoute? ==>
              (err, calls, out) == GetOutcome(args[1..], remote, coreErr, repo) && panicked.None?
    ensures RouteOf(args).SetRoute? ==>
              (err, calls, out, repo.backend)
              == SetOutcome(args[1..], prompted, readFile, remote, coreErr, old(repo.backend))
              && panicked.None?
    ensures RouteOf(args).DumpRoute? ==>
              (err, calls, out, panicked)
              == DumpOutcome(args[0], args[1..], remote, coreErr, repo.backend.data, repo.backend.failure, order)
  {
    calls := [];
    out := [];
    panicked := None;
    var route := RouteOf(args);
    match route {
      case GetRoute(rest) =>
        err, calls, out := GetConfig(rest, remote, coreErr, repo);
      case SetRoute(rest) =>
        err, calls, out := SetConfig(rest, prompted, readFile, remote, coreErr, repo);
      case DumpRoute(cmd, rest) =>
        err, calls, out, panicked := DumpConfig(cmd, rest, remote, coreErr, repo, order);
      case Refused(e) =>
        err := Some(e);
    }
  }
}
