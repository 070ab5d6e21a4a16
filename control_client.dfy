/** The control client the command-line commands use to reach the running server:
    the status listing, node shutdown and restart, command calls, the interactive
    storage console, and the connection it owns. */
module ControlClient {
  import opened Base
  import opened Dispatch

  // ---------------------------------------------------------------------------
  // sort.Strings

  predicate Sorted(s: seq<string>) {
    forall i, j :: 0 <= i < j < |s| ==> StrLessEq(s[i], s[j])
  }

  /** `k` inserted into `s` before the first element it does not exceed. */
  function Insert(s: seq<string>, k: string): (r: seq<string>)
    ensures multiset(r) == multiset(s) + multiset{k}
    decreases |s|
  {
    if |s| == 0 then [k]
    else if StrLessEq(k, s[0]) then [k] + s
    else
      assert s == [s[0]] + s[1..];
      [s[0]] + Insert(s[1..], k)
  }

  /** A lower bound of `k` and of every element of `s` bounds every element of the
      insertion. */
  lemma {:induction false} InsertBounded(s: seq<string>, k: string, lo: string)
    requires StrLessEq(lo, k) && forall i :: 0 <= i < |s| ==> StrLessEq(lo, s[i])
    ensures forall j :: 0 <= j < |Insert(s, k)| ==> StrLessEq(lo, Insert(s, k)[j])
    decreases |s|
  {
    if |s| > 0 && !StrLessEq(k, s[0]) {
      InsertBounded(s[1..], k, lo);
    }
  }

  lemma SortedTail(s: seq<string>)
    requires Sorted(s) && |s| > 0
    ensures Sorted(s[1..])
  {
  }

  lemma {:induction false} InsertSorted(s: seq<string>, k: string)
    requires Sorted(s)
    ensures Sorted(Insert(s, k))
    decreases |s|
  {
    if |s| > 0 {
      if StrLessEq(k, s[0]) {
        var r := [k] + s;
        forall i, j | 0 <= i < j < |r| ensures StrLessEq(r[i], r[j]) {
          if i == 0 && j > 1 {
            StrLessEqTransitive(k, s[0], s[j - 1]);
          }
        }
      } else {
        StrLessEqTotal(k, s[0]);
        SortedTail(s);
        var tail := Insert(s[1..], k);
        InsertSorted(s[1..], k);
        InsertBounded(s[1..], k, s[0]);
        var r := [s[0]] + tail;
        assert forall i, j :: 0 < i < j < |r| ==> r[i] == tail[i - 1] && r[j] == tail[j - 1];
      }
    }
  }

  /** The keys in `order` sorted as `sort.Strings` sorts them. */
  function SortKeys(order: seq<string>): seq<string>
    decreases |order|
  {
    if |order| == 0 then [] else Insert(SortKeys(order[..|order| - 1]), order[|order| - 1])
  }

  lemma {:induction false} SortKeysSortedPermutation(order: seq<string>)
    ensures Sorted(SortKeys(order)) && multiset(SortKeys(order)) == multiset(order)
    decreases |order|
  {
    if |order| > 0 {
      var n := |order| - 1;
      SortKeysSortedPermutation(order[..n]);
      InsertSorted(SortKeys(order[..n]), order[n]);
      assert order == order[..n] + [order[n]];
    }
  }

  /** The least element of a sorted sequence is at its head. */
  lemma SortedHeadLeast(a: seq<string>, x: string)
    requires Sorted(a) && x in multiset(a)
    ensures StrLessEq(a[0], x)
  {
    var i :| 0 <= i < |a| && a[i] == x;
    if i == 0 {
      StrLessEqTotal(x, x);
    }
  }

  lemma MultisetTail(a: seq<string>)
    requires |a| > 0
    ensures multiset(a[1..]) == multiset(a) - multiset{a[0]}
  {
    assert a == [a[0]] + a[1..];
  }

  /** Two sorted arrangements of the same keys are the same sequence. */
  lemma {:induction false} SortedUnique(a: seq<string>, b: seq<string>)
    requires Sorted(a) && Sorted(b) && multiset(a) == multiset(b)
    ensures a == b
    decreases |a|
  {
    if |a| > 0 {
      assert a[0] in multiset(a) && b[0] in multiset(b);
      SortedHeadLeast(a, b[0]);
      SortedHeadLeast(b, a[0]);
      StrLessEqAntisymmetric(a[0], b[0]);
      MultisetTail(a);
      MultisetTail(b);
      SortedTail(a);
      SortedTail(b);
      SortedUnique(a[1..], b[1..]);
      assert a == [a[0]] + a[1..] && b == [b[0]] + b[1..];
    }
  }

  /** `sort.Strings`, by insertion. */
  method SortStrings(keys: seq<string>) returns (sorted: seq<string>)
    ensures sorted == SortKeys(keys)
  {
    sorted := [];
    var i := 0;
    while i < |keys|
      invariant 0 <= i <= |keys| && sorted == SortKeys(keys[..i])
    {
      assert keys[..i + 1][..i] == keys[..i];
      sorted := Insert(sorted, keys[i]);
      i := i + 1;
    }
    assert keys[..i] == keys;
  }

  // ---------------------------------------------------------------------------
  // Status

  /** The status text for the keys in the order given: a line "key: value". */
  function StatusText(keys: seq<string>, stats: map<string, string>): string
    decreases |keys|
  {
    if |keys| == 0 then ""
    else
      var k := keys[|keys| - 1];
      StatusText(keys[..|keys| - 1], stats) + k + ": " + (if k in stats then stats[k] else "") + "\n"
  }

  /** The status listing does not depend on the order the map is iterated in. */
  lemma StatusOrderIndependent(order1: seq<string>, order2: seq<string>, stats: map<string, string>)
    requires multiset(order1) == multiset(order2)
    ensures StatusText(SortKeys(order1), stats) == StatusText(SortKeys(order2), stats)
  {
    SortKeysSortedPermutation(order1);
    SortKeysSortedPermutation(order2);
    SortedUnique(SortKeys(order1), SortKeys(order2));
  }

  /** Listed in ascending order, every stat appears exactly once. */
  lemma StatusKeysExactlyOnce(order: seq<string>, stats: map<string, string>)
    requires forall k :: k in order <==> k in stats
    requires forall i, j :: 0 <= i < j < |order| ==> order[i] != order[j]
    ensures Sorted(SortKeys(order))
    ensures forall k :: multiset(SortKeys(order))[k] == (if k in stats then 1 else 0)
  {
    SortKeysSortedPermutation(order);
    forall k ensures multiset(order)[k] == (if k in stats then 1 else 0) {
      DistinctCount(order, k);
    }
  }

  lemma {:induction false} DistinctCount(s: seq<string>, k: string)
    requires forall i, j :: 0 <= i < j < |s| ==> s[i] != s[j]
    ensures multiset(s)[k] == (if k in s then 1 else 0)
    decreases |s|
  {
    if |s| > 0 {
      DistinctCount(s[1..], k);
      assert s == [s[0]] + s[1..];
      assert s[0] !in s[1..];
      if k in s && k != s[0] {
        assert k in s[1..];
      }
    }
  }

  /** The node command `Shutdown` sends. */
  function NodeCommand(restart: bool): (r: string)
    ensures restart ==> r == "restart"
    ensures !restart ==> r == "shutdown"
  {
    if restart then "restart" else "shutdown"
  }

  /** A command call's result: the content, or "" with the error. Models the
      `ConfigCommand`, `CertificateCommand`, `JobCommand` and `StorageCommand`
      wrappers, which differ only in the server method `rpc` stands for, and
      `Shutdown`, which calls the node method with `NodeCommand(restart)`. */
  function Command(rpc: (string, seq<string>) -> Reply, command: string, args: seq<string>)
    : (r: (string, Option<CallError>))
    ensures rpc(command, args).Failure? ==> r == ("", Some(rpc(command, args).error))
    ensures rpc(command, args).Reply? ==> r == (rpc(command, args).content, None)
  {
    match rpc(command, args)
    case Failure(e) => ("", Some(e))
    case Reply(content) => (content, None)
  }

  /** `Shutdown(true)` asks the node to restart, `Shutdown(false)` to shut down. */
  lemma ShutdownCommands(node: (string, seq<string>) -> Reply)
    ensures Command(node, NodeCommand(true), []) == Command(node, "restart", [])
    ensures Command(node, NodeCommand(false), []) == Command(node, "shutdown", [])
  {
  }

  // ---------------------------------------------------------------------------
  // Storage console

  /** What the receiving side does with a console response. */
  datatype ConsoleEvent = Ready | Write(output: Output)

  /** Status 100 signals the server is ready for the next query, 200 carries
      content for standard output, anything else is an error line. */
  function Classify(status: int, content: string): (r: ConsoleEvent)
    ensures r == Ready <==> status == 100
    ensures status == 200 ==> r == Write(Stdout(content + "\n"))
    ensures status != 100 && status != 200 ==>
              r == Write(Stderr("error: code " + IntToString(status) + ", " + content + "\n"))
  {
    if status == 100 then Ready
    else if status == 200 then Write(Stdout(content + "\n"))
    else Write(Stderr("error: code " + IntToString(status) + ", " + content + "\n"))
  }

  /** The output of the responses received, in order. */
  function Received(responses: seq<(int, string)>): seq<Output>
    decreases |responses|
  {
    if |responses| == 0 then []
    else
      var n := |responses| - 1;
      var e := Classify(responses[n].0, responses[n].1);
      Received(responses[..n]) + (if e.Write? then [e.output] else [])
  }

  /** The receiving goroutine: classifies each response until the stream ends,
      with `endErr` the error that ended it (none for end of stream). Returns what
      it wrote and how many ready signals it gave. */
  method Receive(responses: seq<(int, string)>, endErr: Option<string>) returns (out: seq<Output>, readies: nat)
    ensures out == Received(responses)
                   + (if endErr.Some? then [Stderr("error: recv i/o " + endErr.value + "\n")] else [])
    ensures readies == |Readies(responses)|
  {
    out := [];
    readies := 0;
    var i := 0;
    while i < |responses|
      invariant 0 <= i <= |responses|
      invariant out == Received(responses[..i]) && readies == |Readies(responses[..i])|
    {
      assert responses[..i + 1][..i] == responses[..i];
      var e := Classify(responses[i].0, responses[i].1);
      if e.Ready? {
        readies := readies + 1;
      } else {
        out := out + [e.output];
      }
      i := i + 1;
    }
    assert responses[..i] == responses;
    if endErr.Some? {
      out := out + [Stderr("error: recv i/o " + endErr.value + "\n")];
    }
  }

  /** The responses that signal readiness. */
  function Readies(responses: seq<(int, string)>): (r: seq<(int, string)>)
    ensures forall k :: 0 <= k < |r| ==> r[k].0 == 100
    decreases |responses|
  {
    if |responses| == 0 then []
    else
      var n := |responses| - 1;
      Readies(responses[..n]) + (if responses[n].0 == 100 then [responses[n]] else [])
  }

  /** The queries the console sends for the prompted lines: the non-empty ones
      before the first "exit". */
  function Queries(prompts: seq<string>): (r: seq<string>)
    ensures forall k :: 0 <= k < |r| ==> r[k] != "" && r[k] != "exit"
    decreases |prompts|
  {
    if |prompts| == 0 || prompts[0] == "exit" then []
    else (if prompts[0] == "" then [] else [prompts[0]]) + Queries(prompts[1..])
  }

  lemma QueriesStep(prompts: seq<string>, i: nat)
    requires i < |prompts|
    ensures Queries(prompts[i..]) ==
              if prompts[i] == "exit" then []
              else (if prompts[i] == "" then [] else [prompts[i]]) + Queries(prompts[i + 1..])
    ensures prompts[i..] == [prompts[i]] + prompts[i + 1..]
  {
    assert prompts[i..][0] == prompts[i] && prompts[i..][1..] == prompts[i + 1..];
  }

  predicate IsPrefix(a: seq<string>, b: seq<string>) {
    |a| <= |b| && b[..|a|] == a
  }

  /** The query loop of the storage console over the prompted lines, the `n`-th
      send being the next: the queries sent and the error line written. An empty
      line is skipped; "exit" ends the loop; a failed send writes its error and
      ends it; otherwise the query is sent and the loop waits for the receiver,
      ending if the receiver has ended. */
  function Console(prompts: seq<string>, n: nat, sendErr: nat -> Option<string>,
                   receiverEnded: nat -> bool): (r: (seq<string>, seq<Output>))
    decreases |prompts|
  {
    if |prompts| == 0 || prompts[0] == "exit" then ([], [])
    else if prompts[0] == "" then Console(prompts[1..], n, sendErr, receiverEnded)
    else if sendErr(n).Some? then ([], [Stderr("error: send i/o " + sendErr(n).value + "\n")])
    else if receiverEnded(n) then ([prompts[0]], [])
    else
      var rest := Console(prompts[1..], n + 1, sendErr, receiverEnded);
      ([prompts[0]] + rest.0, rest.1)
  }

  lemma ConsoleStep(prompts: seq<string>, i: nat, n: nat, sendErr: nat -> Option<string>,
                    receiverEnded: nat -> bool)
    requires i < |prompts|
    ensures Console(prompts[i..], n, sendErr, receiverEnded) ==
              if prompts[i] == "exit" then ([], [])
              else if prompts[i] == "" then Console(prompts[i + 1..], n, sendErr, receiverEnded)
              else if sendErr(n).Some? then ([], [Stderr("error: send i/o " + sendErr(n).value + "\n")])
              else if receiverEnded(n) then ([prompts[i]], [])
              else
                var rest := Console(prompts[i + 1..], n + 1, sendErr, receiverEnded);
                ([prompts[i]] + rest.0, rest.1)
  {
    assert prompts[i..][0] == prompts[i] && prompts[i..][1..] == prompts[i + 1..];
  }

  /** The console sends a prefix of the queries; it writes at most the one error
      line of the send that failed, which was the send after the last one done. */
  lemma {:induction false} ConsoleSendsQueries(prompts: seq<string>, n: nat,
                                               sendErr: nat -> Option<string>,
                                               receiverEnded: nat -> bool)
    ensures var (sent, errOut) := Console(prompts, n, sendErr, receiverEnded);
            IsPrefix(sent, Queries(prompts))
            && (errOut == [] || (|sent| < |Queries(prompts)| && sendErr(n + |sent|).Some?
                                 && errOut == [Stderr("error: send i/o " + sendErr(n + |sent|).value + "\n")]))
    decreases |prompts|
  {
    if |prompts| > 0 && prompts[0] != "exit" {
      if prompts[0] == "" {
        ConsoleSendsQueries(prompts[1..], n, sendErr, receiverEnded);
      } else if sendErr(n).None? && !receiverEnded(n) {
        ConsoleSendsQueries(prompts[1..], n + 1, sendErr, receiverEnded);
        var rest := Console(prompts[1..], n + 1, sendErr, receiverEnded);
        assert ([prompts[0]] + rest.0)[1..] == rest.0;
      }
    }
  }

  /** Without send errors and with the receiver alive, every query is sent. */
  lemma {:induction false} ConsoleSendsAll(prompts: seq<string>, n: nat,
                                           sendErr: nat -> Option<string>,
                                           receiverEnded: nat -> bool)
    requires forall m: nat :: sendErr(m).None? && !receiverEnded(m)
    ensures Console(prompts, n, sendErr, receiverEnded) == (Queries(prompts), [])
    decreases |prompts|
  {
    if |prompts| > 0 && prompts[0] != "exit" {
      if prompts[0] == "" {
        ConsoleSendsAll(prompts[1..], n, sendErr, receiverEnded);
        assert Console(prompts, n, sendErr, receiverEnded) == Console(prompts[1..], n, sendErr, receiverEnded);
        assert Queries(prompts) == Queries(prompts[1..]);
        assert Console(prompts[1..], n, sendErr, receiverEnded) == (Queries(prompts[1..]), []);
      } else {
        assert sendErr(n).None? && !receiverEnded(n);
        ConsoleSendsAll(prompts[1..], n + 1, sendErr, receiverEnded);
      }
    }
  }

  /** `StorageConsole`: opens the stream (`streamErr`), then prompts (`prompts` are
      the lines read, the console prompting until "exit") and sends each query;
      `sendErr(n)` is the outcome of the n-th send and `receiverEnded(n)` whether
      the receiver had ended by the time the n-th query was answered. After the
      loop the console returns no error. */
  method StorageConsole(streamErr: Option<CallError>, prompts: seq<string>,
                        sendErr: nat -> Option<string>, receiverEnded: nat -> bool)
    returns (err: Option<CallError>, sent: seq<string>, errOut: seq<Output>)
    requires "exit" in prompts
    ensures streamErr.Some? ==> err == streamErr && sent == [] && errOut == []
    ensures streamErr.None? ==> err == None && (sent, errOut) == Console(prompts, 0, sendErr, receiverEnded)
  {
    sent := [];
    errOut := [];
    if streamErr.Some? {
      return streamErr, sent, errOut;
    }
    err := None;
    var i := 0;
    assert prompts[i..] == prompts && sent + Console(prompts, 0, sendErr, receiverEnded).0
                                      == Console(prompts, 0, sendErr, receiverEnded).0;
    while i < |prompts|
      invariant 0 <= i <= |prompts| && errOut == []
      invariant Console(prompts, 0, sendErr, receiverEnded).0
                == sent + Console(prompts[i..], |sent|, sendErr, receiverEnded).0
      invariant Console(prompts, 0, sendErr, receiverEnded).1
                == Console(prompts[i..], |sent|, sendErr, receiverEnded).1
      decreases |prompts| - i
    {
      var query := prompts[i];
      ConsoleStep(prompts, i, |sent|, sendErr, receiverEnded);
      ghost var here := Console(prompts[i..], |sent|, sendErr, receiverEnded);
      if query == "" {
        i := i + 1;
      } else if query == "exit" {
        assert sent + [] == sent;
        break;
      } else if sendErr(|sent|).Some? {
        errOut := [Stderr("error: send i/o " + sendErr(|sent|).value + "\n")];
        assert sent + [] == sent;
        break;
      } else {
        var n := |sent|;
        ghost var rest := Console(prompts[i + 1..], n + 1, sendErr, receiverEnded).0;
        assert sent + ([query] + rest) == (sent + [query]) + rest;
        sent := sent + [query];
        i := i + 1;
        if receiverEnded(n) {
          break;
        }
      }
    }
    if i == |prompts| {
      assert prompts[i..] == [] && sent + [] == sent;
    }
  }

  // ---------------------------------------------------------------------------
  // The client object

  class ControlClient {
    /** Whether the client holds a connection, and the closes done on it. */
    const hasConn: bool
    var destroyed: bool
    var closes: nat

    ghost predicate Valid()
      reads this
    {
      closes == (if destroyed && hasConn then 1 else 0)
    }

    constructor (hasConn: bool)
      ensures Valid() && this.hasConn == hasConn && !destroyed
    {
      this.hasConn := hasConn;
      destroyed := false;
      closes := 0;
    }

    /** Closes the connection the first time only; `closeErr` is what closing it
        gives. */
    method Destroy(closeErr: Option<string>) returns (err: Option<string>)
      requires Valid()
      modifies this`destroyed, this`closes
      ensures Valid() && destroyed && closes <= 1
      ensures !old(destroyed) && hasConn ==> err == closeErr && closes == 1
      ensures old(destroyed) || !hasConn ==> err == None && closes == old(closes)
    {
      err := None;
      if !destroyed {
        destroyed := true;
        if hasConn {
          closes := closes + 1;
          err := closeErr;
        }
      }
    }

    /** `Status`: the stats the server returned (`rpcErr` when the call failed),
        iterated in `order`, printed one "key: value" line each in ascending key
        order. */
    method Status(rpcErr: Option<CallError>, stats: map<string, string>, order: seq<string>)
      returns (out: string, err: Option<CallError>)
      requires forall k :: k in order <==> k in stats
      ensures rpcErr.Some? ==> out == "" && err == rpcErr
      ensures rpcErr.None? ==> out == StatusText(SortKeys(order), stats) && err == None
    {
      if rpcErr.Some? {
        return "", rpcErr;
      }
      var keys: seq<string> := [];
      var i := 0;
      while i < |order|
        invariant 0 <= i <= |order| && keys == order[..i]
      {
        keys := keys + [order[i]];
        i := i + 1;
      }
      assert order[..i] == order;
      var sorted := SortStrings(keys);
      out := "";
      var j := 0;
      while j < |sorted|
        invariant 0 <= j <= |sorted| && out == StatusText(sorted[..j], stats)
      {
        assert sorted[..j + 1][..j] == sorted[..j];
        var k := sorted[j];
        out := out + k + ": " + (if k in stats then stats[k] else "") + "\n";
        j := j + 1;
      }
      assert sorted[..j] == sorted;
      err := None;
    }
  }
}
