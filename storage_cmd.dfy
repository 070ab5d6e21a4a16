/** The `storage` command: the storage console or a storage command on the running
    server, or locally when the server is unavailable. */
module StorageCmd {
  import opened Base
  import opened Dispatch

  const StorageDesc := "storage management commands: [console, list, dump, restore, compact, drop, clean]"

  /** What running the command did: the calls made, the error returned and the
      output printed. */
  datatype Outcome = Outcome(calls: seq<Call>, err: Option<string>, out: seq<Output>)

  /** Printing of a successful command's content; the console prints by itself. */
  function Printed(command: string, reply: Reply): seq<Output> {
    if reply.Reply? && command != "console" then [Println(reply.content)] else []
  }

  /** `Run`: `remote(cmd, args)` is the outcome of the console or the storage
      command sent through the control client (including a failure to set the
      client up), `local(cmd, args)` the outcome of the local console or of the
      storage service's `ExecuteCommand` (including a failure to set the core up). */
  function Run(args: seq<string>, remote: (string, seq<string>) -> Reply,
               local: (string, seq<string>) -> Reply): (r: Outcome)
    ensures |args| == 0 ==> r == Outcome([], Some(StorageDesc), [])
    ensures |args| > 0 && !FallsBack(remote(args[0], args[1..])) ==>
              r.calls == [Remote(args[0], args[1..])] && r.err == ErrorOf(remote(args[0], args[1..]))
              && r.out == Printed(args[0], remote(args[0], args[1..]))
    ensures |args| > 0 && FallsBack(remote(args[0], args[1..])) ==>
              r.calls == [Remote(args[0], args[1..]), Local(args[0], args[1..])]
              && r.err == ErrorOf(local(args[0], args[1..]))
              && r.out == Printed(args[0], local(args[0], args[1..]))
    ensures r.err.None? <==>
              |args| > 0 && (remote(args[0], args[1..]).Reply?
                             || (FallsBack(remote(args[0], args[1..])) && local(args[0], args[1..]).Reply?))
  {
    if |args| < 1 then Outcome([], Some(StorageDesc), [])
    else
      var cmd := args[0];
      var rest := args[1..];
      var reply := remote(cmd, rest);
      if reply.Reply? then Outcome([Remote(cmd, rest)], None, Printed(cmd, reply))
      else if reply.error.code != Unavailable then Outcome([Remote(cmd, rest)], Some(reply.error.text), [])
      else
        var localReply := local(cmd, rest);
        Outcome([Remote(cmd, rest), Local(cmd, rest)], ErrorOf(localReply), Printed(cmd, localReply))
  }

  /** A command runs locally only after the server reported Unavailable, and then
      with the same name and arguments. */
  lemma LocalOnlyWhenUnavailable(args: seq<string>, remote: (string, seq<string>) -> Reply,
                                 local: (string, seq<string>) -> Reply, c: Call)
    requires c in Run(args, remote, local).calls && c.Local?
    ensures |args| > 0 && FallsBack(remote(args[0], args[1..]))
    ensures c == Local(args[0], args[1..])
  {
  }
}
