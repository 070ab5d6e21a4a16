/** The `cert` command: a certificate command on the running server, or locally
    when the server is unavailable, except `manager`, which needs the server. */
module CertCmd {
  import opened Base
  import opened Dispatch

  const CertDesc := "cert commands: [list, dump, upload, create, renew, remove, client, acme, self, manager]"
  const ManagerNeedsServer := "cert manager command available only on running server"

  datatype Outcome = Outcome(calls: seq<Call>, err: Option<string>, out: seq<Output>)

  function Printed(reply: Reply): seq<Output> {
    if reply.Reply? then [Println(reply.content)] else []
  }

  /** `Run`: `remote` is the outcome of `CertificateCommand` through the control
      client, `local` that of the certificate service's `ExecuteCommand` in the
      core context. */
  function Run(args: seq<string>, remote: (string, seq<string>) -> Reply,
               local: (string, seq<string>) -> Reply): (r: Outcome)
    ensures |args| == 0 ==> r == Outcome([], Some("cert command needs argument, " + CertDesc), [])
    ensures |args| > 0 && !FallsBack(remote(args[0], args[1..])) ==>
              r == Outcome([Remote(args[0], args[1..])], ErrorOf(remote(args[0], args[1..])),
                           Printed(remote(args[0], args[1..])))
    ensures |args| > 0 && FallsBack(remote(args[0], args[1..])) && args[0] == "manager" ==>
              r == Outcome([Remote(args[0], args[1..])], Some(ManagerNeedsServer), [])
    ensures |args| > 0 && FallsBack(remote(args[0], args[1..])) && args[0] != "manager" ==>
              r == Outcome([Remote(args[0], args[1..]), Local(args[0], args[1..])],
                           ErrorOf(local(args[0], args[1..])), Printed(local(args[0], args[1..])))
  {
    if |args| == 0 then Outcome([], Some("cert command needs argument, " + CertDesc), [])
    else
      var cmd := args[0];
      var rest := args[1..];
      var reply := remote(cmd, rest);
      if reply.Reply? then Outcome([Remote(cmd, rest)], None, Printed(reply))
      else if reply.error.code != Unavailable then Outcome([Remote(cmd, rest)], Some(reply.error.text), [])
      else if cmd == "manager" then Outcome([Remote(cmd, rest)], Some(ManagerNeedsServer), [])
      else
        var localReply := local(cmd, rest);
        Outcome([Remote(cmd, rest), Local(cmd, rest)], ErrorOf(localReply), Printed(localReply))
  }

  /** `manager` never runs locally. */
  lemma ManagerNeverLocal(rest: seq<string>, remote: (string, seq<string>) -> Reply,
                          local: (string, seq<string>) -> Reply)
    ensures forall c :: c in Run(["manager"] + rest, remote, local).calls ==> c.Remote?
  {
    assert (["manager"] + rest)[0] == "manager" && (["manager"] + rest)[1..] == rest;
  }
}
