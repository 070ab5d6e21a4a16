/** What the gRPC and HTTP servers share: the address a server reports and the
    effects its lifecycle has on the listener and the underlying server. */
module ServerCommon {
  import opened Base

  /** `ListenAddress`: the bound address, or `EmptyAddr` before a successful bind. */
  datatype Addr = EmptyAddr | TcpAddr(address: string)

  /** The outside effects of the lifecycle methods, in the order they happen. */
  datatype Effect =
    | ListenerClosed       // listener.Close()
    | ServerStopped        // the gRPC server's Stop, started on its own goroutine
    | ServerClosed         // the HTTP server's Close
    | Served(tls: bool)    // the server library's serve loop ran, over TLS or not

  /** How the library's serve loop ends: it returns its error, or it panics and the
      deferred recover turns the panic into an error text. */
  datatype ServeEnd = Returned(err: Option<string>) | Panicked(message: string)

  /** What `Serve` returns for the error the library's serve loop returned: an error
      mentioning "closed" is the normal end after `Stop`. */
  function ServeResult(serveErr: Option<string>): (r: Option<string>)
    ensures r.None? <==> serveErr.None? || Contains(serveErr.value, "closed")
    ensures r.Some? ==> r == serveErr
  {
    if serveErr.Some? && Contains(serveErr.value, "closed") then None else serveErr
  }

  /** The error a listener reports after it has been closed maps to success. */
  lemma ClosedListenerIsSuccess(detail: string)
    ensures ServeResult(Some("accept tcp " + detail + ": use of closed network connection")) == None
  {
    var head := "accept tcp " + detail + ": use of ";
    var e := head + "closed" + " network connection";
    assert e == "accept tcp " + detail + ": use of closed network connection";
    assert e[|head|..][..|"closed"|] == "closed";
    ContainsAt(e, "closed", |head|);
  }

  /** What `Serve` returns for each way the serve loop ends: a recovered panic is
      returned as it is, even when it mentions "closed". */
  function ServeOutcome(end: ServeEnd): (r: Option<string>)
    ensures end.Panicked? ==> r == Some(end.message)
    ensures end.Returned? ==> (r.None? <==> end.err.None? || Contains(end.err.value, "closed"))
  {
    match end
    case Returned(e) => ServeResult(e)
    case Panicked(m) => Some(m)
  }
}
