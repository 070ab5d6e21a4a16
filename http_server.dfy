/** The HTTP server bean: binds the server's own address, serves over TLS exactly
    when the server has a TLS configuration, and is stopped at most once per serve
    through its `running` flag. */
module HttpServer {
  import opened Base
  import opened ServerCommon

  class HttpServer {
    /** `srv.Addr` and whether `srv.TLSConfig` is set. */
    const addr: string
    const hasTls: bool
    /** The bound listener's address. */
    var listener: Option<string>
    var running: bool
    var effects: seq<Effect>

    constructor (addr: string, hasTls: bool)
      ensures this.addr == addr && this.hasTls == hasTls
      ensures listener == None && !running && effects == []
    {
      this.addr := addr;
      this.hasTls := hasTls;
      listener := None;
      running := false;
      effects := [];
    }

    method PostConstruct() returns (err: Option<string>)
      modifies this`running
      ensures !running && err == None
    {
      running := false;
      err := None;
    }

    /** Opens a TCP listener on the server's address (`listen` stands for
        `net.Listen`); a failure is reported as "can not bind to port". */
    method Bind(listen: string -> Result<string>) returns (err: Option<string>)
      modifies this`listener
      ensures listen(addr).Err? ==>
                listener == None
                && err == Some("can not bind to port '" + addr + "', " + listen(addr).error)
      ensures listen(addr).Ok? ==> listener == Some(listen(addr).value) && err == None
    {
      match listen(addr)
      case Err(e) =>
        listener := None;
        err := Some("can not bind to port '" + addr + "', " + e);
      case Ok(bound) =>
        listener := Some(bound);
        err := None;
    }

    function Active(): (r: bool)
      reads this
      ensures r == running
    {
      running
    }

    function ListenAddress(): (r: Addr)
      reads this
      ensures listener.None? ==> r == EmptyAddr
      ensures listener.Some? ==> r == TcpAddr(listener.value)
    {
      if listener.Some? then TcpAddr(listener.value) else EmptyAddr
    }

    /** Acts only while serving: clears `running`, closes the listener and then the
        server. A second call, or a call before `Serve`, changes nothing. */
    method Stop()
      modifies this`running, this`effects
      ensures !running
      ensures old(running) ==>
                effects == old(effects) + (if listener.Some? then [ListenerClosed] else []) + [ServerClosed]
      ensures !old(running) ==> effects == old(effects)
    {
      if running {
        running := false;
        if listener.Some? {
          effects := effects + [ListenerClosed];
        }
        effects := effects + [ServerClosed];
      }
    }

    method Destroy() returns (err: Option<string>)
      modifies this`running, this`effects
      ensures err == None && !running
      ensures old(running) ==>
                effects == old(effects) + (if listener.Some? then [ListenerClosed] else []) + [ServerClosed]
      ensures !old(running) ==> effects == old(effects)
    {
      Stop();
      err := None;
    }

    /** Serves until the library's serve loop ends (`end`): `running` is set for the
        duration, and cleared again when the loop returns; after a panic it stays
        as it was, since the deferred recover skips the rest of `Serve`.
        `stoppedMeanwhile` says whether `Stop` ran while serving. */
    method Serve(stoppedMeanwhile: bool, end: ServeEnd) returns (err: Option<string>)
      modifies this`running, this`effects
      ensures end.Returned? ==> !running
      ensures end.Panicked? ==> running == !stoppedMeanwhile
      ensures err == ServeOutcome(end)
      ensures stoppedMeanwhile ==>
                effects == old(effects) + [Served(hasTls)]
                           + (if listener.Some? then [ListenerClosed] else []) + [ServerClosed]
      ensures !stoppedMeanwhile ==> effects == old(effects) + [Served(hasTls)]
    {
      running := true;
      if hasTls {
        effects := effects + [Served(true)];
      } else {
        effects := effects + [Served(false)];
      }
      if stoppedMeanwhile {
        Stop();
      }
      if end.Panicked? {
        return Some(end.message);
      }
      running := false;
      err := ServeResult(end.err);
    }
  }
}
