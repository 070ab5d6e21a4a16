/** The gRPC server bean: binds the listener named by `<bean>.listen-address`,
    serves on it, and is stopped at most once per serve through its `running` flag. */
module GrpcServer {
  import opened Base
  import opened ServerCommon

  /** A bound listener: its address and whether it is wrapped in TLS. */
  datatype Listener = Listener(addr: string, tls: bool)

  class GrpcServer {
    const beanName: string
    const hasTls: bool
    var listenAddr: string
    var listener: Option<Listener>
    var running: bool
    /** What the lifecycle has done to the listener and the server, in order. */
    var effects: seq<Effect>

    constructor (beanName: string, hasTls: bool)
      ensures this.beanName == beanName && this.hasTls == hasTls
      ensures listenAddr == "" && listener == None && !running && effects == []
    {
      this.beanName := beanName;
      this.hasTls := hasTls;
      listenAddr := "";
      listener := None;
      running := false;
      effects := [];
    }

    method PostConstruct() returns (err: Option<string>)
      modifies this`running
      ensures !running && err == None
    {
      running := false;
      err := None;
    }

    /** Reads the listen address from the properties and opens a TCP listener on it
        (`listen` stands for `net.Listen`, giving the bound address or an error). */
    method Bind(props: map<string, string>, listen: string -> Result<string>) returns (err: Option<string>)
      modifies this`listenAddr, this`listener
      ensures listenAddr == GetString(props, beanName + ".listen-address", "")
      ensures listenAddr == "" ==>
                listener == old(listener)
                && err == Some("property '" + beanName + ".listen-address' not found in server context")
      ensures listenAddr != "" && listen(listenAddr).Err? ==>
                listener == None && err == Some(listen(listenAddr).error)
      ensures listenAddr != "" && listen(listenAddr).Ok? ==>
                listener == Some(Listener(listen(listenAddr).value, hasTls)) && err == None
    {
      listenAddr := GetString(props, beanName + ".listen-address", "");
      if listenAddr == "" {
        return Some("property '" + beanName + ".listen-address' not found in server context");
      }
      match listen(listenAddr)
      case Err(e) =>
        listener := None;
        err := Some(e);
      case Ok(addr) =>
        listener := Some(Listener(addr, hasTls));
        err := None;
    }

    function Active(): (r: bool)
      reads this
      ensures r == running
    {
      running
    }

    function ListenAddress(): (r: Addr)
      reads this
      ensures listener.None? ==> r == EmptyAddr
      ensures listener.Some? ==> r == TcpAddr(listener.value.addr)
    {
      if listener.Some? then TcpAddr(listener.value.addr) else EmptyAddr
    }

    /** Acts only while serving: clears `running`, closes the listener and stops the
        server. A second call, or a call before `Serve`, changes nothing. */
    method Stop()
      modifies this`running, this`effects
      ensures !running
      ensures old(running) ==>
                effects == old(effects) + (if listener.Some? then [ListenerClosed] else []) + [ServerStopped]
      ensures !old(running) ==> effects == old(effects)
    {
      if running {
        running := false;
        if listener.Some? {
          effects := effects + [ListenerClosed];
        }
        effects := effects + [ServerStopped];
      }
    }

    method Destroy() returns (err: Option<string>)
      modifies this`running, this`effects
      ensures err == None && !running
      ensures old(running) ==>
                effects == old(effects) + (if listener.Some? then [ListenerClosed] else []) + [ServerStopped]
      ensures !old(running) ==> effects == old(effects)
    {
      Stop();
      err := None;
    }

    /** Serves until the library's serve loop ends (`end`): `running` is set for the
        duration, and cleared again when the loop returns; after a panic it stays
        as it was, since the deferred recover skips the rest of `Serve`.
        `stoppedMeanwhile` says whether `Stop` ran while serving. */
    method Serve(stoppedMeanwhile: bool, end: ServeEnd) returns (err: Option<string>)
      modifies this`running, this`effects
      ensures end.Returned? ==> !running
      ensures end.Panicked? ==> running == !stoppedMeanwhile
      ensures err == ServeOutcome(end)
      ensures stoppedMeanwhile ==>
                effects == old(effects) + [Served(hasTls)]
                           + (if listener.Some? then [ListenerClosed] else []) + [ServerStopped]
      ensures !stoppedMeanwhile ==> effects == old(effects) + [Served(hasTls)]
    {
      running := true;
      effects := effects + [Served(hasTls)];
      if stoppedMeanwhile {
        Stop();
      }
      if end.Panicked? {
        return Some(end.message);
      }
      running := false;
      err := ServeResult(end.err);
    }
  }
}
