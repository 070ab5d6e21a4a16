/** The factory of the control client's gRPC connection: where it connects and with
    which dial options. */
module GrpcClientFactory {
  import opened Base

  /** A listen address rewritten into one a local client can connect to: the
      wildcard host "0.0.0.0" and an empty host both become the loopback
      "127.0.0.1"; any other address is kept. */
  function GetConnectAddress(listenAddr: string): (r: string)
    ensures HasPrefix(listenAddr, "0.0.0.0:") ==> r == "127.0.0.1" + listenAddr[7..]
    ensures !HasPrefix(listenAddr, "0.0.0.0:") && HasPrefix(listenAddr, ":") ==> r == "127.0.0.1" + listenAddr
    ensures !HasPrefix(listenAddr, "0.0.0.0:") && !HasPrefix(listenAddr, ":") ==> r == listenAddr
  {
    if HasPrefix(listenAddr, "0.0.0.0:") then "127.0.0.1" + listenAddr[7..]
    else if HasPrefix(listenAddr, ":") then "127.0.0.1" + listenAddr
    else listenAddr
  }

  /** A string with a non-empty prefix starts with the prefix's first character. */
  lemma PrefixHead(s: string, prefix: string)
    requires |prefix| > 0 && HasPrefix(s, prefix)
    ensures s[0] == prefix[0]
  {
    assert s[..|prefix|][0] == s[0];
  }

  /** The wildcard host keeps its port: "0.0.0.0:P" connects to "127.0.0.1:P". */
  lemma WildcardKeepsPort(port: string)
    ensures GetConnectAddress("0.0.0.0:" + port) == "127.0.0.1:" + port
  {
    var s := "0.0.0.0:" + port;
    assert s[..8] == "0.0.0.0:";
    assert s[7..] == ":" + port;
  }

  /** An empty host keeps its port: ":P" connects to "127.0.0.1:P". */
  lemma EmptyHostKeepsPort(port: string)
    ensures GetConnectAddress(":" + port) == "127.0.0.1:" + port
  {
    var s := ":" + port;
    assert s[..1] == ":";
    assert !HasPrefix(s, "0.0.0.0:") by {
      if HasPrefix(s, "0.0.0.0:") {
        PrefixHead(s, "0.0.0.0:");
      }
    }
  }

  /** The rewrite is idempotent: a rewritten address starts with "127.0.0.1". */
  lemma {:induction false} ConnectAddressIdempotent(listenAddr: string)
    ensures GetConnectAddress(GetConnectAddress(listenAddr)) == GetConnectAddress(listenAddr)
  {
    var r := GetConnectAddress(listenAddr);
    if r != listenAddr {
      assert r[0] == '1';
      if HasPrefix(r, "0.0.0.0:") {
        PrefixHead(r, "0.0.0.0:");
      }
      if HasPrefix(r, ":") {
        PrefixHead(r, ":");
      }
    }
  }

  /** The address the client dials: an explicit "<bean>.connect-address" wins;
      otherwise the control server's listen address, rewritten; with neither the
      factory fails. */
  function ConnectAddress(props: map<string, string>, beanName: string): (r: Result<string>)
    ensures GetString(props, beanName + ".connect-address", "") != "" ==>
              r == Ok(props[beanName + ".connect-address"])
    ensures GetString(props, beanName + ".connect-address", "") == ""
            && GetString(props, "control-grpc-server.listen-address", "") != "" ==>
              r == Ok(GetConnectAddress(props["control-grpc-server.listen-address"]))
    ensures r.Err? <==> GetString(props, beanName + ".connect-address", "") == ""
                        && GetString(props, "control-grpc-server.listen-address", "") == ""
  {
    var connectAddr := GetString(props, beanName + ".connect-address", "");
    if connectAddr != "" then Ok(connectAddr)
    else
      var grpcListenAddr := GetString(props, "control-grpc-server.listen-address", "");
      if grpcListenAddr == "" then
        Err("property '" + beanName + ".connect-address' is not found and property "
            + "'control-grpc-server.listen-address' is not found too'")
      else Ok(GetConnectAddress(grpcListenAddr))
  }

  /** The dial options of the gRPC library that the factory selects. */
  datatype DialOption =
    | TransportCredentials
    | Insecure
    | MaxCallRecvMsgSize(size: int)
    | PerRpcCredentials(token: string)

  /** The options of `doDial`: TLS transport credentials when a TLS config is
      injected and an insecure transport otherwise, then a receive-size limit when
      "<bean>.max.message.size" is non-zero, then the bearer token of
      "application.auth" on every call when that is set. */
  function DialOptions(hasTlsConfig: bool, maxMessageSize: int, authToken: string): (r: seq<DialOption>)
    ensures |r| >= 1 && (r[0] == TransportCredentials <==> hasTlsConfig) && (r[0] == Insecure <==> !hasTlsConfig)
    ensures MaxCallRecvMsgSize(maxMessageSize) in r <==> maxMessageSize != 0
    ensures PerRpcCredentials(authToken) in r <==> authToken != ""
    ensures forall o :: o in r && o.MaxCallRecvMsgSize? ==> o.size == maxMessageSize
    ensures forall o :: o in r && o.PerRpcCredentials? ==> o.token == authToken
    ensures |r| == 1 + (if maxMessageSize != 0 then 1 else 0) + (if authToken != "" then 1 else 0)
  {
    [if hasTlsConfig then TransportCredentials else Insecure]
    + (if maxMessageSize != 0 then [MaxCallRecvMsgSize(maxMessageSize)] else [])
    + (if authToken != "" then [PerRpcCredentials(authToken)] else [])
  }

  /** What `Object` hands to grpc.Dial: the target address and the options. */
  datatype Dial = Dial(target: string, options: seq<DialOption>)

  /** The factory's object: the dial of the resolved address, or the resolution
      error; the connection itself is made by the gRPC library. */
  function Object(props: map<string, string>, beanName: string, hasTlsConfig: bool, maxMessageSize: int): (r: Result<Dial>)
    ensures r.Ok? <==> ConnectAddress(props, beanName).Ok?
    ensures r.Ok? ==> r.value.target == ConnectAddress(props, beanName).value
                      && r.value.options == DialOptions(hasTlsConfig, maxMessageSize, GetString(props, "application.auth", ""))
    ensures r.Err? ==> r.error == ConnectAddress(props, beanName).error
  {
    var addr := ConnectAddress(props, beanName);
    if addr.Err? then Err(addr.error)
    else Ok(Dial(addr.value, DialOptions(hasTlsConfig, maxMessageSize, GetString(props, "application.auth", ""))))
  }
}
