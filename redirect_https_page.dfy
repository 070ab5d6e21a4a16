/** The page that redirects every plain HTTP request to the same host over HTTPS,
    on the port of a configured redirect address. */
module RedirectHttpsPage {
  import opened Base

  /** 301 Moved Permanently (RFC 9110 section 15.4.2). */
  const StatusMovedPermanently := 301

  /** The host of a "host:port" pair: the text before its first ':' (strings.Split
      and the first piece). */
  function Hostname(host: string): (r: string)
    ensures ':' !in r && HasPrefix(host, r)
    ensures |r| < |host| ==> host[|r|] == ':'
  {
    Split(host, ':')[0]
  }

  /** The port part of the redirect address: from its first ':' inclusive, or empty. */
  function Suffix(addr: string): (r: string)
    ensures ':' !in addr ==> r == ""
    ensures ':' in addr ==> |r| > 0 && r[0] == ':' && HasSuffix(addr, r) && ':' !in addr[..|addr| - |r|]
  {
    var i := IndexByte(addr, ':');
    if i == -1 then "" else addr[i..]
  }

  /** The URL of the redirect: "https://", the request's host name without its
      port, the configured suffix and the request URI. */
  function RedirectUrl(host: string, suffix: string, requestUri: string): string {
    "https://" + Hostname(host) + suffix + requestUri
  }

  /** A request for "h:p" or "h", `h` free of ':', goes to `h` with the configured
      port and the same URI. */
  lemma RedirectUrlOfHost(h: string, p: string, suffix: string, requestUri: string)
    requires ':' !in h
    ensures RedirectUrl(h + ":" + p, suffix, requestUri) == "https://" + h + suffix + requestUri
    ensures RedirectUrl(h, suffix, requestUri) == "https://" + h + suffix + requestUri
  {
    IndexByteAfter(h, ':', p);
    assert (h + ":" + p)[..|h|] == h;
    assert IndexByte(h, ':') == -1;
  }

  class RedirectHttpsPage {
    const beanName: string
    var redirectAddr: string
    var redirectSuffix: string

    constructor (beanName: string)
      ensures this.beanName == beanName && redirectAddr == "" && redirectSuffix == ""
    {
      this.beanName := beanName;
      redirectAddr := "";
      redirectSuffix := "";
    }

    /** Reads "<bean>.redirect-address", which must be set, and keeps its port
        part as the suffix of every redirect. */
    method PostConstruct(props: map<string, string>) returns (err: Option<string>)
      modifies this`redirectAddr, this`redirectSuffix
      ensures redirectAddr == GetString(props, beanName + ".redirect-address", "")
      ensures redirectAddr == "" ==>
                err == Some("property '" + beanName + ".redirect-address' is not found in context")
                && redirectSuffix == old(redirectSuffix)
      ensures redirectAddr != "" ==> err.None? && redirectSuffix == Suffix(redirectAddr)
    {
      redirectAddr := GetString(props, beanName + ".redirect-address", "");
      if redirectAddr == "" {
        return Some("property '" + beanName + ".redirect-address' is not found in context");
      }
      var i := IndexByte(redirectAddr, ':');
      if i != -1 {
        redirectSuffix := redirectAddr[i..];
      } else {
        redirectSuffix := "";
      }
      err := None;
    }

    /** The page serves every path. */
    function Pattern(): (r: string)
      ensures r == "/"
    {
      "/"
    }

    /** The response: a permanent redirect to the HTTPS URL of the request. */
    function ServeHttp(host: string, requestUri: string): (r: (int, string))
      reads this
      ensures r.0 == StatusMovedPermanently
      ensures r.1 == "https://" + Hostname(host) + redirectSuffix + requestUri
    {
      (StatusMovedPermanently, RedirectUrl(host, redirectSuffix, requestUri))
    }
  }
}
