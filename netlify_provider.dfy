/** The Netlify DNS provider: recognising domains served by Netlify's name servers
    and finding the API token for the DNS-01 challenge. */
module NetlifyProvider {
  import opened Base

  /** A name server of Netlify's DNS (NS1). */
  predicate IsNetlifyServer(ns: string) {
    HasSuffix(ToLower(ns), ".nsone.net")
  }

  /** The whois record's name servers include one of Netlify's, in any letter case. */
  function Detect(nservers: seq<string>): (r: bool)
    ensures r <==> exists k :: 0 <= k < |nservers| && IsNetlifyServer(nservers[k])
    decreases |nservers|
  {
    if |nservers| == 0 then false
    else if IsNetlifyServer(nservers[0]) then true
    else
      var rest := Detect(nservers[1..]);
      assert forall k :: 1 <= k < |nservers| ==> nservers[k] == nservers[1..][k - 1];
      rest
  }

  /** The challenge token: the given one, else property "netlify.token", else the
      environment variable NETLIFY_TOKEN (`env` is its value). */
  function ChallengeToken(token: string, props: map<string, string>, env: string): (r: Option<string>)
    ensures token != "" ==> r == Some(token)
    ensures token == "" && GetString(props, "netlify.token", "") != "" ==> r == Some(props["netlify.token"])
    ensures token == "" && GetString(props, "netlify.token", "") == "" ==> r == (if env != "" then Some(env) else None)
  {
    var t := if token != "" then token else GetString(props, "netlify.token", "");
    var t2 := if t != "" then t else env;
    if t2 == "" then None else Some(t2)
  }

  /** Registers the DNS-01 provider with a lego client: a client of another type is
      refused before any token lookup, a missing token is an error, otherwise the
      error of building and installing the provider (`install`, the lego library). */
  function RegisterChallenge(isLegoClient: bool, token: string, props: map<string, string>, env: string,
                             install: string -> Option<string>): (err: Option<string>)
    ensures !isLegoClient ==> err == Some("expected *lego.Client instance")
    ensures isLegoClient && ChallengeToken(token, props, env).None? ==> err == Some("netlify token not found")
    ensures isLegoClient && ChallengeToken(token, props, env).Some? ==>
              err == install(ChallengeToken(token, props, env).value)
  {
    if !isLegoClient then Some("expected *lego.Client instance")
    else
      var t := ChallengeToken(token, props, env);
      if t.None? then Some("netlify token not found") else install(t.value)
  }

  /** The token the API client is built with: the property, else the environment. */
  function NewClient(props: map<string, string>, env: string): (r: Result<string>)
    ensures GetString(props, "netlify.token", "") != "" ==> r == Ok(props["netlify.token"])
    ensures GetString(props, "netlify.token", "") == "" && env != "" ==> r == Ok(env)
    ensures GetString(props, "netlify.token", "") == "" && env == "" ==>
              r == Err("netlify.token is empty in config and empty system env NETLIFY_TOKEN")
  {
    var token := GetString(props, "netlify.token", "");
    var t := if token != "" then token else env;
    if t == "" then Err("netlify.token is empty in config and empty system env NETLIFY_TOKEN") else Ok(t)
  }

  /** Without an explicit token, the challenge and the API client use the same
      token, and fail together. */
  lemma ClientAndChallengeAgree(props: map<string, string>, env: string)
    ensures NewClient(props, env).Ok? <==> ChallengeToken("", props, env).Some?
    ensures NewClient(props, env).Ok? ==> NewClient(props, env).value == ChallengeToken("", props, env).value
  {
  }

  /** Two lists of name servers together are detected exactly when one of them is:
      a Netlify server is found wherever it stands. */
  lemma {:induction false} DetectAppend(a: seq<string>, b: seq<string>)
    ensures Detect(a + b) == (Detect(a) || Detect(b))
  {
    if Detect(a) {
      var k :| 0 <= k < |a| && IsNetlifyServer(a[k]);
      assert (a + b)[k] == a[k];
    } else if Detect(b) {
      var k :| 0 <= k < |b| && IsNetlifyServer(b[k]);
      assert (a + b)[|a| + k] == b[k];
    } else {
      forall k | 0 <= k < |a + b| ensures !IsNetlifyServer((a + b)[k]) {
        if k < |a| {
          assert (a + b)[k] == a[k];
        } else {
          assert (a + b)[k] == b[k - |a|];
        }
      }
    }
  }
}
