/** The `token` command: prints a bootstrap token, signs an authorization token for
    a user with roles, a context and a lifetime in days, or verifies a token. The
    token codec, the secret's base64 decoding, the terminal prompt and the clock
    come in as parameters. */
module TokenCmd {
  import opened Base
  import opened AuthorizationMiddleware
  import Dispatch

  /** The seconds in a day, by which the lifetime in days is multiplied. */
  const SecondsPerDay := 24 * 3600

  // ---------------------------------------------------------------------------
  // The context and the roles of an authorization token

  /** The context map of the comma-separated `key=value` pieces: each piece split at
      its first '=', a later key overwriting an earlier one. */
  function ContextOf(pairs: seq<string>): map<string, string>
    decreases |pairs|
  {
    if |pairs| == 0 then map[]
    else
      var kv := SplitKeyValue(pairs[|pairs| - 1]);
      ContextOf(pairs[..|pairs| - 1])[kv.0 := kv.1]
  }

  /** The context holds exactly the keys of the pieces. */
  lemma {:induction false} ContextOfKeys(pairs: seq<string>, key: string)
    ensures key in ContextOf(pairs) <==> exists j :: 0 <= j < |pairs| && SplitKeyValue(pairs[j]).0 == key
    decreases |pairs|
  {
    if |pairs| > 0 {
      var n := |pairs| - 1;
      var front := pairs[..n];
      var kv := SplitKeyValue(pairs[n]);
      ContextOfKeys(front, key);
      assert ContextOf(pairs) == ContextOf(front)[kv.0 := kv.1];
      if key in ContextOf(front) {
        var j :| 0 <= j < n && SplitKeyValue(front[j]).0 == key;
        assert front[j] == pairs[j];
      }
      if exists j :: 0 <= j < |pairs| && SplitKeyValue(pairs[j]).0 == key {
        var j :| 0 <= j < |pairs| && SplitKeyValue(pairs[j]).0 == key;
        if j < n {
          assert front[j] == pairs[j];
        }
      }
    }
  }

  /** A key takes the value of the last piece that names it. */
  lemma {:induction false} ContextOfLastWins(pairs: seq<string>, j: nat)
    requires j < |pairs|
    requires forall l :: j < l < |pairs| ==> SplitKeyValue(pairs[l]).0 != SplitKeyValue(pairs[j]).0
    ensures var kv := SplitKeyValue(pairs[j]);
            kv.0 in ContextOf(pairs) && ContextOf(pairs)[kv.0] == kv.1
    decreases |pairs|
  {
    var n := |pairs| - 1;
    if j < n {
      forall l | j < l < n ensures SplitKeyValue(pairs[..n][l]).0 != SplitKeyValue(pairs[..n][j]).0 {
        assert pairs[..n][l] == pairs[l];
      }
      ContextOfLastWins(pairs[..n], j);
      assert pairs[..n][j] == pairs[j];
    }
  }

  /** An empty context argument gives the single entry "" → "". */
  lemma EmptyContext()
    ensures ContextOf(Split("", ',')) == map["" := ""]
  {
    assert Split("", ',') == [""];
    assert ContextOf([""]) == ContextOf([])["" := ""];
  }

  /** The role map of the comma-separated role names: each name trimmed, mapped to true. */
  function RolesOf(pieces: seq<string>): (r: map<string, bool>)
    decreases |pieces|
  {
    if |pieces| == 0 then map[]
    else RolesOf(pieces[..|pieces| - 1])[TrimSpace(pieces[|pieces| - 1]) := true]
  }

  /** Every trimmed name is granted. */
  lemma {:induction false} RolesOfGrants(pieces: seq<string>, j: nat)
    requires j < |pieces|
    ensures TrimSpace(pieces[j]) in RolesOf(pieces) && RolesOf(pieces)[TrimSpace(pieces[j])]
    decreases |pieces|
  {
    var n := |pieces| - 1;
    var role := TrimSpace(pieces[j]);
    var last := TrimSpace(pieces[n]);
    var front := RolesOf(pieces[..n]);
    assert RolesOf(pieces) == front[last := true];
    if j < n {
      RolesOfGrants(pieces[..n], j);
      assert pieces[..n][j] == pieces[j];
      assert role in front && front[role];
    } else {
      assert role == last;
    }
  }

  /** Only trimmed names are granted, and each is mapped to true. */
  lemma {:induction false} RolesOfOnly(pieces: seq<string>, role: string)
    requires role in RolesOf(pieces)
    ensures RolesOf(pieces)[role]
    ensures exists j :: 0 <= j < |pieces| && TrimSpace(pieces[j]) == role
    decreases |pieces|
  {
    var n := |pieces| - 1;
    var last := TrimSpace(pieces[n]);
    if role != last {
      RolesOfOnly(pieces[..n], role);
      var j :| 0 <= j < n && TrimSpace(pieces[..n][j]) == role;
      assert pieces[..n][j] == pieces[j];
    }
  }

  /** Fills the context map from the comma-separated pieces, one by one. */
  method ParseContext(pairs: seq<string>) returns (m: map<string, string>)
    ensures m == ContextOf(pairs)
  {
    m := map[];
    var i := 0;
    while i < |pairs|
      invariant 0 <= i <= |pairs| && m == ContextOf(pairs[..i])
    {
      assert pairs[..i + 1][..i] == pairs[..i];
      var pair := pairs[i];
      var k := IndexByte(pair, '=');
      if k == -1 {
        m := m[pair := ""];
      } else {
        m := m[pair[0..k] := pair[k + 1..]];
      }
      i := i + 1;
    }
    assert pairs[..i] == pairs;
  }

  /** Fills the role map from the comma-separated names, one by one. */
  method ParseRoles(pieces: seq<string>) returns (m: map<string, bool>)
    ensures m == RolesOf(pieces)
  {
    m := map[];
    var i := 0;
    while i < |pieces|
      invariant 0 <= i <= |pieces| && m == RolesOf(pieces[..i])
    {
      assert pieces[..i + 1][..i] == pieces[..i];
      m := m[TrimSpace(pieces[i]) := true];
      i := i + 1;
    }
    assert pieces[..i] == pieces;
  }

  /** The expiry of a token living `ttlDays` days from `now`, in int64 seconds. */
  function Expiry(now: int, ttlDays: int): (r: int)
    ensures InInt64(r)
    ensures InInt64(now + ttlDays * SecondsPerDay) ==> r == now + ttlDays * SecondsPerDay
  {
    WrapInt64(now + ttlDays * SecondsPerDay)
  }

  // ---------------------------------------------------------------------------
  // The sub-commands

  /** `generateAuthToken`: `secret` is the prompted JWT secret, `decode` the base64
      decoder, `now` the clock and `sign` the token codec. Returns the error and the
      token, which `println` writes on standard error. */
  method GenerateAuthToken(args: seq<string>, executable: string, secret: string,
                           decode: string -> Result<seq<bv8>>, now: int, sign: Signer)
    returns (err: Option<string>, printed: seq<Dispatch.Output>)
    ensures |args| < 4 ==>
              err == Some("Usage: ./" + executable + " token auth username roles context ttl-in-days")
              && printed == []
    ensures |args| >= 4 && decode(secret).Err? ==> err == Some(decode(secret).error) && printed == []
    ensures |args| >= 4 && decode(secret).Ok? && ParseInt64("ParseInt", args[3]).Err? ==>
              err == Some("error on parsing days '" + args[3] + "', " + ParseInt64("ParseInt", args[3]).error)
              && printed == []
    ensures |args| >= 4 && decode(secret).Ok? && ParseInt64("ParseInt", args[3]).Ok? ==>
              var user := AuthorizedUser(args[0], Some(RolesOf(Split(args[1], ','))),
                                         Some(ContextOf(Split(args[2], ','))),
                                         Expiry(now, ParseInt64("ParseInt", args[3]).value), "");
              var token := sign(decode(secret).value, user);
              err == (if token.Err? then Some(token.error) else None)
              && printed == (if token.Ok? then [Dispatch.Println(token.value)] else [])
  {
    printed := [];
    if |args| < 4 {
      return Some("Usage: ./" + executable + " token auth username roles context ttl-in-days"), printed;
    }
    var username, roles, context, ttlDaysStr := args[0], args[1], args[2], args[3];
    var contextMap := ParseContext(Split(context, ','));
    var secretKey := decode(secret);
    if secretKey.Err? {
      return Some(secretKey.error), printed;
    }
    var ttlDays := ParseInt64("ParseInt", ttlDaysStr);
    if ttlDays.Err? {
      return Some("error on parsing days '" + ttlDaysStr + "', " + ttlDays.error), printed;
    }
    var indexedRoles := ParseRoles(Split(roles, ','));
    var user := AuthorizedUser(username, Some(indexedRoles), Some(contextMap),
                               Expiry(now, ttlDays.value), "");
    var token := sign(secretKey.value, user);
    if token.Err? {
      return Some(token.error), printed;
    }
    printed := [Dispatch.Println(token.value)];
    err := None;
  }

  /** The property holding the application's own token: `<NAME>_AUTH`. */
  function TokenProperty(appName: string): (r: string)
    ensures r == ToUpper(appName + "_auth")
    ensures HasSuffix(r, "_AUTH")
  {
    var r := ToUpper(appName + "_auth");
    assert r[|appName|..] == "_AUTH";
    r
  }

  /** The token `verify` checks: the argument, else the application's token
      property. */
  function TokenToVerify(args: seq<string>, appName: string, props: map<string, string>): (r: string)
    ensures |args| > 0 ==> r == args[0]
    ensures |args| == 0 ==> r == GetString(props, TokenProperty(appName), "")
  {
    if |args| > 0 then args[0] else GetString(props, TokenProperty(appName), "")
  }

  /** `verifyAuthToken` as the source has it: the verification error is formatted
      and dropped, so a refused token leaves a nil user whose fields are then read;
      the panic is recovered by `Run` into its error. `describe` is the line
      `fmt.Printf` writes for a user on standard output. */
  function VerifyAuthTokenAsWritten(args: seq<string>, appName: string, props: map<string, string>,
                                    secret: string, decode: string -> Result<seq<bv8>>,
                                    verify: Verifier, describe: AuthorizedUser -> string)
    : (r: (Option<string>, seq<Dispatch.Output>))
    ensures r.0.Some? <==> r.1 == []
  {
    var token := TokenToVerify(args, appName, props);
    if token == "" then (Some("auth token not found"), [])
    else if decode(secret).Err? then (Some(decode(secret).error), [])
    else
      match verify(decode(secret).value, token)
      case Err(_) => (Some(NilDereference), [])
      case Ok(user) => (None, [Dispatch.Stdout(describe(user))])
  }

  /** A refused token ends in the nil-pointer error instead of the verifier's reason. */
  lemma RefusedTokenPanics(secret: string, decode: string -> Result<seq<bv8>>, verify: Verifier,
                           describe: AuthorizedUser -> string, token: string)
    requires token != "" && decode(secret).Ok? && verify(decode(secret).value, token).Err?
    ensures VerifyAuthTokenAsWritten([token], "", map[], secret, decode, verify, describe)
            == (Some(NilDereference), [])
  {
  }

  /** `verifyAuthToken` with the verification error returned as "verify error, …". */
  function VerifyAuthToken(args: seq<string>, appName: string, props: map<string, string>,
                           secret: string, decode: string -> Result<seq<bv8>>,
                           verify: Verifier, describe: AuthorizedUser -> string)
    : (r: (Option<string>, seq<Dispatch.Output>))
    ensures r.0.Some? <==> r.1 == []
  {
    var token := TokenToVerify(args, appName, props);
    if token == "" then (Some("auth token not found"), [])
    else if decode(secret).Err? then (Some(decode(secret).error), [])
    else
      match verify(decode(secret).value, token)
      case Err(e) => (Some("verify error, " + e), [])
      case Ok(user) => (None, [Dispatch.Stdout(describe(user))])
  }

  /** `verify` succeeds exactly for a non-empty token the verifier accepts under the
      decoded secret, and reports the verifier's reason otherwise. */
  lemma VerifyAuthTokenOutcome(args: seq<string>, appName: string, props: map<string, string>,
                               secret: string, decode: string -> Result<seq<bv8>>,
                               verify: Verifier, describe: AuthorizedUser -> string)
    ensures var token := TokenToVerify(args, appName, props);
            var r := VerifyAuthToken(args, appName, props, secret, decode, verify, describe);
            (r.0.None? <==> token != "" && decode(secret).Ok? && verify(decode(secret).value, token).Ok?)
            && (token != "" && decode(secret).Ok? && verify(decode(secret).value, token).Err? ==>
                  r.0 == Some("verify error, " + verify(decode(secret).value, token).error))
            && (r.0.None? ==> r.1 == [Dispatch.Stdout(describe(verify(decode(secret).value, token).value))])
  {
  }

  /** The fixed and the original `verify` agree on every token the verifier accepts. */
  lemma VerifyAgreesOnAccepted(args: seq<string>, appName: string, props: map<string, string>,
                               secret: string, decode: string -> Result<seq<bv8>>,
                               verify: Verifier, describe: AuthorizedUser -> string)
    requires VerifyAuthTokenAsWritten(args, appName, props, secret, decode, verify, describe).0 != Some(NilDereference)
    ensures VerifyAuthToken(args, appName, props, secret, decode, verify, describe)
            == VerifyAuthTokenAsWritten(args, appName, props, secret, decode, verify, describe)
  {
  }

  /** `Run`: the sub-command named by the first argument. `bootToken` is the outcome
      of the token generator. Returns the error and what was written, on
      each stream. */
  method Run(args: seq<string>, bootToken: Result<string>, executable: string, appName: string,
             props: map<string, string>, secret: string, decode: string -> Result<seq<bv8>>,
             now: int, sign: Signer, verify: Verifier, describe: AuthorizedUser -> string)
    returns (err: Option<string>, printed: seq<Dispatch.Output>)
    ensures |args| == 0 ==> err == Some("token command needs argument [boot, auth]") && printed == []
    ensures |args| > 0 && args[0] == "boot" ==>
              err == (if bootToken.Err? then Some(bootToken.error) else None)
              && printed == (if bootToken.Ok? then [Dispatch.Println(bootToken.value)] else [])
    ensures |args| > 0 && args[0] == "verify" ==>
              (err, printed) == VerifyAuthTokenAsWritten(args[1..], appName, props, secret, decode, verify, describe)
    ensures |args| > 0 && args[0] == "auth" && |args| < 5 ==>
              err == Some("Usage: ./" + executable + " token auth username roles context ttl-in-days")
              && printed == []
    ensures |args| >= 5 && args[0] == "auth" && decode(secret).Err? ==>
              err == Some(decode(secret).error) && printed == []
    ensures |args| >= 5 && args[0] == "auth" && decode(secret).Ok? && ParseInt64("ParseInt", args[4]).Err? ==>
              err == Some("error on parsing days '" + args[4] + "', " + ParseInt64("ParseInt", args[4]).error)
              && printed == []
    ensures |args| >= 5 && args[0] == "auth" && decode(secret).Ok? && ParseInt64("ParseInt", args[4]).Ok? ==>
              var user := AuthorizedUser(args[1], Some(RolesOf(Split(args[2], ','))),
                                         Some(ContextOf(Split(args[3], ','))),
                                         Expiry(now, ParseInt64("ParseInt", args[4]).value), "");
              var token := sign(decode(secret).value, user);
              err == (if token.Err? then Some(token.error) else None)
              && printed == (if token.Ok? then [Dispatch.Println(token.value)] else [])
    ensures |args| > 0 && args[0] !in {"boot", "auth", "verify"} ==>
              err == Some("unknown sub-command '" + args[0] + "' for token command") && printed == []
  {
    printed := [];
    if |args| == 0 {
      return Some("token command needs argument [boot, auth]"), printed;
    }
    var cmd := args[0];
    var rest := args[1..];
    if cmd == "boot" {
      if bootToken.Ok? {
        return None, [Dispatch.Println(bootToken.value)];
      }
      return Some(bootToken.error), printed;
    } else if cmd == "auth" {
      err, printed := GenerateAuthToken(rest, executable, secret, decode, now, sign);
    } else if cmd == "verify" {
      var r := VerifyAuthTokenAsWritten(rest, appName, props, secret, decode, verify, describe);
      err, printed := r.0, r.1;
    } else {
      err := Some("unknown sub-command '" + cmd + "' for token command");
    }
  }
}
