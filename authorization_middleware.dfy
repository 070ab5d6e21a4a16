/** The authorization gate of the servers: a bearer token (section 2.1 of RFC 6750)
    from the request's `authorization` metadata, checked against a set of revoked
    tokens and then by the token verifier. Signing and verification are outside the
    model and come in as functions. */
module AuthorizationMiddleware {
  import opened Base
  import opened ConfigRepository
  import Dispatch

  /** A user as carried by a token; `None` stands for Go's nil map. */
  datatype AuthorizedUser = AuthorizedUser(
    username: string,
    roles: Option<map<string, bool>>,
    context: Option<map<string, string>>,
    expiresAt: int,
    token: string)

  /** The user `Authenticate` attaches when authentication fails. */
  const Anonymous := AuthorizedUser("", None, None, 0, "")

  /** What a request's context holds for the gate: the incoming metadata (absent
      outside a call) and the user `Authenticate` attached, if any. */
  datatype RequestContext = RequestContext(metadata: Option<map<string, seq<string>>>,
                                           user: Option<AuthorizedUser>)

  type Verifier = (seq<bv8>, string) -> Result<AuthorizedUser>
  type Signer = (seq<bv8>, AuthorizedUser) -> Result<string>

  const BearerPrefix := "Bearer "

  /** The token of a well-formed `authorization` header: exactly one value, starting
      with the case-sensitive "Bearer ", whose rest is not blank. */
  function BearerToken(metadata: Option<map<string, seq<string>>>): (r: Option<string>)
    ensures r.Some? <==>
              metadata.Some? && "authorization" in metadata.value
              && |metadata.value["authorization"]| == 1
              && HasPrefix(metadata.value["authorization"][0], BearerPrefix)
              && TrimSpace(metadata.value["authorization"][0][|BearerPrefix|..]) != ""
    ensures r.Some? ==> r.value == TrimSpace(metadata.value["authorization"][0][|BearerPrefix|..])
                        && r.value != ""
  {
    if metadata.None? || "authorization" !in metadata.value then None
    else
      var headers := metadata.value["authorization"];
      if |headers| != 1 || !HasPrefix(headers[0], BearerPrefix) then None
      else
        var token := TrimSpace(headers[0][|BearerPrefix|..]);
        if token == "" then None else Some(token)
  }

  /** The scheme name is matched exactly: a lower-case "bearer" is refused. */
  lemma BearerIsCaseSensitive(value: string)
    requires HasPrefix(value, "bearer ")
    ensures BearerToken(Some(map["authorization" := [value]])) == None
  {
    assert value[0] != BearerPrefix[0];
  }

  /** A header with the prefix and a token without surrounding white space yields
      that token. */
  lemma BearerTokenOfHeader(token: string)
    requires token != "" && TrimSpace(token) == token
    ensures BearerToken(Some(map["authorization" := [BearerPrefix + token]])) == Some(token)
  {
    assert (BearerPrefix + token)[|BearerPrefix|..] == token;
  }

  /** `doAuthenticate` over the gate's state: the revocation set is consulted before
      the verifier, and only a verified token gives a user. */
  function Authenticated(metadata: Option<map<string, seq<string>>>, invalidTokens: set<string>,
                         secretKey: seq<bv8>, verify: Verifier): (r: Option<AuthorizedUser>)
    ensures r.Some? <==>
              BearerToken(metadata).Some? && BearerToken(metadata).value !in invalidTokens
              && verify(secretKey, BearerToken(metadata).value).Ok?
    ensures r.Some? ==> r.value == verify(secretKey, BearerToken(metadata).value).value
  {
    match BearerToken(metadata)
    case None => None
    case Some(token) =>
      if token in invalidTokens then None
      else
        match verify(secretKey, token)
        case Err(_) => None
        case Ok(user) => Some(user)
  }

  /** A revoked token is refused whatever the verifier would say. */
  lemma RevokedTokenRefused(metadata: Option<map<string, seq<string>>>, invalidTokens: set<string>,
                            secretKey: seq<bv8>, verify: Verifier)
    requires BearerToken(metadata).Some? && BearerToken(metadata).value in invalidTokens
    ensures Authenticated(metadata, invalidTokens, secretKey, verify) == None
  {
  }

  /** The user `GetUser` finds in a context: an attached blank user (empty name and
      zero expiry) counts as none; without an attached user the header is checked. */
  function UserOf(ctx: RequestContext, invalidTokens: set<string>, secretKey: seq<bv8>,
                  verify: Verifier): (r: Option<AuthorizedUser>)
    ensures ctx.user.Some? ==>
              (r.None? <==> ctx.user.value.username == "" && ctx.user.value.expiresAt == 0)
              && (r.Some? ==> r.value == ctx.user.value)
    ensures ctx.user.None? ==> r == Authenticated(ctx.metadata, invalidTokens, secretKey, verify)
  {
    match ctx.user
    case Some(user) =>
      if user.username == "" && user.expiresAt == 0 then None else Some(user)
    case None => Authenticated(ctx.metadata, invalidTokens, secretKey, verify)
  }

  /** The claims of the bootstrap token: roles USER and ADMIN, an empty context and
      an expiry 356 days after `now` (Unix seconds, int64 arithmetic). */
  function DefaultClaims(username: string, now: int): (r: AuthorizedUser)
    ensures r.username == username && r.token == ""
    ensures r.roles == Some(map["USER" := true, "ADMIN" := true])
    ensures r.context == Some(map[])
    ensures InInt64(now + 356 * 24 * 3600) ==> r.expiresAt == now + 30758400
  {
    AuthorizedUser(username, Some(map["USER" := true, "ADMIN" := true]), Some(map[]),
                   WrapInt64(now + 356 * 24 * 3600), "")
  }

  /** Whether `user` grants `role`: a nil role map or a missing role means no. */
  predicate HasRole(user: Option<AuthorizedUser>, role: string) {
    user.Some? && user.value.roles.Some? && role in user.value.roles.value
    && user.value.roles.value[role]
  }

  class AuthorizationMiddleware {
    var invalidTokens: set<string>
    var secretKey: seq<bv8>

    constructor ()
      ensures invalidTokens == {} && secretKey == []
    {
      invalidTokens := {};
      secretKey := [];
    }

    /** Loads `jwt.secret.key` (`configured`), or generates a secret, stores it in
        the configuration repository and prints a bootstrap token for it; then
        decodes the secret. `generated` is the generator's `(secret, error)` pair;
        `currentUser` the operating-system user lookup. Returns the error and the
        lines `fmt.Printf` writes on standard output. */
    method PostConstruct(configured: string, generated: (string, Option<string>),
                         decode: string -> Result<seq<bv8>>, currentUser: Result<string>,
                         now: int, sign: Signer, appName: string, repo: Repository)
      returns (err: Option<string>, printed: seq<Dispatch.Output>)
      requires repo.Valid() && (configured == "" ==> repo.backend.Store?)
      modifies this`secretKey, repo`backend
      ensures repo.Valid() && (configured == "" ==> repo.backend.Store?)
      ensures configured != "" ==>
                repo.backend == old(repo.backend) && printed == []
                && (decode(configured).Ok? ==> err == None && secretKey == decode(configured).value)
                && (decode(configured).Err? ==> err == Some(decode(configured).error) && secretKey == [])
      ensures configured == "" && generated.1.Some? ==>
                repo.backend == old(repo.backend) && err == generated.1 && secretKey == old(secretKey)
                && printed == []
      ensures configured == "" && generated.1.None? && old(repo.backend).failure.Some? ==>
                repo.backend == old(repo.backend) && err == old(repo.backend).failure
                && secretKey == old(secretKey)
                && printed == [Dispatch.Stdout("Generated JWT 'jwt.secret.key' property: " + generated.0 + "\n")]
      ensures configured == "" && generated.1.None? && old(repo.backend).failure.None? ==>
                repo.backend == Store(Write(old(repo.backend).data, "jwt.secret.key", generated.0), None)
                && var token := DefaultAuthToken(generated.0, decode, currentUser, now, sign);
                   (token.Err? ==> err == Some(token.error) && secretKey == old(secretKey)
                                   && printed == [Dispatch.Stdout("Generated JWT 'jwt.secret.key' property: "
                                                                  + generated.0 + "\n")])
                   && (token.Ok? ==> err == None && secretKey == decode(generated.0).value
                                     && printed == [Dispatch.Stdout("Generated JWT 'jwt.secret.key' property: " + generated.0 + "\n"),
                                                    Dispatch.Stdout("export " + ToUpper(appName) + "_AUTH=" + token.value + "\n")])
    {
      printed := [];
      var secret := configured;
      if secret == "" {
        secret := generated.0;
        if generated.1.Some? {
          return generated.1, printed;
        }
        printed := printed + [Dispatch.Stdout("Generated JWT 'jwt.secret.key' property: " + secret + "\n")];
        var setErr, _ := repo.Set("jwt.secret.key", secret);
        if setErr.Some? {
          return setErr, printed;
        }
        var authToken := DefaultAuthToken(secret, decode, currentUser, now, sign);
        if authToken.Err? {
          return Some(authToken.error), printed;
        }
        printed := printed + [Dispatch.Stdout("export " + ToUpper(appName) + "_AUTH=" + authToken.value + "\n")];
      }
      match decode(secret)
      case Ok(key) =>
        secretKey := key;
        err := None;
      case Err(e) =>
        secretKey := [];
        err := Some(e);
    }

    /** The gate's `doAuthenticate`. */
    function DoAuthenticate(ctx: RequestContext, verify: Verifier): (r: Option<AuthorizedUser>)
      reads this
      ensures r == Authenticated(ctx.metadata, invalidTokens, secretKey, verify)
    {
      match BearerToken(ctx.metadata)
      case None => None
      case Some(token) =>
        if token in invalidTokens then None
        else if verify(secretKey, token).Err? then None
        else Some(verify(secretKey, token).value)
    }

    /** Attaches the authenticated user, or the anonymous one on any failure; it
        never fails itself. */
    function Authenticate(ctx: RequestContext, verify: Verifier): (r: RequestContext)
      reads this
      ensures r.metadata == ctx.metadata && r.user.Some?
      ensures DoAuthenticate(ctx, verify).None? ==> r.user.value == Anonymous
      ensures DoAuthenticate(ctx, verify).Some? ==> r.user == DoAuthenticate(ctx, verify)
    {
      var user := DoAuthenticate(ctx, verify);
      ctx.(user := Some(if user.Some? then user.value else Anonymous))
    }

    function GetUser(ctx: RequestContext, verify: Verifier): (r: Option<AuthorizedUser>)
      reads this
      ensures r == UserOf(ctx, invalidTokens, secretKey, verify)
    {
      if ctx.user.Some? then
        if ctx.user.value.username == "" && ctx.user.value.expiresAt == 0 then None
        else ctx.user
      else DoAuthenticate(ctx, verify)
    }

    function HasUserRole(ctx: RequestContext, role: string, verify: Verifier): (r: bool)
      reads this
      ensures r == HasRole(UserOf(ctx, invalidTokens, secretKey, verify), role)
      ensures var u := UserOf(ctx, invalidTokens, secretKey, verify);
              r <==> u.Some? && u.value.roles.Some? && role in u.value.roles.value
                     && u.value.roles.value[role]
    {
      var user := GetUser(ctx, verify);
      if user.None? || user.value.roles.None? then false
      else role in user.value.roles.value && user.value.roles.value[role]
    }

    /** The user's context entry `name`; `("", false)` without a user, with a nil
        context map or without the entry. */
    function UserContext(ctx: RequestContext, name: string, verify: Verifier): (r: (string, bool))
      reads this
      ensures var u := UserOf(ctx, invalidTokens, secretKey, verify);
              r.1 <==> u.Some? && u.value.context.Some? && name in u.value.context.value
      ensures r.1 ==> r.0 == UserOf(ctx, invalidTokens, secretKey, verify).value.context.value[name]
      ensures !r.1 ==> r.0 == ""
    {
      var user := GetUser(ctx, verify);
      if user.None? || user.value.context.None? then ("", false)
      else if name in user.value.context.value then (user.value.context.value[name], true)
      else ("", false)
    }

    function GenerateToken(user: AuthorizedUser, sign: Signer): (r: Result<string>)
      reads this
      ensures r == sign(secretKey, user)
    {
      sign(secretKey, user)
    }

    /** Verifies a token without consulting the revocation set. */
    function ParseToken(token: string, verify: Verifier): (r: Result<AuthorizedUser>)
      reads this
      ensures r == verify(secretKey, token)
    {
      verify(secretKey, token)
    }

    method InvalidateToken(token: string)
      modifies this`invalidTokens
      ensures invalidTokens == old(invalidTokens) + {token}
    {
      invalidTokens := invalidTokens + {token};
    }
  }

  /** `generateDefaultAuthToken`: decodes the secret, looks up the current user and
      signs the bootstrap claims. */
  function DefaultAuthToken(secret: string, decode: string -> Result<seq<bv8>>,
                            currentUser: Result<string>, now: int, sign: Signer): (r: Result<string>)
    ensures decode(secret).Err? ==> r == Err(decode(secret).error)
    ensures decode(secret).Ok? && currentUser.Err? ==> r == Err(currentUser.error)
    ensures decode(secret).Ok? && currentUser.Ok? ==>
              r == sign(decode(secret).value, DefaultClaims(currentUser.value, now))
  {
    match decode(secret)
    case Err(e) => Err(e)
    case Ok(key) =>
      match currentUser
      case Err(e) => Err(e)
      case Ok(name) => sign(key, DefaultClaims(name, now))
  }

  /** After `Authenticate`, `GetUser` reports the authenticated user; a failed
      authentication leaves no user. (A verified user with empty name and zero expiry
      is indistinguishable from the anonymous one and also reads as none.) */
  lemma {:induction false} GetUserAfterAuthenticate(gate: AuthorizationMiddleware, ctx: RequestContext,
                                                    verify: Verifier)
    ensures var u := gate.DoAuthenticate(ctx, verify);
            var back := gate.GetUser(gate.Authenticate(ctx, verify), verify);
            (u.None? ==> back.None?)
            && (u.Some? && (u.value.username != "" || u.value.expiresAt != 0) ==> back == u)
  {
  }

  /** An anonymous request holds no role. */
  lemma AnonymousHasNoRole(gate: AuthorizationMiddleware, ctx: RequestContext, role: string,
                           verify: Verifier)
    requires gate.DoAuthenticate(ctx, verify).None?
    ensures !gate.HasUserRole(gate.Authenticate(ctx, verify), role, verify)
  {
  }

  /** `ParseToken` does not consult the revocation set: a revoked token the verifier
      accepts still parses, while the same token in a request authenticates no one. */
  lemma RevokedTokenStillParses(gate: AuthorizationMiddleware, token: string, verify: Verifier)
    requires token != "" && TrimSpace(token) == token
    requires token in gate.invalidTokens && verify(gate.secretKey, token).Ok?
    ensures gate.ParseToken(token, verify) == verify(gate.secretKey, token)
    ensures var ctx := RequestContext(Some(map["authorization" := [BearerPrefix + token]]), None);
            gate.DoAuthenticate(ctx, verify).None?
  {
    BearerTokenOfHeader(token);
  }

  /** A token `GenerateToken` signs, under a verifier that inverts the signer, is
      authenticated as its user until it is revoked. */
  lemma GeneratedTokenAuthenticates(gate: AuthorizationMiddleware, user: AuthorizedUser, sign: Signer,
                                    verify: Verifier)
    requires var token := gate.GenerateToken(user, sign);
             token.Ok? && token.value != "" && TrimSpace(token.value) == token.value
             && token.value !in gate.invalidTokens && verify(gate.secretKey, token.value) == Ok(user)
    ensures var token := gate.GenerateToken(user, sign).value;
            var ctx := RequestContext(Some(map["authorization" := [BearerPrefix + token]]), None);
            gate.ParseToken(token, verify) == Ok(user) && gate.DoAuthenticate(ctx, verify) == Some(user)
  {
    BearerTokenOfHeader(gate.GenerateToken(user, sign).value);
  }

  /** With a verifier that accepts what the signer produced, the bootstrap token sent
      as a bearer header authenticates as an ADMIN, unless it has been revoked. */
  lemma BootstrapTokenIsAdmin(secret: string, decode: string -> Result<seq<bv8>>, username: string,
                              now: int, sign: Signer, verify: Verifier, invalidTokens: set<string>)
    requires decode(secret).Ok?
    requires var token := sign(decode(secret).value, DefaultClaims(username, now));
             token.Ok? && token.value != "" && TrimSpace(token.value) == token.value
             && token.value !in invalidTokens
             && verify(decode(secret).value, token.value) == Ok(DefaultClaims(username, now))
    ensures var token := DefaultAuthToken(secret, decode, Ok(username), now, sign).value;
            var ctx := RequestContext(Some(map["authorization" := [BearerPrefix + token]]), None);
            HasRole(UserOf(ctx, invalidTokens, decode(secret).value, verify), "ADMIN")
  {
    var token := DefaultAuthToken(secret, decode, Ok(username), now, sign).value;
    BearerTokenOfHeader(token);
  }
}
