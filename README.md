# sprintframework control plane in Dafny

This project models the control plane of sprintframework, a Go framework for
long-running server daemons, and proves properties of that model. It covers:

- the watchable configuration repository, whose keys are namespaced under `config:`;
- node identity and the issuing of time-ordered version-1 UUIDs (section 4.2.1 of RFC 4122);
- the bearer-token authorization gate (section 2.1 of RFC 6750);
- the server lifecycle: the application's shutdown and restart flags, the gRPC and HTTP servers' `running` flags, and the bind filter and signal loop of `runServers`;
- the command dispatch that falls back to local execution only when the control server answers `Unavailable`: the `config`, `storage`, `cert` and `token` commands and the control client;
- the job registry;
- small parsers:
  - `key=value` flags and token context/role parsing;
  - licence filtering and OpenAPI assembly;
  - the connect-address rewrite;
  - the HTTPS redirect (section 15.4.2 of RFC 9110);
  - FQDN dots (section 3.1 of RFC 1034);
  - interactive prompts and PEM boundaries (section 2 of RFC 7468);
  - the TLS client-auth names;
  - one-shot NAT discovery;
  - the Netlify DNS provider.

Each Go file of the core is one Dafny module, in the file of the same name.
- `Base` holds the Go library behaviour the modules share: string functions, `strconv` parsing, and int32/int64 wrap-around.
- `ServerCommon` holds what the two servers share.
- `Dispatch` holds the `Unavailable` fallback rule.

The code takes the source's own form:
- Objects whose fields change become classes. Their methods have `modifies` clauses and state the new state.
- Loops become methods with invariants, proved against recursive specification functions.
- Branch-only code becomes functions.

Some inputs are parameters of the operations:
- the clock, environment variables and `os.Args`;
- `filepath.Abs`, `net.Listen` and `grpc.Dial`;
- the token signer and verifier, the id generators and the base64 decoder;
- the template parser and the terminal prompt.

A Go map's iteration order is an `order` parameter. The backing key/value store is a map with an optional failure.

## Model

| member | source | states |
|---|---|---|
| Application.PreprocessArgs | pkg/app/application.go:330-341 | a one-element `-h`/`-help`/`--help` list becomes `["help"]`, a one-element `-v`/`-version`/`--version` list becomes `["version"]`, every other list is returned unchanged |
| Application.PreprocessArgsIdempotent | pkg/app/application.go:330-341 | rewriting the arguments a second time changes nothing |
| Application.DispatchOf | pkg/app/application.go:310-327 | a known first argument runs that command with the rest; an unknown one is reported with usage and no error; with no arguments, a "default" command fails with the recovered slice-bounds panic, otherwise usage is printed |
| Application.Run | pkg/app/application.go:266-328 | a context error, then a flag-parse error, is returned; otherwise the outcome is the dispatch of the parsed positional arguments after the help/version rewrite |
| Application.HelpFlagRunsHelp | pkg/app/application.go:283-334 | a lone help flag runs the "help" command with no arguments |
| Application.EmptyArgsFailOnlyWithDefault | pkg/app/application.go:268-327 | with no arguments, `Run` fails exactly when a "default" command is registered |
| Application.ApplicationDir | pkg/app/application.go:184-194 | the application directory is the parent of the executable's directory when that directory is named "bin", and the directory itself otherwise |
| Application.Profile | pkg/app/application.go:195-196 | the profile is the lower-cased value of the environment variable NAME_PROFILE (upper-cased name) |
| Application.DevModeFromEnv | pkg/app/application.go:195-197 | the variable set to "DEV" gives profile "dev" |
| Application.Application.constructor | pkg/app/application.go:134-147 | a new application is active, not restarting, not done and has no error |
| Application.Application.Active | pkg/app/application.go:233-235 | active exactly while shutdown has not begun |
| Application.Application.Restarting | pkg/app/application.go:246-248 | the restart flag of the latest `Shutdown` |
| Application.Application.Done | pkg/app/application.go:258-260 | whether the done channel is closed |
| Application.Application.Err | pkg/app/application.go:262-264 | no error before shutdown, "application shutting down" after |
| Application.Application.Shutdown | pkg/app/application.go:237-244 | records the restart flag, ends `Active`, closes the done channel exactly once however often it is called, and sets the error; the consistency invariant is kept |
| Application.Application.PostConstruct | pkg/app/application.go:163-199 | no `os.Args` is the recovered index panic; a failing `filepath.Abs` is returned; otherwise the executable, its directory, the application directory, the profile and dev mode (profile == "dev") are set |
| ApplicationFlags.PropertyArgsShape | pkg/app/application_flags.go:81-85 | the property arguments alternate "-p" and the values, two per value, in order |
| ApplicationFlags.NonEmptyKeysStep | pkg/app/application_flags.go:81-83 | one more key adds its entry to the non-empty-key overrides, the empty key adds nothing |
| ApplicationFlags.PropertyArgsSnoc | pkg/app/application_flags.go:84 | one more value appends one "-p" pair at the end |
| ApplicationFlags.PropertyArgsStep | pkg/app/application_flags.go:81-85 | visiting one more key appends `"-p", "k=v"` for a non-empty key and nothing for the empty key |
| ApplicationFlags.ParsedPropertyValues | pkg/app/application_flags.go:49-85 | re-parsing the emitted `k=v` values with `Set` restores exactly the overrides with a non-empty key, since stored keys hold no '=' |
| ApplicationFlags.ServerArgsRoundTrip | pkg/app/application_flags.go:45-88 | the property values a restarted server receives, set again on fresh flags, give back every override with a non-empty key |
| ApplicationFlags.ApplicationFlags.constructor | pkg/app/application_flags.go:58-63 | new flags have the priority, no registered daemon or verbose flag and an empty property map |
| ApplicationFlags.ApplicationFlags.Set | pkg/app/application_flags.go:45-56 | never fails; creates a nil map first; stores the text before the first '=' mapped to the text after it (a value may hold more '='), or the whole text mapped to ""; overwrites an earlier value; stored keys keep holding no '=' |
| ApplicationFlags.ApplicationFlags.RegisterFlags | pkg/app/application_flags.go:69-73 | after registration the daemon and verbose flags hold the parsed values |
| ApplicationFlags.ApplicationFlags.Daemon | pkg/app/application_flags.go:90-95 | true only when the flag is registered and set; false before registration |
| ApplicationFlags.ApplicationFlags.Verbose | pkg/app/application_flags.go:97-102 | true only when the flag is registered and set; false before registration |
| ApplicationFlags.AppendPropertyArgs | pkg/app/application_flags.go:81-85 | the loop appends `"-p", "k=v"` for each non-empty key, in iteration order, after the arguments so far |
| ApplicationFlags.ApplicationFlags.RegisterServerArgs | pkg/app/application_flags.go:75-88 | the incoming arguments stay a prefix, "-v" follows iff verbose, then `"-p", "k=v"` for every non-empty key in the map's iteration order |
| ApplicationFlags.ApplicationFlags.GetProperty | pkg/app/application_flags.go:112-118 | found exactly when the map exists and holds the key, with its stored value; otherwise `("", false)` |
| AuthorizationMiddleware.BearerToken | pkg/server/authorization_middleware.go:121-145 | a token exists exactly when metadata exists, holds exactly one `authorization` value, that value starts with the case-sensitive "Bearer " and its trimmed rest is not empty; the token is that trimmed rest |
| AuthorizationMiddleware.BearerIsCaseSensitive | pkg/server/authorization_middleware.go:137-140 | a header starting with lower-case "bearer " gives no token |
| AuthorizationMiddleware.BearerTokenOfHeader | pkg/server/authorization_middleware.go:135-145 | "Bearer " followed by a non-empty trimmed token gives back that token |
| AuthorizationMiddleware.Authenticated | pkg/server/authorization_middleware.go:119-157 | a user results exactly when a bearer token exists, is not in the revocation set and the verifier accepts it; the user is the verifier's |
| AuthorizationMiddleware.RevokedTokenRefused | pkg/server/authorization_middleware.go:147-200 | a revoked token is refused whatever the verifier would answer |
| AuthorizationMiddleware.UserOf | pkg/server/authorization_middleware.go:159-171 | an attached user with empty name and zero expiry counts as none, any other attached user is returned, and without one the header is authenticated |
| AuthorizationMiddleware.DefaultClaims | pkg/server/authorization_middleware.go:88-96 | the bootstrap claims: the user name, roles USER and ADMIN, an empty context, expiry now + 356×24×3600 seconds (30758400) |
| AuthorizationMiddleware.DefaultAuthToken | pkg/server/authorization_middleware.go:76-99 | a secret decoding error, then a user lookup error, is returned; otherwise the bootstrap claims signed with the decoded key |
| AuthorizationMiddleware.AuthorizationMiddleware.constructor | pkg/server/authorization_middleware.go:45-47 | no revoked token and no secret key |
| AuthorizationMiddleware.AuthorizationMiddleware.PostConstruct | pkg/server/authorization_middleware.go:49-74 | a configured secret is only decoded and needs no store; without one a generated secret is persisted under `jwt.secret.key` before use, the secret line and the `export <NAME>_AUTH=<token>` line are written to standard output, each ending in a newline, and a generator, persistence or bootstrap-token error aborts startup without touching the key; a generator error prints nothing, a persistence or bootstrap-token error follows the secret line only |
| AuthorizationMiddleware.AuthorizationMiddleware.DoAuthenticate | pkg/server/authorization_middleware.go:119-157 | the gate's answer is the header check over its own revocation set and secret key |
| AuthorizationMiddleware.AuthorizationMiddleware.Authenticate | pkg/server/authorization_middleware.go:101-117 | never fails: attaches the authenticated user, or the anonymous user (empty name, zero expiry) on any failure, and keeps the metadata |
| AuthorizationMiddleware.AuthorizationMiddleware.GetUser | pkg/server/authorization_middleware.go:159-171 | the user of the context as `UserOf` defines it, under the gate's state |
| AuthorizationMiddleware.AuthorizationMiddleware.HasUserRole | pkg/server/authorization_middleware.go:173-179 | true exactly when there is a user, its role map is not nil and maps the role to true |
| AuthorizationMiddleware.AuthorizationMiddleware.UserContext | pkg/server/authorization_middleware.go:181-188 | found exactly when there is a user, its context map is not nil and holds the name; the entry's value, `""` otherwise |
| AuthorizationMiddleware.AuthorizationMiddleware.GenerateToken | pkg/server/authorization_middleware.go:190-192 | the signer's answer for the gate's secret key |
| AuthorizationMiddleware.AuthorizationMiddleware.ParseToken | pkg/server/authorization_middleware.go:194-196 | the verifier's answer, without consulting the revocation set |
| AuthorizationMiddleware.RevokedTokenStillParses | pkg/server/authorization_middleware.go:119-196 | a revoked token the verifier accepts still parses, while a request bearing it authenticates no one |
| AuthorizationMiddleware.GeneratedTokenAuthenticates | pkg/server/authorization_middleware.go:119-196 | a token the gate generates, under a verifier that inverts the signer and while unrevoked, parses to and authenticates as its user |
| AuthorizationMiddleware.AuthorizationMiddleware.InvalidateToken | pkg/server/authorization_middleware.go:198-200 | adds the token to the revocation set, nothing else |
| AuthorizationMiddleware.GetUserAfterAuthenticate | pkg/server/authorization_middleware.go:101-166 | after `Authenticate`, `GetUser` reports the authenticated user, and no user after a failure |
| AuthorizationMiddleware.AnonymousHasNoRole | pkg/server/authorization_middleware.go:106-179 | a request that failed authentication holds no role |
| AuthorizationMiddleware.BootstrapTokenIsAdmin | pkg/server/authorization_middleware.go:88-179 | the bootstrap token, sent as a bearer header and not revoked, authenticates as ADMIN when the verifier accepts what the signer made |
| AutodiscService.AutodiscService.constructor | pkg/core/nat/autodisc_service.go:34-36 | discovery has not run yet |
| AutodiscService.AutodiscService.Wait | pkg/core/nat/autodisc_service.go:76-86 | discovery runs at most once, on the first call; later calls keep what it found; no service gives "no <what> router discovered" on every call |
| AutodiscService.AutodiscService.AllowMapping | pkg/core/nat/autodisc_service.go:38-43 | after discovery, false without a service and the service's answer with one |
| AutodiscService.AutodiscService.AddMapping | pkg/core/nat/autodisc_service.go:45-50 | after discovery, the not-discovered error without a service, else the service's answer for the same mapping |
| AutodiscService.AutodiscService.DeleteMapping | pkg/core/nat/autodisc_service.go:52-57 | after discovery, the not-discovered error without a service, else the service's answer for the same arguments |
| AutodiscService.AutodiscService.ExternalIp | pkg/core/nat/autodisc_service.go:59-64 | after discovery, the not-discovered error without a service, else the service's address or error |
| AutodiscService.AutodiscService.ServiceName | pkg/core/nat/autodisc_service.go:66-73 | `what` until a service has been found, the service's name afterwards; it reads the state and does not run discovery |
| Dispatch.PlainError | pkg/cmd/utils.go:46-49 | an error that is not a gRPC status (such as a wrong client count) has code Unknown, never Unavailable, and keeps its text |
| Dispatch.PlainErrorNeverFallsBack | pkg/cmd/config_cmd.go:89-94 | such an error never leads to local execution |
| CertCmd.Run | pkg/cmd/cert_cmd.go:46-81 | no arguments is an error with the description; remote success prints the content and returns no error; a remote error other than Unavailable is returned as-is; on Unavailable "manager" fails with "available only on running server" and every other command runs locally with the same arguments |
| CertCmd.ManagerNeverLocal | pkg/cmd/cert_cmd.go:67-69 | "manager" never runs locally, whatever the server answers |
| StorageCmd.Run | pkg/cmd/storage_cmd.go:46-88 | no arguments is the description as an error; remote success ends with no local call; a remote error other than Unavailable is returned as-is; on Unavailable the same command runs locally; the console prints by itself and other commands print their content; it succeeds exactly when the remote call, or after Unavailable the local one, succeeds |
| StorageCmd.LocalOnlyWhenUnavailable | pkg/cmd/storage_cmd.go:67-75 | a local call happens only after the server answered Unavailable, and with the same command and arguments |
| ServerCommon.ServeResult | pkg/server/grpc_server.go:120-123 | a serve error whose text contains "closed" becomes success; any other error is returned unchanged |
| ServerCommon.ClosedListenerIsSuccess | pkg/server/http_server.go:107-110 | the error of serving on a closed listener counts as success |
| Tls.ParseClientAuth | pkg/util/tls.go:21-36 | the four names map to the client-auth modes of the same name, "verify_client_cert" maps to VerifyClientCertIfGiven, and every other string to NoClientCert; total |
| Tls.ParseClientAuthRoundTrip | pkg/util/tls.go:21-36 | each mode's configuration name parses back to it, and a name that parses to a mode other than NoClientCert is that mode's name |
| Domains.ToFqdn | pkg/util/domains.go:33-39 | "" stays "", a name ending in "." is unchanged, any other name gets "." appended |
| Domains.UnFqdn | pkg/util/domains.go:42-48 | exactly one trailing "." is removed if present; otherwise the name is unchanged |
| Domains.ToFqdnIdempotent | pkg/util/domains.go:33-39 | applying `ToFqdn` twice is applying it once |
| Domains.UnFqdnOfToFqdn | pkg/util/domains.go:33-48 | `UnFqdn(ToFqdn(n)) == n` for every name not ending in "." |
| Domains.ToFqdnOfUnFqdn | pkg/util/domains.go:33-48 | `ToFqdn(UnFqdn(n)) == n` for a name ending in exactly one "." |
| ServerCommon.ServeOutcome | pkg/server/grpc_server.go:100-124 | a serve loop that returns gives `ServeResult` of its error; a panic is recovered into its own text and returned as-is, even when it mentions "closed" |
| CmdUtils.ClientScannerCheck | pkg/cmd/utils.go:46-49 | succeeds exactly with one client scanner; otherwise the error names the count found |
| CmdUtils.ControlClientCheck | pkg/cmd/utils.go:69-72 | succeeds exactly with one control client; otherwise the error names the count found |
| CmdUtils.CoreScannerCheck | pkg/cmd/utils.go:252-255 | succeeds exactly with one core scanner; otherwise the error names the count found |
| CmdUtils.CoreScannerCheckNamesCount | pkg/cmd/utils.go:252-255 | the count can be parsed back from the error message |
| CmdUtils.DoInCore | pkg/cmd/utils.go:250-269 | the scanner count check first, then a failed core context as "failed to create core context, …", then the injection error, then the callback's error |
| CmdUtils.BoundIndices | pkg/cmd/utils.go:187-194 | exactly the servers whose `Bind` succeeded, in their original order |
| CmdUtils.BindAll | pkg/cmd/utils.go:187-194 | the loop keeps exactly the servers that bound, in order |
| CmdUtils.StopAt | pkg/cmd/utils.go:212-231 | the first signal that stops the servers: SIGINT, SIGTERM, the application's done, or SIGHUP without lumberjack loggers; none if no such signal arrives |
| CmdUtils.StopAtFirst | pkg/cmd/utils.go:212-231 | the wait loop's exit position is the one `StopAt` names |
| CmdUtils.WaitForStop | pkg/cmd/utils.go:212-228 | the wait loop ends at the first stopping signal; each SIGHUP before it rotates every lumberjack logger and resumes waiting |
| CmdUtils.StopAll | pkg/cmd/utils.go:233-238 | every bound server is stopped once, in order |
| CmdUtils.FirstError | pkg/cmd/utils.go:199-245 | the error group reports the first serve error, and none when every server ended cleanly |
| CmdUtils.ServeErrors | pkg/cmd/utils.go:199-202 | one outcome per bound server, in order: how its `Serve` ended by itself (a returned error through the closed-listener rule, or a recovered panic's text), else what it returns once stopped |
| CmdUtils.RunServers | pkg/cmd/utils.go:163-248 | an empty server list is an error and nothing else happens; otherwise only bound servers are served and stopped; zero bound servers is no error; a stopping signal stops every bound server once, SIGHUP without lumberjack loggers first calls `Shutdown(true)`, other signals leave the application untouched; the call returns exactly when a stopping signal arrived or every bound server's `Serve` ended by itself (so at once when nothing bound), with the first serve error; without a stopping signal no server is stopped |
| CmdUtils.CreateContexts | pkg/cmd/utils.go:111-121 | a context is created for each scanner up to the first failing one |
| CmdUtils.CloseContexts | pkg/cmd/utils.go:94-98 | every created context is closed, in order, and its close errors are collected after the earlier ones |
| CmdUtils.DoWithServers | pkg/cmd/utils.go:83-160 | no scanner is an error; contexts are created up to the first failure (exactly contexts 0 … i-1 when scanner i fails, all of them otherwise) and every created context is closed; a recovered panic and the close errors, if any, replace the body's error with their list; otherwise the body's error stands |
| CmdUtils.Iota | pkg/cmd/utils.go:111-121 | the positions 0 … n-1 of the created contexts |
| CmdUtils.FirstFailure | pkg/cmd/utils.go:116-119 | the position of the first failing scanner, or none when all succeed |
| CmdUtils.FirstFailureAt | pkg/cmd/utils.go:111-121 | a position after only successes, at a failure or the end, is `FirstFailure` |
| CmdUtils.CloseErrorsSnoc | pkg/cmd/utils.go:94-98 | closing one more context appends its error, if any, at the end |
| CmdUtils.CleanCloseNoErrors | pkg/cmd/utils.go:94-102 | contexts that close cleanly add no error to the result |
| ConfigCmd.RouteOf | pkg/cmd/config_cmd.go:55-73 | no arguments or an unknown sub-command is an error; "get" and "set" go to their handlers and both "dump" and "list" to the dump, each with the remaining arguments |
| ConfigCmd.LimitOf | pkg/cmd/config_cmd.go:174-184 | the limit is unbounded (MaxInt64) for "dump" and 80 for "list"; a second argument overrides it, and a non-numeric one is a "parsing limit" error |
| ConfigCmd.LimitArgumentWins | pkg/cmd/config_cmd.go:179-184 | any int64 written as the limit argument is the limit used, for either sub-command |
| ConfigCmd.TruncatedShape | pkg/cmd/config_cmd.go:189-192 | a value within the limit is shown unchanged; a longer one is its first `limit` characters with newlines replaced by spaces, followed by "...", on one line |
| ConfigCmd.DumpLines | pkg/cmd/config_cmd.go:188-195 | one line `"key: value\n"` per entry, in enumeration order, with the value truncated |
| ConfigCmd.DumpPrintsWholeValues | pkg/cmd/config_cmd.go:174-193 | "dump" without a limit prints every value whole |
| ConfigCmd.LocalDump | pkg/cmd/config_cmd.go:166-197 | a limit parse error, the core context's error or the store's error ends the dump with nothing written; a negative limit panics at the first entry; otherwise the lines of the entries under the prefix |
| ConfigCmd.DumpFromStorage | pkg/cmd/config_cmd.go:166-197 | the local dump writes exactly what `LocalDump` describes |
| ConfigCmd.WriteEntries | pkg/cmd/config_cmd.go:188-195 | the enumeration callback writes the dump lines of the visited entries, in order |
| ConfigCmd.AcceptAll | pkg/cmd/config_cmd.go:194 | a callback that always answers true visits every entry |
| ConfigCmd.DumpLinesUnderPrefix | pkg/cmd/config_cmd.go:168-193 | every line of a dump is for a stored key under the first argument as prefix, with its stored value |
| ConfigCmd.GetConfig | pkg/cmd/config_cmd.go:78-206 | no key fails before any remote call; the remote answer is printed; only an Unavailable error reads the local repository, any other error is returned unchanged; error, calls and output are exactly those of `GetOutcome` |
| ConfigCmd.SetValue | pkg/cmd/config_cmd.go:107-134 | the value is the second argument or the prompted one; a value starting with "@" is replaced by the named file's contents, or an i/o error naming the file |
| ConfigCmd.FileValueRead | pkg/cmd/config_cmd.go:127-134 | a value not starting with "@" is written as given; "@path" is replaced by the file's contents or fails |
| ConfigCmd.SetConfig | pkg/cmd/config_cmd.go:99-213 | no key fails before any remote call; a failed prompt or file read fails before any call; the remote "set" is tried first; only on Unavailable the error is printed and the key is written to the local repository; "SUCCESS" is printed on success; error, calls, output and the new backend are exactly those of `SetOutcome` |
| ConfigCmd.DumpConfig | pkg/cmd/config_cmd.go:152-164 | the remote dump is printed on success; an error other than Unavailable is returned unchanged; on Unavailable the local dump runs; error, calls, output and panic are exactly those of `DumpOutcome` |
| ConfigCmd.Run | pkg/cmd/config_cmd.go:55-76 | a refused route makes no call; only "set" changes the repository; the first call is always remote with the sub-command's name, and a local call only follows an Unavailable answer; on the get, set and dump routes error, calls, output, panic and the new backend are those of `GetOutcome`, `SetOutcome` and `DumpOutcome` on the arguments after the sub-command |
| ConfigRepository.BackingKey | pkg/core/config_repository.go:99-132 | the backing key starts with "config:" and the rest is the key itself |
| ConfigRepository.BackingKeyInjective | pkg/core/config_repository.go:99-132 | distinct configuration keys never share a backing key |
| ConfigRepository.Write | pkg/core/config_repository.go:128-134 | after `doSet` the key reads as the new value, every other key is unchanged, and the empty value removes the backing key |
| ConfigRepository.Property | pkg/core/config_repository.go:74-83 | found exactly when a store is wired, the repository is not shutting down, the read succeeds and the value is not empty; the value then, `""` otherwise |
| ConfigRepository.UntilRefused | pkg/core/config_repository.go:111-114 | the callback sees a prefix of the entries and every entry before the last one seen was accepted |
| ConfigRepository.ListingSound | pkg/core/config_repository.go:106-115 | every enumerated entry lies under the prefix, with "config:" stripped, and carries the stored value |
| ConfigRepository.ListingComplete | pkg/core/config_repository.go:106-115 | every stored key under the prefix is enumerated with its value |
| ConfigRepository.UntilRefusedCons | pkg/core/config_repository.go:111-114 | the callback's view of one more entry followed by the rest: it stops at a refused entry |
| ConfigRepository.ListingStep | pkg/core/config_repository.go:109-113 | one backing key contributes its stripped entry when it lies under the prefix, and nothing otherwise |
| ConfigRepository.NoWatchesBeforeFirst | pkg/core/config_repository.go:87-151 | while the counter is 0 the registry is empty, so skipping the fan-out or the cancellation loses nothing |
| ConfigRepository.Repository.constructor | pkg/core/config_repository.go:60-64 | no store, counter 0, no watch, not shutting down |
| ConfigRepository.Repository.SetBackend | pkg/core/config_repository.go:217-221 | the repository then uses the given store |
| ConfigRepository.Repository.GetProperty | pkg/core/config_repository.go:74-83 | the answer `Property` gives for the current state |
| ConfigRepository.Repository.Get | pkg/core/config_repository.go:98-104 | reads backing key "config:"+key: the store's error, or the stored value (a missing key reads as "") |
| ConfigRepository.Repository.DoSet | pkg/core/config_repository.go:128-134 | a store error changes nothing; otherwise "config:"+key is written, or removed for the empty value |
| ConfigRepository.Repository.Set | pkg/core/config_repository.go:117-126 | a failed write returns the error and notifies nobody; otherwise the store is written and exactly the watches whose prefix starts the key are notified |
| ConfigRepository.Repository.NotifyAll | pkg/core/config_repository.go:136-145 | the change is delivered to exactly the registered watches whose prefix starts its key |
| ConfigRepository.SubscribersExact | pkg/core/config_repository.go:136-145 | a watch is notified of a change iff it is registered and its prefix starts the key |
| ConfigRepository.Repository.RegisterWatch | pkg/core/config_repository.go:147-151 | the handle is the incremented counter, above every earlier handle and new to the registry; the registry gains exactly that watch; the counter never decreases |
| ConfigRepository.FreshHandleAboveAll | pkg/core/config_repository.go:147-151 | the next handle exceeds every registered one |
| ConfigRepository.Repository.UnregisterWatch | pkg/core/config_repository.go:153-155 | exactly that handle leaves the registry |
| ConfigRepository.Repository.Watch | pkg/core/config_repository.go:158-209 | registers under a fresh handle; the loop hands the changes to the callback and unregisters the watch when the callback returns false or the context is cancelled; otherwise the watch stays |
| ConfigRepository.WatchLoop | pkg/core/config_repository.go:192-204 | the loop never hands over more changes than arrive |
| ConfigRepository.WatchLoopEnds | pkg/core/config_repository.go:192-204 | the loop ends iff some event is a cancellation or a refused change |
| ConfigRepository.Repository.Destroy | pkg/core/config_repository.go:85-96 | sets shutting-down, so `GetProperty` reports false from then on, and cancels every registered watch, whose loops unregister them |
| ConfigRepository.Repository.EnumerateAll | pkg/core/config_repository.go:106-115 | a store error visits nothing; otherwise the callback sees, in key order, the entries under "config:"+prefix with the namespace stripped, up to and including the first it refuses |
| ControlClient.Insert | pkg/client/control_client.go:68 | inserting a key adds exactly that key to the collection |
| ControlClient.InsertBounded | pkg/client/control_client.go:68 | inserting keeps every element above a common lower bound |
| ControlClient.SortedTail | pkg/client/control_client.go:68 | the tail of a sorted list is sorted |
| ControlClient.InsertSorted | pkg/client/control_client.go:68 | insertion into a sorted list keeps it sorted |
| ControlClient.SortKeysSortedPermutation | pkg/client/control_client.go:64-68 | the sorted keys are in ascending order and are a permutation of the keys collected |
| ControlClient.SortedHeadLeast | pkg/client/control_client.go:68 | the head of a sorted list is its least element |
| ControlClient.MultisetTail | pkg/client/control_client.go:68 | removing the head removes exactly one copy of it |
| ControlClient.SortedUnique | pkg/client/control_client.go:68 | two sorted permutations of the same keys are equal, so the order is unique |
| ControlClient.SortStrings | pkg/client/control_client.go:64-68 | the loop produces the sorted keys |
| ControlClient.StatusOrderIndependent | pkg/client/control_client.go:64-72 | the status text does not depend on the map's iteration order |
| ControlClient.StatusKeysExactlyOnce | pkg/client/control_client.go:64-72 | every stat key appears exactly once, in ascending order |
| ControlClient.DistinctCount | pkg/client/control_client.go:65-67 | a list without repeats holds each element once |
| ControlClient.ControlClient.Status | pkg/client/control_client.go:56-77 | an RPC error gives "" and the error; otherwise one line `"key: value\n"` per stat, in ascending key order |
| ControlClient.NodeCommand | pkg/client/control_client.go:83-87 | restart sends "restart", otherwise "shutdown" |
| ControlClient.Command | pkg/client/control_client.go:96-151 | the wrappers pass command and arguments through; an RPC error gives "" and the error, otherwise the content |
| ControlClient.ShutdownCommands | pkg/client/control_client.go:79-94 | `Shutdown(true)` is the node command "restart" and `Shutdown(false)` the node command "shutdown", with no arguments |
| ControlClient.Classify | pkg/client/control_client.go:176-183 | status 100 signals ready, 200 writes the content and "\n" to the writer, anything else writes `"error: code N, content\n"` to the error writer |
| ControlClient.Receive | pkg/client/control_client.go:163-185 | the receiver writes the classified output of every response, in order, then the receive error line if the stream failed, and signals ready once per status 100 |
| ControlClient.Readies | pkg/client/control_client.go:177-178 | only status 100 responses signal readiness |
| ControlClient.Queries | pkg/client/control_client.go:187-194 | the queries sent are the non-empty lines before "exit", never "" or "exit" |
| ControlClient.QueriesStep | pkg/client/control_client.go:187-194 | one more line: "exit" ends, "" is skipped, any other line is a query |
| ControlClient.ConsoleStep | pkg/client/control_client.go:187-206 | one iteration of the query loop: skip, exit, send failure, or send and wait |
| ControlClient.ConsoleSendsQueries | pkg/client/control_client.go:187-206 | the console sends a prefix of the queries, and writes at most one error line, that of the send that failed |
| ControlClient.ConsoleSendsAll | pkg/client/control_client.go:187-206 | without send errors and with the receiver alive, every query is sent and no error is written |
| ControlClient.StorageConsole | pkg/client/control_client.go:154-210 | a stream error is returned before anything is sent; otherwise the query loop runs as `Console` describes and the console returns no error |
| ControlClient.ControlClient.constructor | pkg/client/control_client.go:29-37 | a client with or without a connection, not yet destroyed |
| ControlClient.ControlClient.Destroy | pkg/client/control_client.go:47-54 | the connection is closed at most once, returning its close error the first time and nothing afterwards |
| GrpcServer.GrpcServer.constructor | pkg/server/grpc_server.go:45-47 | a new server keeps its bean name, has no listen address and no listener, is not running and has had no effects |
| GrpcServer.GrpcServer.PostConstruct | pkg/server/grpc_server.go:49-52 | clears `running` and never fails |
| GrpcServer.GrpcServer.Bind | pkg/server/grpc_server.go:54-72 | reads `<bean>.listen-address`; an empty address fails with "property '<bean>.listen-address' not found in server context" and leaves the listener alone; a listen error is returned as-is with no listener; otherwise the listener is bound at that address and wrapped in TLS exactly when a TLS configuration is injected |
| GrpcServer.GrpcServer.Active | pkg/server/grpc_server.go:74-76 | active exactly while `running` is set |
| GrpcServer.GrpcServer.ListenAddress | pkg/server/grpc_server.go:78-84 | the listener's address, or `EmptyAddr` when there is no listener |
| GrpcServer.GrpcServer.Stop | pkg/server/grpc_server.go:86-93 | only a running server is stopped: `running` is cleared, the listener (if any) is closed and then the server stopped; on a server that is not running it changes nothing, so a second call is a no-op |
| GrpcServer.GrpcServer.Destroy | pkg/server/grpc_server.go:95-98 | does what `Stop` does and returns no error |
| GrpcServer.GrpcServer.Serve | pkg/server/grpc_server.go:100-124 | serves with `running` set; a returning serve loop leaves `running` cleared and its error mapped by `ServeResult`; a panic is returned as an error text and leaves `running` as `Stop` left it; a `Stop` during serving closes the listener and stops the server once |
| HttpServer.HttpServer.constructor | pkg/server/http_server.go:37-39 | a new server keeps its address and TLS setting, has no listener, is not running and has had no effects |
| HttpServer.HttpServer.PostConstruct | pkg/server/http_server.go:41-44 | clears `running` and never fails |
| HttpServer.HttpServer.Bind | pkg/server/http_server.go:46-54 | listens on the server's own address; a failure leaves no listener and is reported as "can not bind to port '<addr>', <error>"; success records the bound address |
| HttpServer.HttpServer.Active | pkg/server/http_server.go:56-58 | active exactly while `running` is set |
| HttpServer.HttpServer.ListenAddress | pkg/server/http_server.go:60-66 | the listener's address, or `EmptyAddr` before a successful bind |
| HttpServer.HttpServer.Stop | pkg/server/http_server.go:68-75 | only a running server is stopped: `running` is cleared, the listener (if any) closed, then the server closed; otherwise nothing changes |
| HttpServer.HttpServer.Destroy | pkg/server/http_server.go:77-80 | does what `Stop` does and returns no error |
| HttpServer.HttpServer.Serve | pkg/server/http_server.go:82-111 | serves over TLS exactly when the server has a TLS configuration; a returning serve loop leaves `running` cleared and its error mapped by `ServeResult`; a panic is returned as an error text and skips both the clearing and the "closed" check |
| GrpcClientFactory.GetConnectAddress | pkg/client/grpc_client_factory.go:85-93 | the wildcard host "0.0.0.0:" and an empty host ":" are rewritten to the loopback "127.0.0.1" with the port kept; every other address is kept unchanged |
| GrpcClientFactory.WildcardKeepsPort | pkg/client/grpc_client_factory.go:86-88 | "0.0.0.0:P" connects to "127.0.0.1:P" for every port text P |
| GrpcClientFactory.EmptyHostKeepsPort | pkg/client/grpc_client_factory.go:89-91 | ":P" connects to "127.0.0.1:P" for every port text P |
| GrpcClientFactory.ConnectAddressIdempotent | pkg/client/grpc_client_factory.go:85-93 | rewriting an already rewritten address changes nothing |
| GrpcClientFactory.ConnectAddress | pkg/client/grpc_client_factory.go:59-68 | an explicit "<bean>.connect-address" wins; otherwise the rewritten "control-grpc-server.listen-address"; it fails exactly when both properties are empty |
| GrpcClientFactory.DialOptions | pkg/client/grpc_client_factory.go:95-114 | TLS credentials exactly when a TLS configuration is injected, an insecure transport otherwise; a receive-size limit exactly when the size is non-zero; the bearer token exactly when "application.auth" is set; nothing else |
| GrpcClientFactory.Object | pkg/client/grpc_client_factory.go:44-71 | dials the resolved address with the selected options, or returns the resolution error |
| JobService.IndexOf | pkg/core/job_service.go:63-70 | the position of the first job with the name, with no earlier job of that name, or -1 exactly when no job has it |
| JobService.RemoveAtMultiset | pkg/core/job_service.go:65 | removing a position takes exactly that one job out of the registry and keeps every other |
| JobService.CancelNames | pkg/core/job_service.go:59-71 | after a cancel the names are the earlier names with the first occurrence of the name taken out, the rest in order |
| JobService.AddThenCancel | pkg/core/job_service.go:51-71 | adding a job whose name is new and cancelling that name gives back the earlier registry |
| JobService.JobService.constructor | pkg/core/job_service.go:35-37 | a new registry is empty |
| JobService.JobService.ListJobs | pkg/core/job_service.go:39-49 | the names of all jobs, in registration order |
| JobService.JobService.AddJob | pkg/core/job_service.go:51-57 | appends the job, so jobs of the same name may coexist, and never fails |
| JobService.JobService.CancelJob | pkg/core/job_service.go:59-71 | removes only the first job with the name; an unknown name is "job not found" and changes nothing |
| JobService.JobService.FindJob | pkg/core/job_service.go:96-107 | the first job with the name, or "job not found" |
| JobService.JobService.RunJob | pkg/core/job_service.go:73-94 | runs the first job with the name and returns its error (a recovered panic included); an unknown name is "job not found" |
| JobService.JobService.ExecuteCommand | pkg/core/job_service.go:110-150 | "list" answers the names joined by newlines; "run" answers "OK" (or its usage without a name) and changes nothing; "cancel" answers its usage without a name, "OK" after removing the first job of the name, or "cancel of job '<name>' was failed, job not found"; any other command is "unknown job command '<cmd>'" |
| JobService.ListAnswerSplits | pkg/core/job_service.go:113-118 | splitting the "list" answer at newlines gives back the names, when there are jobs and no name contains a newline |
| NetlifyProvider.Detect | pkg/core/dns/netlify/netlify_provider.go:39-46 | true exactly when some name server of the whois record, lower-cased, ends with ".nsone.net" |
| NetlifyProvider.DetectAppend | pkg/core/dns/netlify/netlify_provider.go:39-46 | detection over two lists of name servers together is detection over either, so a Netlify server is found wherever it stands |
| NetlifyProvider.ChallengeToken | pkg/core/dns/netlify/netlify_provider.go:55-65 | the given token, else property "netlify.token", else NETLIFY_TOKEN from the environment; none of them gives no token |
| NetlifyProvider.RegisterChallenge | pkg/core/dns/netlify/netlify_provider.go:48-76 | a client that is not a lego client is refused before any token lookup; no token is "netlify token not found"; otherwise the outcome of building and installing the DNS-01 provider with the token |
| NetlifyProvider.NewClient | pkg/core/dns/netlify/netlify_provider.go:79-92 | the API client gets property "netlify.token", else NETLIFY_TOKEN; with neither it fails with "netlify.token is empty in config and empty system env NETLIFY_TOKEN" |
| NetlifyProvider.ClientAndChallengeAgree | pkg/core/dns/netlify/netlify_provider.go:55-92 | without an explicit token the API client and the challenge use the same token and fail together |
| NodeService.Step | pkg/core/node_service.go:118-137 | one issue records the tick; within the tick last seen the counter goes up by one (int32 wrap-around) and becomes the id's clock sequence; on a new tick the counter resets to 0 and the id keeps the library's clock sequence |
| NodeService.ClockSequences | pkg/core/node_service.go:112-141 | a run of issues yields one clock sequence per issued id |
| NodeService.SameTickCounts | pkg/core/node_service.go:122-124 | ids issued within one tick from counter c get clock sequences c+1, c+2, … while the int32 counter does not overflow |
| NodeService.AfterResetCounts | pkg/core/node_service.go:122-129 | after a new tick resets the counter, the first id keeps the library's clock sequence and the following ids in the same tick get 1, 2, 3, … |
| NodeService.BackwardsTickLowers | pkg/core/node_service.go:127-129 | a tick earlier than the last one is stored as it is and resets the counter |
| NodeService.Millis | pkg/core/node_service.go:143-145 | the whole milliseconds of a non-negative 100-nanosecond time |
| NodeService.NodeService.constructor | pkg/core/node_service.go:49-51 | a new service has no node id and a zero issuing state |
| NodeService.NodeService.PostConstruct | pkg/core/node_service.go:74-102 | a configured "node.id" is parsed and the store is left alone; otherwise a generated id is stored under "node.id" and parsed; a generator error is "generate node id, …", a store error "set property 'node.id' with value '<id>', …", a missing store the recovered nil dereference, each leaving the node id unchanged |
| NodeService.NodeService.NodeId | pkg/core/node_service.go:104-106 | the parsed node id |
| NodeService.NodeService.NodeIdHex | pkg/core/node_service.go:108-110 | the node id's hex text |
| NodeService.NodeService.Issue | pkg/core/node_service.go:112-141 | the id carries the tick, the low 48 bits of the node id converted to int64 and the low 14 bits of the clock sequence `Step` chooses; the service state advances as `Step` says |
| NodeService.ParseIssued | pkg/core/node_service.go:143-145 | parsing an issued id gives back its millisecond time, the low 48 bits of the issuing node and the low 14 bits of the clock sequence chosen by `Issue`; a node id below 2^48 and a same-tick counter below 2^14 come back whole |
| NodeService.SameTickIdsCollide | pkg/core/node_service.go:122-124 | the first id and the 16385th id issued within one tick carry the same 14-bit clock sequence |
| Prompt.Trims | pkg/util/prompt.go:35-43 | one trimmed line per line read |
| Prompt.TrimsAt | pkg/util/prompt.go:43 | each trimmed line is its own line with surrounding white space removed |
| Prompt.FirstClosing | pkg/util/prompt.go:44-49 | the first trimmed line that ends with the terminator, with no earlier one ending with it |
| Prompt.BlockIsJoin | pkg/util/prompt.go:37-49 | once the first line is not blank, the builder holds the lines joined by newlines |
| Prompt.BlockSkipsLeadingBlank | pkg/util/prompt.go:40-42 | a blank line at the head of a block leaves no trace, because the newline is written only into a non-empty builder |
| Prompt.ReadBlock | pkg/util/prompt.go:38-50 | reads up to the first line that, trimmed, ends with the terminator, and returns the trimmed lines before it written one by one, then that line without its terminator |
| Prompt.Prompt | pkg/util/prompt.go:31-54 | the trimmed first line, or after a `"""` line the block up to the line ending with `"""` |
| Prompt.PromptQuery | pkg/util/prompt.go:56-73 | the block up to the first line ending with ';', without the ';' |
| Prompt.PromptOneLine | pkg/util/prompt.go:44-46 | a single block line `text"""` gives `text` |
| Prompt.BlockTextOfLines | pkg/util/prompt.go:37-49 | lines that are not blank, closed by a bare terminator line, give the lines joined by newlines plus one final newline |
| Prompt.FirstEnd | pkg/util/prompt.go:94-96 | the first line that starts with "-----END " |
| Prompt.PromptPem | pkg/util/prompt.go:81-101 | a first line without "-----BEGIN " is returned with "pem must start from '-----BEGIN '"; otherwise the untrimmed lines up to and including the first END line, joined by newlines |
| Prompt.BeginIsNotEnd | pkg/util/prompt.go:75-79 | a BEGIN line never also starts with the END boundary |
| Prompt.PemBlockShape | pkg/util/prompt.go:81-101 | the PEM text starts with the BEGIN line and ends with the END line, which comes after it |
| Prompt.JoinEnds | pkg/util/prompt.go:85-99 | a newline join of lines starts with the first line and ends with the last |
| RedirectHttpsPage.Hostname | pkg/server/redirect_https_page.go:72 | the request host up to its first ':', which holds no ':' and is followed by ':' when shorter than the host |
| RedirectHttpsPage.Suffix | pkg/server/redirect_https_page.go:50-55 | the redirect address from its first ':' on (the port part), or empty when it has no ':' |
| RedirectHttpsPage.RedirectUrlOfHost | pkg/server/redirect_https_page.go:72-73 | a request for "h:p" or for "h" is sent to "https://h" with the configured port and the same URI, whatever its own port |
| RedirectHttpsPage.RedirectHttpsPage.constructor | pkg/server/redirect_https_page.go:34-38 | a new page keeps its bean name and has no redirect address or suffix |
| RedirectHttpsPage.RedirectHttpsPage.PostConstruct | pkg/server/redirect_https_page.go:44-58 | reads "<bean>.redirect-address"; empty is "property '<bean>.redirect-address' is not found in context"; otherwise its port part becomes the suffix |
| RedirectHttpsPage.RedirectHttpsPage.Pattern | pkg/server/redirect_https_page.go:60-62 | the page serves every path, "/" |
| RedirectHttpsPage.RedirectHttpsPage.ServeHttp | pkg/server/redirect_https_page.go:64-75 | every request gets 301 Moved Permanently to the HTTPS URL of its host name with the configured port and the same URI |
| ResourceService.FindWord | pkg/app/resource_service.go:147-153 | true exactly when some word occurs in the line |
| ResourceService.FilterLines | pkg/app/resource_service.go:142-161 | the content split at newlines, keeping exactly the lines that mention none of the words, each followed by a newline |
| ResourceService.WriteKept | pkg/app/resource_service.go:146-158 | writes every kept line followed by a newline, in order |
| ResourceService.KeptExactly | pkg/app/resource_service.go:147-157 | no kept line mentions a word, and every line mentioning none is kept |
| ResourceService.KeptAppend | pkg/app/resource_service.go:146-158 | filtering keeps order: the kept lines of two blocks are those of the first followed by those of the second |
| ResourceService.TerminatedJoin | pkg/app/resource_service.go:155-156 | writing each line with a newline is joining the lines with one final empty line |
| ResourceService.FilterOutputSplits | pkg/app/resource_service.go:142-161 | splitting the filter's output at newlines again gives the kept lines and one empty piece after the last newline |
| ResourceService.KeptLinesOfPieces | pkg/app/resource_service.go:146 | kept lines are pieces of the input, so they hold no newline |
| ResourceService.SplitLastEmpty | pkg/app/resource_service.go:146 | content ending in the separator splits into pieces whose last one is empty |
| ResourceService.ExtraEmptyLine | pkg/app/resource_service.go:146-158 | input ending in a newline gives an output whose last kept line is empty, so the output ends in two newlines, when no word is empty |
| ResourceService.Resource | pkg/app/resource_service.go:41-68 | an unknown name is "resource not found '<name>'"; a known one gives its content or the error of opening or reading it |
| ResourceService.OpenAPIAppend | pkg/app/resource_service.go:123-140 | the documents of two lists of resource sources follow each other in order |
| ResourceService.OpenAPIIgnoresOtherSources | pkg/app/resource_service.go:126-129 | a resource source with another name contributes nothing, wherever it stands |
| ResourceService.SwaggerSkips | pkg/app/resource_service.go:130-135 | an asset that is not a ".swagger.json" file, or that cannot be read, adds nothing |
| ResourceService.ResourceService.constructor | pkg/app/resource_service.go:37-39 | a new service has empty template caches, which are trivially valid |
| ResourceService.ResourceService.GetResource | pkg/app/resource_service.go:41-68 | the resource's content or error as the bundle holds it; an unknown name is "resource not found '<name>'" |
| ResourceService.ResourceService.TextTemplate | pkg/app/resource_service.go:70-87 | a cached template is returned as it is; otherwise the resource is parsed and cached only on success; a read or parse error is returned and nothing is cached; every cached template stays the parse of its resource |
| ResourceService.ResourceService.HtmlTemplate | pkg/app/resource_service.go:89-106 | the same cache discipline for HTML templates, on their own cache |
| ResourceService.ResourceService.GetLicenses | pkg/app/resource_service.go:108-121 | a missing or unreadable resource is its error with empty output; with "application.package" set the lines naming the package are filtered out; otherwise the text is returned unchanged |
| ResourceService.ResourceService.GetOpenAPI | pkg/app/resource_service.go:123-140 | the readable ".swagger.json" assets of every resource source with that name, concatenated in order |
| TokenCmd.ContextOfKeys | pkg/cmd/token_cmd.go:100-109 | the context holds exactly the keys of the comma-separated pieces, each split at its first '=' |
| TokenCmd.ContextOfLastWins | pkg/cmd/token_cmd.go:102-108 | a key takes the value of the last piece that names it |
| TokenCmd.EmptyContext | pkg/cmd/token_cmd.go:100-109 | an empty context argument gives the single entry "" → "" |
| TokenCmd.RolesOfGrants | pkg/cmd/token_cmd.go:122-125 | every role name, trimmed, is granted |
| TokenCmd.RolesOfOnly | pkg/cmd/token_cmd.go:122-125 | only trimmed role names are in the role map, each mapped to true |
| TokenCmd.ParseContext | pkg/cmd/token_cmd.go:100-109 | the loop builds the context map of the pieces |
| TokenCmd.ParseRoles | pkg/cmd/token_cmd.go:122-125 | the loop builds the role map of the names |
| TokenCmd.Expiry | pkg/cmd/token_cmd.go:131 | now plus the days in seconds, wrapped to int64, and exact whenever it fits |
| TokenCmd.GenerateAuthToken | pkg/cmd/token_cmd.go:89-141 | fewer than four arguments is the usage error; a secret that does not decode is its error; a lifetime that is not an int64 is "error on parsing days '<days>', …"; otherwise the token of the user with the parsed roles, context and expiry is written to standard error by `println`, or the signing error returned |
| TokenCmd.TokenProperty | pkg/cmd/token_cmd.go:149 | the upper-cased "<name>_auth", which ends in "_AUTH" |
| TokenCmd.TokenToVerify | pkg/cmd/token_cmd.go:145-151 | the argument when given, else the application's token property |
| TokenCmd.VerifyAuthTokenAsWritten | pkg/cmd/token_cmd.go:143-170 | fails exactly when it prints nothing; models the verification error being dropped |
| TokenCmd.RefusedTokenPanics | pkg/cmd/token_cmd.go:163-168 | a token the verifier refuses ends in the nil-pointer error, not in the verifier's reason |
| TokenCmd.VerifyAuthToken | pkg/cmd/token_cmd.go:143-170 | fails exactly when it prints nothing |
| TokenCmd.VerifyAuthTokenOutcome | pkg/cmd/token_cmd.go:143-170 | succeeds exactly for a non-empty token that the verifier accepts under the decoded secret, writing that user's line to standard output; a refused token is "verify error, <reason>"; no token is "auth token not found" |
| TokenCmd.VerifyAgreesOnAccepted | pkg/cmd/token_cmd.go:143-170 | the corrected and the original verification agree whenever the original does not panic |
| TokenCmd.Run | pkg/cmd/token_cmd.go:47-87 | no argument is "token command needs argument [boot, auth]"; "boot" writes the generated token to standard error or returns its error; "auth" with fewer than four further arguments is the usage error, and otherwise the decode, days-parse and sign outcomes of `generateAuthToken` on the remaining arguments; "verify" runs `verifyAuthToken` as written, so a refused token ends in the recovered nil-dereference text; anything else is "unknown sub-command '<cmd>' for token command" |

## Left out

- Concurrency is not modelled: goroutines, channels, `errgroup`, mutexes and atomics. Each operation is modelled by its effect in a sequential run.
  - Signals arrive as a finite sequence of events.
  - Watch delivery is the set of notified handles.
  - `sync.Once` is a flag.
  - The servers' `Stop` during `Serve` is a boolean input.
- NodeService.NodeService.Issue: the compare-and-swap retry loop is collapsed to its first round, which always succeeds without a concurrent caller. Re-reading the clock after a lost race is therefore not modelled.
- The bit layout of the UUID library is not modelled, only the fields the service sets and reads back, cut to the 14-bit clock sequence and 48-bit node widths of sections 4.1.5 and 4.1.6 of RFC 4122 (the library's source is not part of this model).
- NodeService.ParseIssued: the clock sequence comes back only modulo 2^14, so more than 16384 ids issued within one 100-nanosecond tick repeat an earlier id (NodeService.SameTickIdsCollide). The Go code does not guard against this. `GenerateNodeId` and `ParseNodeId` are parameters.
- Token signing and verification, bootstrap-token and secret generation, and base64 decoding are uninterpreted function parameters; the codecs are not part of this model.
- ConfigRepository.Repository.Get, DoSet, Set and EnumerateAll require a wired store. Without one the Go code dereferences a nil interface and panics, and nothing recovers it there.
- ConfigCmd.DumpFromStorage, GetConfig and SetConfig require the locally opened core context to hold a store, as its injection guarantees.
- ControlClient.StorageConsole requires the prompted lines to contain "exit". This loses no finished run: the Go loop also ends on a failed send or when the receiver reports its end, and appending "exit" after the lines read reproduces any such run. The prompt reader's error is ignored, so only when none of the three happens does the Go loop prompt forever.
- The same reasoning leads `Prompt`, `PromptQuery` and `PromptPem` to require that the input holds their closing line. The prompts' request text, printed to standard error, is not modelled.
- `Promptf` (a `fmt.Sprintf` wrapper) and `PromptPassword` (the terminal) are not modelled; the prompted password is a parameter.
- String lengths count characters, not UTF-8 bytes. The config dump's truncation therefore agrees with Go only on ASCII text.
- `%v` formatting of non-string values is not modelled; error texts are concatenated strings.
- The type switch over a recovered panic value (error, string or other) becomes the panic's text.
- The assembly of the server list in `doWithServers` (bean lookup, type assertions and injection) is folded into the callback's outcome.
- The following are one-line pass-throughs or runtime statistics, and are not modelled:
  - `ControlClient.PostConstruct`, which builds the gRPC stub;
  - the application's getters (`Name`, `Version`, `Build`, `Profile`, `IsDev`, `Executable`) and its options;
  - `GetStats` of the application and the node service;
  - `printUsage`;
  - `BeanName`, `Desc`, `String` and `Priority` methods;
  - `ApplicationFlags.Properties`;
  - `ObjectType`, `ObjectName` and `Singleton` of the client factory.
- GrpcClientFactory.Object takes "<bean>.max.message.size" as an integer parameter, because the property's integer parsing belongs to the properties library. `grpc.Dial` itself is not modelled.
- `util.ToZone`, the lego client, the Netlify API client and the TLS configuration factories are not part of this model.
- NodeService.NodeService.Issue does not clamp a clock that goes backwards: it stores the smaller tick, and the model does the same.
- CmdUtils.RunServers returns no error when no server binds, as the Go code does.
- CmdUtils.RunServers: the error group's first error is the first in time; the model takes the first in server order, since the order in which the `Serve` goroutines end is not modelled.
- Base.ToUpper and Base.ToLower change the case of ASCII letters only; Go's `strings.ToUpper` and `ToLower` map every Unicode letter, and the Unicode case tables are not part of this model. This affects Application.Profile, TokenCmd.TokenProperty, the `export` line of AuthorizationMiddleware.AuthorizationMiddleware.PostConstruct and NetlifyProvider.Detect, which agree with Go only where the text's letters are ASCII.
- AuthorizationMiddleware.AuthorizationMiddleware.PostConstruct: on a decode error the model leaves the secret key empty; Go's `DecodeString` stores the bytes decoded before the error. The decoder is a parameter returning a result or an error, so those partial bytes are not modelled. The key is unusable in either case, because startup fails with that error.
- Prompt.Prompt and Prompt.PromptQuery drop leading blank lines of a block, because the newline is only written once the builder holds text. The model keeps that behaviour.

## Findings

| source | as written | input that shows it | evidently intended | confidence | as-written member | corrected member |
|---|---|---|---|---|---|---|
| pkg/cmd/token_cmd.go:163-168 | the verification error is formatted and discarded, then the fields of the nil user are read | `token verify <t>` with a token the verifier refuses: the command dereferences a nil user and `Run` recovers that panic as its error | return "verify error, <reason>" and print nothing | medium, not executed: assumes the verifier returns a nil user with its error | TokenCmd.VerifyAuthTokenAsWritten | TokenCmd.VerifyAuthToken |
