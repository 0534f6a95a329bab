# kitchen (dapur-ai) — a Dafny model of the service core

This project models the core of the `kitchen` FastAPI backend: the rules it applies to
requests and the services behind them. It does not model the HTTP layer around them.

- **Endpoint gates** (`kitchen/core/dependencies.py`):
  - the process-wide endpoint registry, with its enable, disable, toggle and bulk updates;
  - feature flags and conditional routers;
  - `endpoint_control` and the `controllable_endpoint` decorator that refuses calls to
    disabled endpoints.
- **Request logging policy** (`kitchen/core/middleware.py`): which paths count as
  sensitive, which bodies are captured, and the log level of a completed request.
- **Settings parsing** (`kitchen/core/config.py`): the CORS origins and client URLs.
- **Exceptions** (`kitchen/core/exceptions/*`):
  - the exception hierarchy with its codes, statuses and domains;
  - the `to_dict` payload;
  - the helpers that turn repository failures into HTTP errors;
  - the error-documentation generator.
- **Security** (`kitchen/core/security.py`): client credentials, client tokens and the
  authentication gates.
- **Auth domain** (`kitchen/domains/auth/*`):
  - the error helpers;
  - registration;
  - the login lockout after three wrong passwords;
  - the client-credentials grant.
- **Query domain** (`kitchen/domains/query/*`):
  - the schema normalisations;
  - the session-id validation;
  - the service operations and how each one wraps the failures beneath it.
- **Recipes** (`kitchen/domains/recipes/*`):
  - the prompt template and its `+=` assembly;
  - the template factory with its cache;
  - grouping of food preferences;
  - recipe generation, which collects the successful attempts;
  - the data `_save_recipe` prepares.
- **LLM providers** (`kitchen/infrastructure/external_services/llm/providers/*`):
  - the provider factory;
  - Gemini's parameter merge, chat flattening and failure classification;
  - OpenAI's keyword arguments, `_extract_json`, chat conversation and
    `_handle_openai_error`.

Where the source mutates state, the model is imperative:
- classes hold `map` fields that their methods reassign under `modifies`;
- loops are `while` loops with invariants.

Each such method is proved equal to a specification function, and lemmas state the
properties of that function. Databases, JWT, bcrypt, regular expressions, URL parsing and
the language models are parameters of the operations that use them.

## Model

| member | source | states |
|---|---|---|
| EndpointRegistry.EnabledIn | kitchen/core/dependencies.py:144-158 | a key never registered counts as enabled; otherwise its stored flag |
| EndpointRegistry.SetEnabledIn | kitchen/core/dependencies.py:160-182 | enable/disable sets the flag, registers an unknown key with an empty description, keeps a known key's description and leaves every other key alone |
| EndpointRegistry.ToggleIn | kitchen/core/dependencies.py:184-200 | toggling flips the effective state, registers the key if new and leaves every other key alone |
| EndpointRegistry.ToggleTwiceRestores | kitchen/core/dependencies.py:184-200 | toggling a registered key twice restores the table exactly |
| EndpointRegistry.ToggleTwiceRegisters | kitchen/core/dependencies.py:184-200 | toggling an unknown key twice leaves it registered, enabled, with an empty description |
| EndpointRegistry.SetEnabledIdempotent | kitchen/core/dependencies.py:160-182 | enabling (or disabling) twice is the same as once |
| EndpointRegistry.DisableThenEnable | kitchen/core/dependencies.py:160-182 | disabling then enabling an enabled registered key restores the table |
| EndpointRegistry.BulkIn | kitchen/core/dependencies.py:431-453 | the bulk update keeps the key set and descriptions and sets exactly the matched keys' flags |
| EndpointRegistry.BulkIdempotent | kitchen/core/dependencies.py:431-453 | the same bulk update applied twice equals applying it once |
| EndpointRegistry.LongerPrefixMatchesFewer | kitchen/core/dependencies.py:443-446 | for a pattern without metacharacters, extending it can only shrink the set of matched keys |
| EndpointRegistry.FlagForPath | kitchen/core/dependencies.py:414-424 | a reported flag is non-empty and belongs to a prefix the path starts with; no matching prefix gives no flag |
| EndpointRegistry.FlagForPathFirstWins | kitchen/core/dependencies.py:417-420 | the first prefix, in declaration order, that the path starts with decides the flag |
| EndpointRegistry.Registry.constructor | kitchen/core/dependencies.py:10 | the registry starts empty |
| EndpointRegistry.Registry.Register | kitchen/core/dependencies.py:130-142 | registering overwrites any previous entry for the key |
| EndpointRegistry.Registry.Enable | kitchen/core/dependencies.py:160-170 | the new table is the enable-update of the old one |
| EndpointRegistry.Registry.Disable | kitchen/core/dependencies.py:172-182 | the new table is the disable-update of the old one |
| EndpointRegistry.Registry.Toggle | kitchen/core/dependencies.py:184-200 | returns the negation of the previous effective state, which is the new state; the table is the toggle-update |
| EndpointRegistry.Registry.GetIncludeInSchema | kitchen/core/dependencies.py:370-387 | a registered key answers its flag without change; an unknown key is registered enabled and answers true |
| EndpointRegistry.Registry.BulkUpdate | kitchen/core/dependencies.py:431-453 | a pattern that does not compile changes nothing; otherwise the count is the number of matched keys and the table is the bulk update of the old one |
| EndpointRegistry.Registry.RegisteredEndpoints | kitchen/core/dependencies.py:455-463 | one row per registered key, each with its effective state and its stored description |
| EndpointRegistry.Registry.AllEndpoints | kitchen/core/dependencies.py:389-429 | one row per registered key with its flag and description; its feature flag is the one the first configured prefix the path starts with gives, none when no prefix matches |
| EndpointGates.FeatureFlagCheck | kitchen/core/dependencies.py:28-33 | the dependency answers 404 exactly when the flag (defaulting to `default_enabled`) is off |
| EndpointGates.RouteEnabled | kitchen/core/dependencies.py:59-69 | an off flag disables the route; with the flag on, a registered non-empty path takes its registry flag, anything else is enabled |
| EndpointGates.RouteEnabledAgreesWithFeatureFlag | kitchen/core/dependencies.py:28-69 | a route is hidden exactly when the matching `feature_flag` dependency would refuse it or the registry disables its path |
| EndpointGates.ConditionalRouter | kitchen/core/dependencies.py:105-126 | flag on gives the router itself; flag off gives a dummy with the same prefix and tags that registers nothing |
| EndpointGates.DisabledRouterRegistersNothing | kitchen/core/dependencies.py:109-126 | routes added to a router switched off by its flag are never registered |
| EndpointGates.DummyRouterUnchanged | kitchen/core/dependencies.py:114-119 | adding routes to the dummy router leaves it unchanged |
| EndpointGates.RouterRecordsRoutes | kitchen/core/dependencies.py:105-106 | a live router records every added route, in order |
| EndpointGates.EndpointControl | kitchen/core/dependencies.py:219-237 | without a pattern the exact path is looked up, failing open; a pattern that does not compile raises; one that does not match lets the request through; when it matches and every registry key compiles, the answer is 404 exactly when some disabled key matches the path; an error names the pattern or a key that does not compile |
| EndpointGates.ScanRegistry | kitchen/core/dependencies.py:224-235 | walking the registry in its order, the first key that does not compile raises; otherwise the answer is 404 exactly when some disabled key matches the path |
| EndpointGates.BadRegistryKeyRaises | kitchen/core/dependencies.py:224-231 | a matching pattern with a first registry key that does not compile makes `endpoint_control` raise that key's `re.error` |
| EndpointGates.SuffixedKeysInvisibleToEndpointControl | kitchen/core/dependencies.py:224-231 | with literal patterns, keys carrying a ":METHOD" suffix never affect `endpoint_control`, whatever their flag and whatever the registry order |
| EndpointGates.MethodFromName | kitchen/core/dependencies.py:305-316 | the method is that of the first of "get", "post", "put", "delete", "patch" occurring in the lower-cased name, each case stated both ways; none exactly when none occurs |
| EndpointGates.DeriveKey | kitchen/core/dependencies.py:298-319 | no path or a path with a colon is kept; otherwise the guessed method is appended when there is one |
| EndpointGates.DeleteHandlerKeyedAsGet | kitchen/core/dependencies.py:307-308 | a handler named `delete_budget` is keyed as a GET route because "get" is looked for first |
| EndpointGates.Decorate | kitchen/core/dependencies.py:296-365 | the wrapper carries the derived key, flag and description; a non-empty path registers that key, overwriting; no path registers nothing |
| EndpointGates.IncludeInSchema | kitchen/core/dependencies.py:246-258 | a controllable handler whose key is registered takes the registry's flag; a controllable handler with no key or an unregistered one, and any other handler, keep the requested value, true by default |
| EndpointGates.DisabledAtDecorationHiddenFromSchema | kitchen/core/dependencies.py:252-322 | a handler decorated with a path and `enabled=False` is left out of the schema whatever the route asks |
| EndpointGates.FirstHttpRequest | kitchen/core/dependencies.py:327 | the first positional Starlette request, none exactly when there is none |
| EndpointGates.RequestArg | kitchen/core/dependencies.py:327-328 | the request found is always a Starlette request, the positional one first |
| EndpointGates.CheckKey | kitchen/core/dependencies.py:339-344 | a decorated key with a colon is checked as is and one without gets ":" and the verb; without a decorated key the request path is used, with the verb appended when it has no colon; so the key always carries a colon |
| EndpointGates.GuardIn | kitchen/core/dependencies.py:331-355 | no request runs the handler; a body model crashes on `scope`; otherwise the key is registered on first use and the call runs exactly when it is enabled |
| EndpointGates.Call | kitchen/core/dependencies.py:325-358 | the new registry and the outcome are those of the guard; with only real requests taken, a call never crashes |
| EndpointGates.GuardFollowsRegistry | kitchen/core/dependencies.py:347-355 | once registered, a key decides the call alone and the registry is unchanged |
| EndpointGates.DisabledKeyRefusesCalls | kitchen/core/dependencies.py:351-355 | disabling the checked key makes the call a 404 |
| EndpointGates.PathlessKeysPerConcretePath | kitchen/core/dependencies.py:339-344 | a handler decorated without a path gets a different key per concrete request path |
| EndpointGates.BareDecoratedKeyNotConsulted | kitchen/core/dependencies.py:301-344 | a bare decorated path whose handler name names no method is registered bare but checked with the method appended |
| EndpointGates.BodyNamedRequestCrashesAsWritten | kitchen/core/dependencies.py:327-333 | as written, a JSON body parameter named `request` is taken as the request and reading its scope fails |
| EndpointGates.BodyNamedRequestHandled | kitchen/core/dependencies.py:327-333 | taking only real requests, such a handler runs |
| RequestLogPolicy.StartsWithAny | kitchen/core/middleware.py:205-209 | true exactly when some listed prefix starts the path |
| RequestLogPolicy.IsSensitivePath | kitchen/core/middleware.py:190-209 | sensitive exactly when the path is listed, or some listed prefix starts it |
| RequestLogPolicy.CapturedBody | kitchen/core/middleware.py:51-89 | only POST, PUT and PATCH capture; a sensitive path is redacted, and only a sensitive path is; a logged parse comes from a read body that `json.loads` accepts |
| RequestLogPolicy.LoggedStatus | kitchen/core/middleware.py:44-103 | a request whose handler raised is logged with 500; otherwise with the response's status |
| RequestLogPolicy.CompletionLevel | kitchen/core/middleware.py:116-118 | ERROR exactly from 500, WARNING exactly from 400 to 499, INFO below 400 |
| RequestLogPolicy.UnansweredRequestLoggedAsError | kitchen/core/middleware.py:44-118 | a request whose handler raised completes at ERROR |
| RequestLogPolicy.CompletionLevelMonotone | kitchen/core/middleware.py:116-118 | the level never decreases as the status grows |
| RequestLogPolicy.LoginJsonBodyLoggedAsWritten | kitchen/core/config.py:118-130 | as written, `/api/v1/auth/login-json` is not sensitive, and its JSON body, password included, is parsed into the log |
| RequestLogPolicy.RequestData | kitchen/core/middleware.py:48-89 | with the password-carrying auth routes added to the list, their bodies are redacted, as are those of the listed paths |
| SettingsParsers.WordRunLength | kitchen/core/config.py:72-142 | the length of the longest run of word characters that starts the text |
| SettingsParsers.WithDefaultScheme | kitchen/core/config.py:72-143 | an entry matching `^\w+://` is kept, any other gets "http://" in front |
| SettingsParsers.WordRunOfWord | kitchen/core/config.py:72-142 | a word followed by a non-word character has exactly the word as its run |
| SettingsParsers.DefaultSchemeIdempotent | kitchen/core/config.py:72-143 | a defaulted entry has a scheme, so defaulting twice is defaulting once |
| SettingsParsers.Entries | kitchen/core/config.py:67-161 | every entry is non-empty and already stripped |
| SettingsParsers.NonEmptyStripped | kitchen/core/config.py:67-161 | every kept piece is non-empty and stripped |
| SettingsParsers.EntriesLackCommas | kitchen/core/config.py:67-161 | no entry contains a comma |
| SettingsParsers.ValidateAllSpec | kitchen/core/config.py:70-169 | validation succeeds exactly when every defaulted entry is accepted and then keeps them all in order; a failure names the first rejected entry, all before it accepted |
| SettingsParsers.AssembleCorsOrigins | kitchen/core/config.py:60-89 | the loop's result equals the value-level validator: pass-through for lists and "[" strings, else the deduplicated defaulted entries or the first rejected one |
| SettingsParsers.CheckOrigins | kitchen/core/config.py:68-86 | the loop returns every entry with its default scheme, in order, or stops at the first entry whose scheme or host is missing or whose scheme is not http or https |
| SettingsParsers.ValidateUrl | kitchen/core/config.py:140-155 | the stripped URL with its default scheme is accepted exactly when it passes the URL checks, and then it is the value returned; a refusal carries that same URL |
| SettingsParsers.ProcessClientUrls | kitchen/core/config.py:132-171 | the loop's result equals the value-level validator: [] for an empty setting, else the deduplicated defaulted entries or the first rejected one |
| SettingsParsers.ClientUrlsSpec | kitchen/core/config.py:157-171 | a result holds accepted URLs with a scheme, each once, one for every entry and nothing that is not a defaulted entry, in the order of their first occurrence; it fails exactly when some entry is rejected |
| SettingsParsers.CorsOrigins | kitchen/core/config.py:60-89 | a list, or a string that starts with "[", passes through; a changed value is a list without duplicates; a refusal names a URL the URL checks reject |
| SettingsParsers.ClientUrls | kitchen/core/config.py:157-171 | an empty setting gives the empty list; a result has no duplicates; a refusal names a URL the URL checks reject |
| SettingsParsers.CorsPassThrough | kitchen/core/config.py:63-89 | a list, or a string that starts with "[", passes through unchanged |
| SettingsParsers.CorsMatchesClientUrls | kitchen/core/config.py:62-171 | on a plain string both validators succeed together and give the same list |
| SettingsParsers.LoadedClientUrls | kitchen/core/config.py:114-171 | loading runs the client-URL validator on ALLOWED_CLIENT_URLS: an empty setting gives [], a success holds exactly the defaulted entries, and loading fails exactly when some entry is refused |
| Errors.Mro | kitchen/domains/auth/errors.py:35-72 | every class's resolution order starts at the class itself and ends at AppException, as its bases in kitchen/core/exceptions/http.py and the domain error modules give it |
| Errors.StatusTable | kitchen/core/exceptions/http.py:6-151 | the status each class resolves through inheritance: 400 for bad-request and validation classes, 401, 403, 404, 409, and 500 for the base, service and domain base classes |
| Errors.CodeTable | kitchen/core/exceptions/http.py:13-151 | the class-level error code each class resolves to, with the domain bases falling back on "INTERNAL_ERROR" |
| Errors.DomainRule | kitchen/domains/query/errors.py:39-76 | a class has a domain exactly when it derives from AuthException ("auth") or QueryException ("query"); InvalidSessionIdException has none |
| Errors.DefaultMessageRule | kitchen/core/exceptions/base.py:22-36 | a class's own default message applies, and the domain bases use AppException's "An unexpected error occurred" |
| Errors.NewError | kitchen/core/exceptions/base.py:22-36 | the message is the argument or the class default, details default to an empty map, and a domain code overrides the class code |
| Errors.ToDict | kitchen/core/exceptions/base.py:38-57 | the payload holds the five fixed keys with the error's values and the request id, and "domain", with the class's domain, exactly when the class has one |
| Errors.GetOr404 | kitchen/core/exceptions/utils.py:47-68 | a value passes through; a missing one becomes a 404 NotFoundException carrying the detail and the extra details |
| Errors.IntegrityErrorFor | kitchen/core/exceptions/utils.py:19-44 | a unique or duplicate-key violation becomes a 409 conflict, any other integrity error a 500 database error, both with the text under "error" |
| Errors.TryWithDbException | kitchen/core/exceptions/utils.py:96-125 | a result passes through; any failure becomes a conflict or a database error carrying the given message |
| Errors.GenerateErrorDocs | kitchen/core/exceptions/utils.py:128-176 | the loop builds the same documents as the recursive definition, stopping where a code has no second segment |
| Errors.FileMembersGroups | kitchen/core/exceptions/utils.py:155-171 | when every code has a category, filing adds exactly those categories, and each one gets its own members appended in enum order |
| Errors.CategoryOfCode | kitchen/core/exceptions/utils.py:158-160 | a code shaped DOMAIN_CATEGORY_REST is filed under the lowercased CATEGORY |
| Errors.RemoveAll | kitchen/core/exceptions/utils.py:151 | removing a pattern never lengthens the class name |
| Security.ManagerFromSettings | kitchen/core/security.py:165-170 | the manager takes the processed client URLs and the 60-minute token lifetime from the settings |
| Security.VerifyClientCredentials | kitchen/core/security.py:200-213 | an unconfigured manager accepts nothing; a configured one accepts exactly its own id and secret |
| Security.OnlyConfiguredPairVerifies | kitchen/core/security.py:200-213 | any pair that verifies is the configured pair, and its secret is not empty |
| Security.ValidateClientOrigin | kitchen/core/security.py:215-217 | an origin is valid exactly when it is in the processed URL list |
| Security.ConfiguredOriginsValidate | kitchen/core/security.py:165-217 | with the list from process_client_urls, every configured origin validates once its default scheme is added |
| Security.CreateClientToken | kitchen/core/security.py:172-198 | without credentials it raises ServiceException "Client credentials not configured"; otherwise a bearer token whose lifetime is the minutes times 60 and whose scope is the space-joined scopes |
| Security.IssuedScopeRoundTrip | kitchen/core/security.py:193-197 | splitting the issued scope on white space gives back the granted scopes, in order |
| Security.GetCurrentAuth | kitchen/core/security.py:43-99 | no token gives the anonymous principal; an undecodable token or one without "sub" raises the credentials error; claims in the token give that user; without them an id that is not an integer raises ValueError, an id with no stored user raises the credentials error, and a stored user is returned; a success with a token is always a user |
| Security.GetOptionalCurrentActiveUser | kitchen/core/security.py:101-112 | anonymous passes through, an inactive user is refused with a 403 "Inactive user", an active user passes |
| Security.GetCurrentUser | kitchen/core/security.py:114-143 | anonymous is refused with 401, an inactive user with 403; success only for an active user, with that user's fields |
| Security.GatesAgreeOnUsers | kitchen/core/security.py:101-143 | for a user both gates accept or refuse together; for anonymous only the optional gate accepts |
| Security.MissingTokenNeedsAuthentication | kitchen/core/security.py:56-127 | a request without a token resolves to anonymous and the strict gate refuses it with 401 |
| AuthDomain.CredentialError | kitchen/domains/auth/errors.py:77-96 | an AuthCredentialException carrying the code's value; a given message is kept, otherwise the three credential codes pick theirs and any other code leaves none |
| AuthDomain.PermissionError | kitchen/domains/auth/errors.py:98-121 | an AuthPermissionException carrying the code's value; a given message is kept, otherwise "Permission denied", refined for the two permission codes |
| AuthDomain.TokenError | kitchen/domains/auth/errors.py:123-148 | an AuthTokenException carrying the code's value; a given message is kept, otherwise "Token error", refined for the three token codes |
| AuthDomain.AuthErrorStatuses | kitchen/domains/auth/errors.py:35-72 | credential and token errors answer 401 and permission errors 403, all under the "auth" domain |
| AuthDomain.AuthCodeCategories | kitchen/domains/auth/errors.py:18-29 | every code value is filed under its lower-cased category segment |
| AuthDomain.AuthDomainKey | kitchen/core/exceptions/utils.py:151 | the enum AuthErrorCode is documented under the key "auth" |
| AuthDomain.AuthErrorDocs | kitchen/core/exceptions/utils.py:138-176 | the error documents hold the single domain "auth", whose categories are exactly credentials, token and permission |
| AuthDomain.AuthCategorySet | kitchen/domains/auth/errors.py:18-29 | every AuthErrorCode member has a category, and together they make exactly credentials, token and permission |
| AuthDomain.IssueToken | kitchen/domains/auth/services.py:72-76 | the token response is a bearer token that lives 30 minutes times 60 seconds |
| AuthDomain.CreateAuth | kitchen/domains/auth/services.py:36-76 | a mismatched confirmation raises a 400 validation error, a taken email a 409 conflict; otherwise the new account's token |
| AuthDomain.MismatchIgnoresLookup | kitchen/domains/auth/services.py:39-47 | a mismatched confirmation is refused before the email is looked up, so the lookup cannot change the answer |
| AuthDomain.RefusalError | kitchen/domains/auth/services.py:84-133 | each refusal raises the credential exception with its code, message and details |
| AuthDomain.RemainingMinutes | kitchen/domains/auth/services.py:101-103 | the minutes left of a lock are never negative and never exceed the four-hour lock period |
| AuthDomain.Answer | kitchen/domains/auth/services.py:78-158 | the caller gets the token exactly when the login succeeded |
| AuthDomain.Account.constructor | kitchen/domains/auth/models.py:17-20 | a new account is unlocked, with no lock time and no failed attempts |
| AuthDomain.Login | kitchen/domains/auth/services.py:78-158 | an unknown email is refused as an invalid username; otherwise the answer and the account's new lockout fields are those of one login step |
| AuthDomain.LoginStep | kitchen/domains/auth/services.py:92-138 | a lock in force refuses the attempt and changes nothing; a token is issued exactly when no lock is in force and the password is right, and then no failed attempts remain; a newly locked account holds the lock time and at least three attempts |
| AuthDomain.LoginKeepsInvariant | kitchen/domains/auth/services.py:92-138 | every login keeps the lockout invariant: attempts stay within the limit and locked means a lock time is set |
| AuthDomain.LoginSucceedsIff | kitchen/domains/auth/services.py:92-158 | a login succeeds exactly when the password is right and no lock is in force, and then issues the account's token |
| AuthDomain.LockHolds | kitchen/domains/auth/services.py:99-109 | within the lock period every attempt is refused with the minutes left and changes nothing |
| AuthDomain.LockExpires | kitchen/domains/auth/services.py:93-158 | after the lock period the right password unlocks the account, clears the count and logs in |
| AuthDomain.WrongPasswordCounts | kitchen/domains/auth/services.py:111-133 | below the limit a wrong password counts one more attempt and reports how many remain |
| AuthDomain.ThreeStrikes | kitchen/domains/auth/services.py:111-123 | three wrong passwords lock a fresh account; the right password is refused until the period has passed and accepted after it |
| AuthDomain.LockedWithoutTimeAdmits | kitchen/domains/auth/services.py:92-111 | a row marked locked without a lock time skips the lock check: the right password logs in and the row stays locked |
| AuthDomain.InvalidScopes | kitchen/domains/auth/routers.py:115-118 | the invalid scopes are exactly the requested ones that OAUTH2_SCOPES does not define |
| AuthDomain.InvalidScopesInOrder | kitchen/domains/auth/routers.py:115-118 | the k-th invalid scope is the k-th undefined requested scope: the comprehension keeps the request's order |
| AuthDomain.ClientCredentialsGrant | kitchen/domains/auth/routers.py:101-125 | bad client credentials answer 401 "Invalid client credentials", unknown scopes 400 naming them; otherwise the manager's token |
| AuthDomain.GrantIssuesRequestedScopes | kitchen/domains/auth/routers.py:101-125 | with valid credentials the grant either names the unknown scopes or issues a bearer token for exactly the requested scopes |
| AuthDomain.AuthRouteKeysHaveColon | kitchen/domains/auth/routers.py:16-100 | every key the auth routes declare has a colon between path and method |
| AuthDomain.AuthRouteKeysChecked | kitchen/domains/auth/routers.py:16-100 | so decoration keeps each key as given, and every call checks exactly that key |
| QueryDomain.AllCodesListed | kitchen/domains/query/errors.py:11-37 | the enumeration lists every QueryErrorCode member |
| QueryDomain.FindMember | kitchen/domains/query/errors.py:11-37 | a member is found by name exactly when some member's value is that name |
| QueryDomain.MemberNamed | kitchen/domains/query/errors.py:11-37 | an attribute lookup on QueryErrorCode succeeds exactly when a member has that name |
| QueryDomain.NoQueryServiceErrorMember | kitchen/domains/query/services.py:486 | QueryErrorCode has no member QUERY_SERVICE_ERROR |
| QueryDomain.RaiseQueryError | kitchen/domains/query/errors.py:90-101 | not-found codes raise QueryNotFoundException, validation codes QueryValidationException, any other code a plain QueryException; the message, even None, and the details are passed on |
| QueryDomain.RaiseValidationError | kitchen/domains/query/errors.py:103-109 | always a QueryValidationException carrying the code, the message and the details |
| QueryDomain.RaiseServiceError | kitchen/domains/query/errors.py:111-117 | always a QueryServiceException carrying the code, the message and the details |
| QueryDomain.RaisedStatuses | kitchen/domains/query/errors.py:43-117 | not-found codes answer 404, validation codes 400, service errors 500, and a plain QueryException 500 |
| QueryDomain.RaisedDomain | kitchen/domains/query/errors.py:39-117 | every exception the three helpers raise belongs to the "query" domain |
| QueryDomain.InvalidSessionIdError | kitchen/domains/query/errors.py:76-88 | an InvalidSessionIdException with the given message, no details, and the code INVALID_SESSION_ID |
| QueryDomain.InvalidSessionIdIsValidation | kitchen/domains/query/errors.py:76-88 | it answers 400 with code INVALID_SESSION_ID and is a ValidationException, but not a QueryException and without domain |
| QueryDomain.NormalizeMaxTokens | kitchen/domains/query/schemas.py:23-28 | a limit is kept exactly when it is positive; a non-positive one becomes None |
| QueryDomain.NormalizeMaxTokensIdempotent | kitchen/domains/query/services.py:105-108 | normalising twice is normalising once, so the service's own check changes nothing |
| QueryDomain.NormalizeSessionId | kitchen/domains/query/schemas.py:30-40 | None and the placeholders become None; any other id is kept verbatim, untrimmed |
| QueryDomain.NormalizeSessionIdIdempotent | kitchen/domains/query/schemas.py:30-40 | normalising a session id twice is normalising it once |
| QueryDomain.IdWithDigitKept | kitchen/domains/query/schemas.py:36-40 | an id with a digit in it, as every uuid4 string has, is never taken for a placeholder |
| QueryDomain.PlaceholdersAreLetters | kitchen/domains/query/schemas.py:38 | the placeholders are spelled in lower-case letters only |
| QueryDomain.QueryRecord.constructor | kitchen/domains/query/models.py:8-30 | a row starts with the given session id |
| QueryDomain.QueryRecord.ClearPlaceholderSessionId | kitchen/domains/query/models.py:30-42 | the insert and update hooks clear a placeholder session id and leave any other value as it was |
| QueryDomain.HookAppliesSchemaRule | kitchen/domains/query/models.py:30-42 | the hooks clear exactly the ids the schema normalises away, so a row built from a validated schema stays as it is |
| QueryDomain.ValidateSessionId | kitchen/domains/query/services.py:909-938 | an id survives exactly when it is not a placeholder and the lookup finds its session; a lookup error also gives None |
| QueryDomain.ValidateAfterSchema | kitchen/domains/query/services.py:920-930 | after the schema has normalised an id, the service's own placeholder check never changes the answer |
| QueryDomain.PromptError | kitchen/domains/query/services.py:59-64 | an empty or white-space-only prompt is refused with a validation error, any other passes |
| QueryDomain.PageError | kitchen/domains/query/services.py:514-526 | a page is refused exactly when limit < 1 or offset < 0, with the limit checked first and each message its own |
| QueryDomain.NormalizeTitle | kitchen/domains/query/services.py:692-694 | a missing or blank title becomes None; any other title is kept |
| QueryDomain.ChatLines | kitchen/domains/query/services.py:366 | one "role: content" line per message, in order |
| QueryDomain.ChatMessagesError | kitchen/domains/query/services.py:337-342 | a chat is refused with QUERY_VALIDATION_ERROR exactly when it has no messages |
| QueryDomain.ChatLineLacksNewline | kitchen/domains/query/services.py:366 | a line has no line break when its role and content have none |
| QueryDomain.CombinedPromptLines | kitchen/domains/query/services.py:366 | splitting the logged prompt at line breaks gives back the messages' lines, in order |
| QueryDomain.CreateQuerySessionId | kitchen/domains/query/services.py:66-90 | create_query stores only a session id that names an existing session |
| QueryDomain.RecordSessionId | kitchen/domains/query/services.py:345-377 | as written, chat passes on the requested id; corrected, a non-empty id is passed exactly when it is no placeholder and its session exists; a passed id is always the requested one |
| QueryDomain.RepositorySessionId | kitchen/domains/query/repositories.py:29-39 | the repository keeps a given session id exactly when the session lookup finds it, and stores None otherwise |
| QueryDomain.ChatPassesUnknownSessionAsWritten | kitchen/domains/query/services.py:345-377 | as written, chat passes a session id that names no session to the repository, where create_query would not; the repository then stores None |
| QueryDomain.ChatStoredSessionUnaffected | kitchen/domains/query/repositories.py:29-39 | so the stored session id is the same as written and corrected, and only ever an existing session |
| QueryDomain.ChatStoresOnlyKnownSessions | kitchen/domains/query/services.py:345-377 | corrected, chat passes exactly the id create_query would, and only one whose session exists |
| QueryDomain.CaughtByOne | kitchen/domains/query/services.py:479-481 | `except A` catches a failure exactly when it is a raised exception whose class has A in its resolution order |
| QueryDomain.CaughtByTwo | kitchen/domains/query/services.py:619-621 | `except (A, B)` catches a failure exactly when it is a raised exception whose class has A or B in its resolution order |
| QueryDomain.ServiceErrorNotKept | kitchen/domains/query/services.py:480-628 | a QueryServiceException passes none of the handlers that re-raise not-found, validation or session-id errors |
| QueryDomain.Rewrap | kitchen/domains/query/services.py:612-628 | a failure the first clause catches passes unchanged; anything else becomes a QueryServiceException whose message is the prefix and the failure's text |
| QueryDomain.GetQueryRepositoryErrorAsWritten | kitchen/domains/query/services.py:483-489 | as written, a repository error in get_query ends as an AttributeError instead of a QueryServiceException |
| QueryDomain.GetQueryAsWritten | kitchen/domains/query/services.py:455-489 | as written, a found query is returned, a missing one raises the not-found error, and a repository error ends as the AttributeError |
| QueryDomain.GetQuery | kitchen/domains/query/services.py:455-489 | a found query is returned, a missing one raises the 404 not-found, and a repository error a QueryServiceException |
| QueryDomain.GetQueryFailuresAnswered | kitchen/domains/query/services.py:455-489 | corrected, every failure of get_query is an application error, 404 when missing and 500 otherwise, and success is unchanged |
| QueryDomain.GetSession | kitchen/domains/query/services.py:721-748 | an empty id raises a validation error, a missing session the 404, and a repository error passes through unwrapped |
| QueryDomain.UpdateNotFoundAsWritten | kitchen/domains/query/services.py:595-628 | as written, a query gone before the update is reported as a 500 service error wrapping the not-found message |
| QueryDomain.UpdateNotFound | kitchen/domains/query/services.py:555-628 | corrected, that case is the 404 with the not-found message |
| QueryDomain.UpdateQueryChecks | kitchen/domains/query/services.py:570-600 | a missing query and a blank prompt are refused before the repository update, and a successful update stored the normalised limit |
| QueryDomain.StoreStep | kitchen/domains/query/services.py:595-617 | the update returns exactly the stored row; a repository error becomes a service error "Error updating …"; corrected, no row back is the not-found error "Failed to update … with ID" |
| QueryDomain.UpdateHandler | kitchen/domains/query/services.py:619-628 | a result, a not-found and a validation error pass unchanged; any other failure becomes a service error "Unexpected error updating …" |
| QueryDomain.UpdateQueryOutcome | kitchen/domains/query/services.py:570-628 | an update succeeds only when the query was found, the prompt is not blank, and the repository returned the row for the normalised changes |
| QueryDomain.QueryUpdateForm.constructor | kitchen/domains/query/schemas.py:42-54 | the form holds the given prompt, limit and parameters |
| QueryDomain.UpdateQuery | kitchen/domains/query/services.py:555-628 | the answer is the corrected update outcome; the form keeps its prompt and parameters and a non-positive limit on it is cleared |
| QueryDomain.UpdateSessionNotFound | kitchen/domains/query/services.py:806-862 | update_session shares the defect: as written a vanished session becomes a 500, corrected the 404 |
| QueryDomain.UpdateSessionOutcome | kitchen/domains/query/services.py:806-862 | an update succeeds only when the session was found and the repository returned the row for the normalised title |
| QueryDomain.SessionUpdateForm.constructor | kitchen/domains/query/schemas.py:86-89 | the form holds the given title and active flag |
| QueryDomain.UpdateSession | kitchen/domains/query/services.py:806-862 | the answer is the corrected update outcome; a blank title on the form is cleared once the session was found |
| QueryDomain.ListOutcome | kitchen/domains/query/services.py:491-804 | page errors are raised as they are, a listing is returned unchanged, and a repository error becomes a QueryServiceException |
| QueryDomain.QueryListFilter | kitchen/domains/query/services.py:527-533 | a truthy session filter is replaced by its validation; any other passes unchanged |
| QueryDomain.UnknownSessionFilterDropped | kitchen/domains/query/services.py:527-533 | a filter naming no session is dropped instead of refused |
| QueryDomain.ListingPageErrors | kitchen/domains/query/services.py:514-782 | page errors answer 400 and come before any repository call |
| RecipePrompts.Format | kitchen/domains/recipes/prompts/templates.py:46-97 | the prompt built by successive appends is the formatted prompt: head, the lines the input asks for, then the instructions |
| RecipePrompts.RenderAllAppend | kitchen/domains/recipes/prompts/templates.py:63-77 | rendering two runs of lines is rendering each, one after the other |
| RecipePrompts.Emitted | kitchen/domains/recipes/prompts/templates.py:63-77 | each conditional append extends the section so far by that kind's line, or by nothing |
| RecipePrompts.RenderAllLineIf | kitchen/domains/recipes/prompts/templates.py:63-77 | rendering the optional line of a kind gives that line when asked for and nothing otherwise |
| RecipePrompts.PreferenceSection | kitchen/domains/recipes/prompts/templates.py:63-77 | the rendered section is the five kinds' lines in the template's order |
| RecipePrompts.PreferenceLinesInKindOrder | kitchen/domains/recipes/prompts/templates.py:63-77 | the sequence of conditional lines is the kinds' lines taken in the fixed order |
| RecipePrompts.PromptFrame | kitchen/domains/recipes/prompts/templates.py:60-97 | the prompt opens with the system prompt, a blank line and the request line, and closes with the instruction block |
| RecipePrompts.LinesForIff | kitchen/domains/recipes/prompts/templates.py:63-77 | among given kinds, a line of a kind is emitted exactly when the kind is among them and the input asks for it, with its text |
| RecipePrompts.PreferenceLineIff | kitchen/domains/recipes/prompts/templates.py:63-77 | a line of a kind is in the section exactly when the input has a non-empty list or a truthy text for it, and carries that text |
| RecipePrompts.LinesForOrdered | kitchen/domains/recipes/prompts/templates.py:63-77 | lines drawn from kinds of increasing rank come out in increasing rank |
| RecipePrompts.PreferencesOrdered | kitchen/domains/recipes/prompts/templates.py:63-77 | the lines come in the order dietary restrictions, allergies, cuisines, spice level, additional information |
| RecipePrompts.RenderedAt | kitchen/domains/recipes/prompts/templates.py:63-77 | each line occurs in the rendered section, after the lines before it |
| RecipePrompts.ContainsAssembled | kitchen/domains/recipes/prompts/templates.py:60-97 | a rendered line occurs in the prompt assembled around the section |
| RecipePrompts.PreferenceLineBeforeTail | kitchen/domains/recipes/prompts/templates.py:60-97 | every line the input asks for appears in the prompt, whatever closes it |
| RecipePrompts.PreferenceLineInPrompt | kitchen/domains/recipes/prompts/templates.py:63-77 | every line the input asks for appears in the formatted prompt, with its heading, its text and a line break |
| RecipePrompts.PromptTemplate.constructor | kitchen/domains/recipes/prompts/templates.py:16-44 | a template instance is of the class it was built from |
| RecipePrompts.RecipeTemplateIdentity | kitchen/domains/recipes/prompts/templates.py:20-44 | the recipe-generation template reports version "1.0.0" and type "recipe_generation" |
| RecipePrompts.TemplateFactory.constructor | kitchen/domains/recipes/prompts/factory.py:15-22 | at import the registry holds only the recipe-generation template and the cache is empty |
| RecipePrompts.TemplateFactory.GetPromptTemplate | kitchen/domains/recipes/prompts/factory.py:25-57 | an unregistered type fails and changes nothing; a registered one is cached on first use and reused; the call fails exactly when a requested version differs |
| RecipePrompts.TemplateFactory.RegisterTemplate | kitchen/domains/recipes/prompts/factory.py:60-78 | a taken key fails with "already registered" and changes nothing; a new key is added and the cache is kept |
| RecipePrompts.ImportTimeLookups | kitchen/domains/recipes/prompts/factory.py:15-57 | RECIPE_VARIATION is declared but not registered, so asking for it fails, while the recipe-generation template is built once and reused |
| RecipeService.ValuesOfAppend | kitchen/domains/recipes/services.py:37-41 | values of rows fetched later come after those fetched earlier |
| RecipeService.ValuesOfMembership | kitchen/domains/recipes/services.py:37-41 | a value is listed under a type exactly when some row has that type and value |
| RecipeService.ValuesOfNonEmpty | kitchen/domains/recipes/services.py:37-41 | a type has values exactly when some row has that type |
| RecipeService.GroupedAppend | kitchen/domains/recipes/services.py:38-41 | one more row appends its value to its type's list, created when new |
| RecipeService.GroupPreferences | kitchen/domains/recipes/services.py:37-41 | the grouping loop builds, for every type that occurs, its values in fetch order |
| RecipeService.Grouped | kitchen/domains/recipes/services.py:37-41 | the grouped map has exactly the types that occur as keys, each with a non-empty list |
| RecipeService.TemplateInput | kitchen/domains/recipes/services.py:50-59 | the template gets the user's name and the count; a truthy system prompt is passed on and an absent or empty one gives ""; a type without rows gives []; present settings pass their spice level and additional information on, and no settings give neither |
| RecipeService.TemplateListOfGrouped | kitchen/domains/recipes/services.py:53-55 | the list the template receives for a type holds that type's values in fetch order, empty when there are none |
| RecipeService.PreferenceReachesPrompt | kitchen/domains/recipes/services.py:49-58 | the template has a line for a list kind exactly when the user has a preference of its type, listing its values |
| RecipeService.NoSettingsNoSettingLines | kitchen/domains/recipes/services.py:56-57 | without preference settings neither the spice nor the additional-information line appears |
| RecipeService.RaiseGenerationError | kitchen/domains/recipes/errors.py:61-69 | an empty or missing message takes the default "Failed to generate recipe" |
| RecipeService.Rewrapped | kitchen/domains/recipes/services.py:101-104 | a ValueError is reported as "Value error: " and its text, anything else as "Unexpected error: " and its text |
| RecipeService.Attempts | kitchen/domains/recipes/services.py:88-91 | one result per requested recipe, none when fewer than one is asked for |
| RecipeService.SuccessesSpec | kitchen/domains/recipes/services.py:94 | the successes keep their order, each comes from a successful result, and they are empty exactly when every generation failed |
| RecipeService.SuccessesAppend | kitchen/domains/recipes/services.py:94 | filtering split results gives the split successes |
| RecipeService.SuccessesInOrder | kitchen/domains/recipes/services.py:94 | the k-th recipe is the value of the k-th successful result, in task order |
| RecipeService.CollectedSpec | kitchen/domains/recipes/services.py:86-104 | the generations succeed exactly when one of them does and then give every successful recipe; otherwise the rewrapped "Failed to generate any recipes" error |
| RecipeService.GenerationOutcome | kitchen/domains/recipes/services.py:25-104 | corrected: recipes come back only when every lookup succeeded, and never an empty list; a missing profile is the rewrapped ValueError |
| RecipeService.GenerationNeedsEveryLookup | kitchen/domains/recipes/services.py:25-99 | corrected: recipes come back only when every lookup succeeded, and then from the prompt built from the user's data |
| RecipeService.LookupFailuresRewrapped | kitchen/domains/recipes/services.py:27-104 | corrected: a failed lookup is reported in the order the code performs them, a missing profile as a ValueError |
| RecipeService.GenerationOutcomeAsWritten | kitchen/domains/recipes/services.py:27-104 | as written, generation always fails: once the profile, preferences and settings are found, reading `profile.system_prompt` raises the AttributeError, reported as "Unexpected error: …"; earlier failures are as corrected |
| RecipeService.SystemPromptAttributeErrorWitness | kitchen/domains/recipes/services.py:51 | a user with a profile whose one generation succeeds gets the recipe when corrected and the AttributeError as written |
| RecipeService.CollectRecipes | kitchen/domains/recipes/services.py:86-99 | the generations, the filter and the empty check give the collected outcome |
| RecipeService.GenerateRecipe | kitchen/domains/recipes/services.py:25-104 | the step-by-step method gives the corrected generation outcome for the prompt the looked-up template formats: a rewrapped lookup failure, or the successful generations |
| RecipeService.IngredientRows | kitchen/domains/recipes/services.py:142-149 | one row per ingredient, in order, with its name, quantity and measurement |
| RecipeService.SaveRecipeData | kitchen/domains/recipes/services.py:139-178 | the stored data keeps the user, the name, the description, the duration, the difficulty and the tags, one row per ingredient, and has preference settings exactly when a spice level was extracted |
| RecipeService.SavedRecipeReadsBack | kitchen/domains/recipes/services.py:151-166 | the stored preferences sit under the three keys generate_recipe reads back, and settings exist exactly when a spice level was extracted |
| LLMProviders.AllHaveRoleAndContentOfLonger | kitchen/infrastructure/external_services/llm/providers/gemini/services.py:184-186 | a prefix one message longer is well-formed when the whole list is |
| LLMProviders.ChatLineSpec | kitchen/infrastructure/external_services/llm/providers/gemini/services.py:191-199 | a message with a known role gives its speaker, its content and a line break; any other role gives nothing |
| LLMProviders.ChatLine | kitchen/infrastructure/external_services/llm/providers/gemini/services.py:188-199 | a message writes a line exactly when it has both keys and a known role, and the line ends with a line break |
| LLMProviders.Transcript | kitchen/infrastructure/external_services/llm/providers/gemini/services.py:181-199 | the transcript is empty exactly when no message writes a line |
| LLMProviders.KnownOnly | kitchen/infrastructure/external_services/llm/providers/gemini/services.py:191-199 | the kept messages all have a known role and come from the list |
| LLMProviders.TranscriptOfLonger | kitchen/infrastructure/external_services/llm/providers/gemini/services.py:184-199 | one more message extends the transcript by its line |
| LLMProviders.TranscriptAppend | kitchen/infrastructure/external_services/llm/providers/gemini/services.py:184-199 | the transcript of two runs of messages is the two transcripts, one after the other |
| LLMProviders.TranscriptSkipsUnknownRoles | kitchen/infrastructure/external_services/llm/providers/openai/services.py:186-198 | messages with an unknown role add nothing to the conversation |
| LLMProviders.ProviderInstance.constructor | kitchen/infrastructure/external_services/llm/providers/factory.py:24-25 | an instance is built from the registered class with the call's keyword arguments |
| LLMProviders.ProviderFactory.constructor | kitchen/infrastructure/external_services/llm/providers/factory.py:9-10 | the registry and the instances start empty |
| LLMProviders.ProviderFactory.Register | kitchen/infrastructure/external_services/llm/providers/factory.py:12-15 | registering binds the type to the class, replacing any earlier one, and leaves the instances alone |
| LLMProviders.ProviderFactory.GetProvider | kitchen/infrastructure/external_services/llm/providers/factory.py:17-27 | an existing instance is returned as it is; an unregistered type raises ConfigurationError; otherwise a new instance of the registered class is stored and returned |
| LLMProviders.NotRegisteredError | kitchen/infrastructure/external_services/llm/providers/factory.py:21-22 | an unregistered type raises a ConfigurationError whose message starts with "Provider " and names the type |
| LLMProviders.ProviderFactory.Reset | kitchen/infrastructure/external_services/llm/providers/factory.py:29-32 | reset forgets every instance and keeps the registry |
| LLMProviders.InstanceReuse | kitchen/infrastructure/external_services/llm/providers/factory.py:12-32 | a second lookup returns the first instance even after the type is re-registered; after reset the new class is used |
| GeminiService.MergedParams | kitchen/infrastructure/external_services/llm/providers/gemini/services.py:37-49 | the call's keyword arguments override the configuration, a max_tokens of at most 0 is dropped, and a text max_tokens raises a TypeError |
| GeminiService.NonPositiveMaxTokensDropped | kitchen/infrastructure/external_services/llm/providers/gemini/services.py:37-49 | a call asking for 0 or fewer tokens drops the configured limit and keeps its other arguments |
| GeminiService.GenerateText | kitchen/infrastructure/external_services/llm/providers/gemini/services.py:30-68 | an empty prompt is the ValueError; the text comes back exactly when the prompt is non-empty, the parameters merge and the agent succeeds, and is `str(result.data)`; a merge failure (the TypeError) or an agent failure is classified as a generation failure from its text |
| GeminiService.ExtractData | kitchen/infrastructure/external_services/llm/providers/gemini/services.py:70-156 | an empty prompt, then a schema that is no model class, are ValueErrors; the data comes back exactly when both pass, the parameters merge and the agent's result converts; a merge failure, an unconvertible result (by the "Could not convert" ValueError's text) and an agent failure are classified as extraction failures from their text |
| GeminiService.Classify | kitchen/infrastructure/external_services/llm/providers/gemini/services.py:62-229 | every failure inside the try becomes a provider error |
| GeminiService.ClassifySpec | kitchen/infrastructure/external_services/llm/providers/gemini/services.py:62-229 | the tests ignore case and run in order: authentication exactly when "authentication" or "api key" occurs, or "unauthorized" in generate; else rate limit exactly when "rate limit" or "quota" occurs; else, in extract only, schema validation exactly when "schema" or "validation" occurs; else invalid response; each message keeps the text |
| GeminiService.GuardsPrecedeTheAgent | kitchen/infrastructure/external_services/llm/providers/gemini/services.py:30-76 | an empty prompt, and in extract a schema that is not a model, raise ValueError whatever the agent would do; other failures of generate are provider errors |
| GeminiService.UnconvertibleIsSchemaError | kitchen/infrastructure/external_services/llm/providers/gemini/services.py:145-156 | a result that cannot be converted is never reported as an invalid response |
| GeminiService.LastUserContentOfLonger | kitchen/infrastructure/external_services/llm/providers/gemini/services.py:191-195 | one more message replaces the question exactly when it is from the user |
| GeminiService.LastUserContentSpec | kitchen/infrastructure/external_services/llm/providers/gemini/services.py:191-195 | the question is the content of the last user message |
| GeminiService.NoUserNoContent | kitchen/infrastructure/external_services/llm/providers/gemini/services.py:191-195 | without a user message no question is collected |
| GeminiService.Question | kitchen/infrastructure/external_services/llm/providers/gemini/services.py:182-203 | the question is the content of the last user message, or the last message's content when that is empty or there is no user message |
| GeminiService.ChatOutcome | kitchen/infrastructure/external_services/llm/providers/gemini/services.py:158-229 | an empty list and a message missing a key are ValueErrors; a merge failure is classified as a chat failure; an answer comes back exactly when the messages are well formed, the parameters merge and the agent run succeeds on the prompt of the transcript and question, and is `str(result.data)` for a FinalResult and `str(result)` otherwise; an agent ValueError is re-raised and any other agent failure is classified as a chat failure |
| GeminiService.Summarize | kitchen/infrastructure/external_services/llm/providers/gemini/services.py:180-199 | the loop accepts exactly well-formed lists and collects the transcript and the last user content |
| GeminiService.ChatWith | kitchen/infrastructure/external_services/llm/providers/gemini/services.py:158-229 | the step-by-step chat gives the chat outcome |
| GeminiService.ChatPromptIgnoresUnknownRoles | kitchen/infrastructure/external_services/llm/providers/gemini/services.py:191-206 | messages with an unknown role change nothing in the prompt sent to the agent |
| OpenAIService.Init | kitchen/infrastructure/external_services/llm/providers/openai/services.py:28-58 | without a key in the configuration or the settings, initialisation raises ConfigurationError; a provider that starts has a key |
| OpenAIService.GenerationKwargs | kitchen/infrastructure/external_services/llm/providers/openai/services.py:64-73 | the five generation keys take the call's value or the configured one, and None values are left out |
| OpenAIService.ExplicitNoneDropsConfigured | kitchen/infrastructure/external_services/llm/providers/openai/services.py:64-73 | a call passing max_tokens=None drops the configured limit instead of falling back on it |
| OpenAIService.HandleError | kitchen/infrastructure/external_services/llm/providers/openai/services.py:338-349 | every error becomes a provider error whose message ends with its text: authentication exactly when "Unauthorized" or "Authentication" occurs; else rate limit exactly when "Rate limit" or "RateLimitError" occurs; else schema validation exactly when the lower-cased text has "validation error"; else the generic error |
| OpenAIService.LowerCaseNeverAuthentication | kitchen/infrastructure/external_services/llm/providers/openai/services.py:338-349 | the first two tests are case-sensitive: a lower-case text is never an authentication or rate-limit error, and it is a schema error exactly when it says "validation error" |
| OpenAIService.FindFrom | kitchen/infrastructure/external_services/llm/providers/openai/services.py:155-159 | the first occurrence of a pattern at or after a position, or none |
| OpenAIService.FirstIndex | kitchen/infrastructure/external_services/llm/providers/openai/services.py:161-164 | the first position of a character, or none |
| OpenAIService.LastIndex | kitchen/infrastructure/external_services/llm/providers/openai/services.py:161-164 | the last position of a character, or none |
| OpenAIService.NoBacktickNoFence | kitchen/infrastructure/external_services/llm/providers/openai/services.py:155-159 | text without a backtick has no fence |
| OpenAIService.FencedBodyRecovered | kitchen/infrastructure/external_services/llm/providers/openai/services.py:155-159 | an untagged fenced body (one not starting with "json") comes back stripped, whatever precedes or follows the fences when no backtick comes before the closing fence |
| OpenAIService.TaggedFencedBodyRecovered | kitchen/infrastructure/external_services/llm/providers/openai/services.py:155-159 | a body behind an opening fence tagged "json" comes back stripped and without the tag, under the same no-backtick condition |
| OpenAIService.BareObjectRecovered | kitchen/infrastructure/external_services/llm/providers/openai/services.py:161-164 | without fences, the text from the first "{" to the last "}" comes back |
| OpenAIService.ExtractJsonStrippedPiece | kitchen/infrastructure/external_services/llm/providers/openai/services.py:153-167 | whichever pattern matches, the extracted JSON occurs in the text and is already stripped |
| OpenAIService.PlainTextStripped | kitchen/infrastructure/external_services/llm/providers/openai/services.py:166-167 | text with neither fences nor braces comes back stripped |
| OpenAIService.ChatWith | kitchen/infrastructure/external_services/llm/providers/openai/services.py:169-215 | the step-by-step chat gives the chat outcome |
| OpenAIService.ChatOutcome | kitchen/infrastructure/external_services/llm/providers/openai/services.py:169-215 | a message missing a key is handed to the error handler; an answer comes back exactly when all messages are well formed and the agent answers the transcript followed by "Assistant: ", and is that answer; every failure is a provider error |
| OpenAIService.Conversation | kitchen/infrastructure/external_services/llm/providers/openai/services.py:184-198 | the loop accepts exactly the lists whose messages all have both keys, and then builds their transcript |
| OpenAIService.LineFor | kitchen/infrastructure/external_services/llm/providers/openai/services.py:190-198 | the line appended for one message is its chat line |
| OpenAIService.ChatEdgeCases | kitchen/infrastructure/external_services/llm/providers/openai/services.py:169-215 | an empty list sends just "Assistant: "; a malformed message is handled as an error; every failure is a provider error |
| OpenAIService.GenerateText | kitchen/infrastructure/external_services/llm/providers/openai/services.py:60-87 | the agent's text is returned exactly when the run with the filtered keyword arguments succeeds; otherwise the error is `_handle_openai_error`'s classification of the failure's text, always a provider error |

## Left out

- I/O is not modelled: the database and its repositories, logging, the request-log writes of the middleware, and `call_next`. Their outcomes are parameters: found or not found, or the text of the exception raised.
- Foreign libraries become parameters: JWT encoding and decoding, bcrypt (a `passwordOk` flag), `urlparse` (a `parse` function), the regular-expression engine (a match predicate; literal patterns are prefix matches), and the `pydantic_ai` agent runs.
- Concurrency: `asyncio.gather` in `generate_recipe` is a sequence of independent attempts in task order. The context-variable request id is a parameter of `to_dict`.
- Wall-clock time: `datetime.now` is an integer `now` in seconds, and the lock period is four hours in seconds.
- Floats (temperature, top_p, top_k, ingredient quantities) are only copied. Their range checks in the query service are not modelled.
- Python strings: `lower`, `strip`, `split` and `\w` are modelled on ASCII; there is no Unicode case folding or white space beyond ASCII. The white space is what `str.strip` removes among ASCII characters: space, \t to \r, and \x1c to \x1f.
- Exception `details` hold text values. An integer detail such as `attempts_remaining` or `lock_hours` appears as its decimal text.
- FEATURE_FLAGS and PATH_PREFIX_FEATURE_FLAGS are parameters, because `kitchen/core/config.py` does not define them.
- `get_or_404_async` only awaits a getter and then calls `get_or_404`, so only `get_or_404` is modelled.
- `create_access_token` and the JWT string it returns: a login token is modelled by the user id it carries, its type and its lifetime (`expires_in`).
- The query service's `create_query`, `extract_structured_data`, `chat`, `delete_query`, `delete_session` and `create_session` are not modelled end to end: they are mostly provider calls, repository writes and timing. Their checks are modelled: the prompt, the session id, `max_tokens`, the message list, the stored prompt and the title.
- The `issubclass(schema, BaseModel)` checks and the `isinstance` checks on prompts and message lists test Python types. They are modelled as a boolean `schemaIsModel` in Gemini's `extract`, and left out elsewhere.
- The registry's iteration order (a dict's insertion order) is the parameter `order` of `EndpointGates.EndpointControl`. It decides which key the scan meets first: a disabled matching key before a non-compiling one gives the 404, the other way round the re.error, and of two non-compiling keys the first is reported.
- `UserFoodPreferenceRepository` and `UserPreferenceSettingsRepository` are imported by the recipe service from kitchen/domains/profiles/repositories.py, which does not define them. Their results are parameters of the generation outcome: the food-preference rows and the preference settings, or the exception raised.
- The pydantic ValidationError that RecipeGenerationInput raises when the required `user_name` is missing is not modelled. Its only caller passes `profile.name`, a non-nullable column.
- `get_recipe`, `get_recipes` and `delete_recipe` only wrap repository calls and `raise_recipe_not_found`. They are not part of this model.
- OpenAI's `extract` is not modelled: agent run, JSON decoding and pydantic validation of the reply. Only its `_extract_json` and `_handle_openai_error` are modelled.
- Gemini's `extract` conversions of the agent's result (attribute dictionaries, `model_dump`) are reduced to three outcomes: converted, unconvertible with a reason, or failed.
- Gemini's and OpenAI's `stream` and `stream_chat` are async generators over the agent's stream, and are not modelled.
- Provider construction (the Gemini and OpenAI model objects) is not modelled. A failure to build the OpenAI model is a parameter of `OpenAIService.Init`.
- QueryDomain.GetQueryAsWritten: the AttributeError's text is the one Python 3.12 and later give ("type object 'QueryErrorCode' has no attribute 'QUERY_SERVICE_ERROR'"). On Python 3.11 and earlier, the enum metaclass's `__getattr__` raises `AttributeError('QUERY_SERVICE_ERROR')`, whose text is the bare name. Only the text differs; the exception escapes either way.
- Gemini's agent runs are parameters that return a `RunResult`: whether the result is a `FinalResult`, `str(result.data)` and `str(result)`. A run result without a `data` attribute, which would make `generate` raise AttributeError, is not modelled.
- LLMProviders.NotRegisteredError renders the provider type by its value ("gemini"). Python 3.11 and later format a `str`-mixin enum in an f-string as "ProviderType.GEMINI".
- OpenAIService.ChatEdgeCases: it states that a malformed message goes through `_handle_openai_error`, but does not prove which kind that yields. Its text "Each message must have 'role' and 'content' keys" matches none of the tests, so it ends as a plain ProviderError, but proving this needs character-by-character reasoning over a long literal.
- AuthDomain.AuthRouteKeysHaveColon: it states only that every declared key has a colon, not that each key is "/api/v1/auth" followed by the route, a colon and the method. The latter is visible in the constant `AuthRoutes`, but comparing the long literals exceeds the proof budget.

## Findings

| source | as written | input that shows it | evidently intended | confidence | as-written member | corrected member |
|---|---|---|---|---|---|---|
| kitchen/core/dependencies.py:327-333 | the wrapper takes `kwargs['request']` as the request whatever its type, then reads `request.scope["path"]` | the client-credentials handler, whose body parameter is named `request` (a ClientCredentialsRequest whose `scope` is a string): every call fails before the handler runs | only a Starlette `Request` is taken as the request | not executed | EndpointGates.BodyNamedRequestCrashesAsWritten | EndpointGates.BodyNamedRequestHandled |
| kitchen/domains/query/services.py:604-614 | the not-found raised inside the inner `try` is caught by its own `except Exception` and wrapped into a QueryServiceException | a query deleted between `get_query` and the repository update: the answer is a 500 whose message wraps the not-found text | the documented 404 QueryNotFoundException | not executed | QueryDomain.UpdateNotFoundAsWritten | QueryDomain.UpdateNotFound |
| kitchen/core/config.py:118-124 | SENSITIVE_PATHS lists "/api/v1/auth/login", which no route has, and no entry or prefix covers "/api/v1/auth/login-json" | a POST of `{"email": …, "password": …}` to /api/v1/auth/login-json: the parsed body, password included, is logged | the login routes' bodies are redacted like registration's | not executed | RequestLogPolicy.LoginJsonBodyLoggedAsWritten | RequestLogPolicy.RequestData |
| kitchen/domains/query/services.py:485-489 | the generic handler of `get_query` names QueryErrorCode.QUERY_SERVICE_ERROR, which the enum does not define | any repository error in `get_query`: an AttributeError escapes instead of a QueryServiceException | a 500 QueryServiceException carrying the repository error | not executed | QueryDomain.GetQueryRepositoryErrorAsWritten | QueryDomain.GetQueryFailuresAnswered |
| kitchen/domains/recipes/services.py:51 | the template is filled with `profile.system_prompt`, but the Profile model has only id, name and dob | any user with a profile, whatever the preferences, settings and provider: the AttributeError is rewrapped as "Unexpected error: 'Profile' object has no attribute 'system_prompt'" and no recipe is generated | a profile without a system prompt gives "", as the conditional intends | not executed | RecipeService.SystemPromptAttributeErrorWitness | RecipeService.GenerationOutcome |
