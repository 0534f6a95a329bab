/**
 * kitchen/core/security.py: the client-credentials manager (credential check, origin
 * check and the token response it builds) and the user-resolution dependencies
 * `get_current_auth`, `get_optional_current_active_user` and `get_current_user`.
 * JWT encoding and decoding, and the database lookup of a user, are parameters.
 */
module Security {
  import opened Wrappers
  import opened Text
  import opened Errors
  import SettingsParsers

  /** `CLIENT_CREDENTIALS_EXPIRE_MINUTES`. */
  const ClientCredentialsExpireMinutes := 60

  /** The keys of `OAUTH2_SCOPES`. */
  const OAuth2Scopes: set<string> := {"read", "write", "admin"}

  /** The manager's fields, fixed when it is built from the settings. */
  datatype ClientCredentialsManager = ClientCredentialsManager(
    clientId: Option<string>, clientSecret: Option<string>,
    allowedUrls: seq<string>, tokenExpireMinutes: int)

  /** The module-level manager: the configured id and secret and PROCESSED_CLIENT_URLS. */
  function ManagerFromSettings(clientId: Option<string>, clientSecret: Option<string>,
                               processedClientUrls: seq<string>): (m: ClientCredentialsManager)
    ensures m.allowedUrls == processedClientUrls && m.tokenExpireMinutes == 60
  {
    ClientCredentialsManager(clientId, clientSecret, processedClientUrls, ClientCredentialsExpireMinutes)
  }

  /** A configured value is truthy: present and not empty. */
  predicate Configured(v: Option<string>)
  {
    v.Some? && v.value != ""
  }

  predicate CredentialsConfigured(m: ClientCredentialsManager)
  {
    Configured(m.clientId) && Configured(m.clientSecret)
  }

  /** `verify_client_credentials`: never with a missing id or secret; otherwise both must match. */
  function VerifyClientCredentials(m: ClientCredentialsManager, clientId: string, clientSecret: string): (ok: bool)
    ensures !CredentialsConfigured(m) ==> !ok
    ensures CredentialsConfigured(m) ==> (ok <==> clientId == m.clientId.value && clientSecret == m.clientSecret.value)
  {
    if !Configured(m.clientId) || !Configured(m.clientSecret) then false
    else clientId == m.clientId.value && clientSecret == m.clientSecret.value
  }

  /** Only the configured pair verifies: any pair that verifies is that pair, and it has a non-empty secret. */
  lemma OnlyConfiguredPairVerifies(m: ClientCredentialsManager, clientId: string, clientSecret: string)
    requires VerifyClientCredentials(m, clientId, clientSecret)
    ensures m.clientId == Some(clientId) && m.clientSecret == Some(clientSecret) && clientSecret != ""
  {
  }

  /** `validate_client_origin`: membership in the processed URL list. */
  function ValidateClientOrigin(m: ClientCredentialsManager, origin: string): (ok: bool)
    ensures ok <==> exists i :: 0 <= i < |m.allowedUrls| && m.allowedUrls[i] == origin
  {
    origin in m.allowedUrls
  }

  /**
   * With the processed list produced by `process_client_urls`, every configured origin,
   * given its default scheme, is accepted.
   */
  lemma ConfiguredOriginsValidate(raw: string, parse: string -> SettingsParsers.UrlParts,
                                  clientId: Option<string>, clientSecret: Option<string>, e: string)
    requires SettingsParsers.ClientUrls(raw, parse).Ok? && raw != ""
    requires e in SettingsParsers.Entries(raw)
    ensures ValidateClientOrigin(
      ManagerFromSettings(clientId, clientSecret, SettingsParsers.ClientUrls(raw, parse).value),
      SettingsParsers.WithDefaultScheme(e))
  {
    SettingsParsers.ClientUrlsSpec(raw, parse);
    var urls := SettingsParsers.ClientUrls(raw, parse).value;
    var u := SettingsParsers.WithDefaultScheme(e);
    assert u in urls;
    var i :| 0 <= i < |urls| && urls[i] == u;
  }

  /** The claims the client token encodes; `expiresAt` is the current time plus the lifetime, in seconds. */
  datatype ClientClaims = ClientClaims(sub: string, scopes: seq<string>, tokenType: string, expiresAt: int)

  /** The response of `create_client_token`. */
  datatype ClientToken = ClientToken(accessToken: string, tokenType: string, expiresIn: int, scope: string)

  /** `create_client_token`. `encode` stands for `jwt.encode` with the secret key; `now` is the current time in seconds. */
  function CreateClientToken(m: ClientCredentialsManager, scopes: seq<string>, now: int,
                             encode: ClientClaims -> string): (r: Result<ClientToken, AppError>)
    ensures !CredentialsConfigured(m) <==> r.Err?
    ensures r.Err? ==> (r.error.cls == Service && r.error.message == Some("Client credentials not configured") &&
      r.error.details == map["missing_config" := "OAuth2 client credentials"])
    ensures r.Ok? ==> (r.value.tokenType == "bearer" && r.value.expiresIn == m.tokenExpireMinutes * 60 &&
      r.value.scope == Join(scopes, " ") &&
      r.value.accessToken == encode(ClientClaims(m.clientId.value, scopes, "client_credentials",
                                                 now + m.tokenExpireMinutes * 60)))
  {
    if !Configured(m.clientId) || !Configured(m.clientSecret) then
      Err(NewError(Service, None, Message(Some("Client credentials not configured")),
                   Some(map["missing_config" := "OAuth2 client credentials"])))
    else
      var claims := ClientClaims(m.clientId.value, scopes, "client_credentials", now + m.tokenExpireMinutes * 60);
      Ok(ClientToken(encode(claims), "bearer", m.tokenExpireMinutes * 60, Join(scopes, " ")))
  }

  /**
   * The `scope` of an issued token is the space-delimited list of section 3.3 of RFC 6749:
   * splitting it on white space gives back exactly the granted scopes, in order.
   */
  lemma IssuedScopeRoundTrip(m: ClientCredentialsManager, scopes: seq<string>, now: int, encode: ClientClaims -> string)
    requires CredentialsConfigured(m)
    requires forall i :: 0 <= i < |scopes| ==> IsWord(scopes[i])
    ensures CreateClientToken(m, scopes, now, encode).Ok?
    ensures SplitWhitespace(CreateClientToken(m, scopes, now, encode).value.scope) == scopes
  {
    SplitWhitespaceJoin(scopes);
  }

  /** A user as the dependencies see it; absent attributes of a user built from token data are None. */
  datatype Principal =
    | Anonymous
    | User(id: Option<int>, email: Option<string>, isActive: bool,
           isSuperuser: Option<bool>, isVerified: Option<bool>)

  /** The `user` claim of a token; each field is None when its key is absent. */
  datatype UserClaims = UserClaims(id: Option<int>, email: Option<string>, isActive: Option<bool>,
                                   isSuperuser: Option<bool>, isVerified: Option<bool>)

  /** A stored auth row, as the repository returns it. */
  datatype AuthRecord = AuthRecord(id: int, email: string, isActive: bool, isSuperuser: bool, isVerified: bool)

  function UserFromRecord(a: AuthRecord): Principal
  {
    User(Some(a.id), Some(a.email), a.isActive, Some(a.isSuperuser), Some(a.isVerified))
  }

  /** A decoded token: its `sub`, and its `user` claim when that is present and non-empty. */
  datatype Payload = Payload(sub: Option<string>, user: Option<UserClaims>)

  function CredentialsException(): AppError
  {
    NewError(Unauthorized, None, Message(Some("Could not validate credentials")), Some(map["authenticate" := "Bearer"]))
  }

  /** The user `get_current_auth` builds from token data: `is_active` defaults to true. */
  function UserFromClaims(c: UserClaims): Principal
  {
    User(c.id, c.email, if c.isActive.Some? then c.isActive.value else true, c.isSuperuser, c.isVerified)
  }

  /**
   * `get_current_auth`. `decode` stands for `jwt.decode` (None for a JWTError), `toInt`
   * for `int(sub)` (None for a ValueError) and `lookup` for the repository's user lookup.
   */
  function GetCurrentAuth(token: Option<string>, decode: string -> Option<Payload>,
                          toInt: string -> Option<int>, lookup: int -> Option<AuthRecord>): (r: Result<Principal, Failure>)
    ensures token.None? ==> r == Ok(Anonymous)
    ensures token.Some? && decode(token.value).None? ==> r == Err(Raised(CredentialsException()))
    ensures token.Some? && decode(token.value).Some? && decode(token.value).value.sub.None? ==>
      r == Err(Raised(CredentialsException()))
    ensures (token.Some? && decode(token.value).Some? && decode(token.value).value.sub.Some? &&
      decode(token.value).value.user.Some?) ==> r == Ok(UserFromClaims(decode(token.value).value.user.value))
    ensures (token.Some? && decode(token.value).Some? && decode(token.value).value.sub.Some? &&
      decode(token.value).value.user.None? && toInt(decode(token.value).value.sub.value).None?) ==>
      r == Err(Uncaught("ValueError"))
    ensures (token.Some? && decode(token.value).Some? && decode(token.value).value.sub.Some? &&
      decode(token.value).value.user.None? && toInt(decode(token.value).value.sub.value).Some? &&
      lookup(toInt(decode(token.value).value.sub.value).value).None?) ==>
      r == Err(Raised(CredentialsException()))
    ensures (token.Some? && decode(token.value).Some? && decode(token.value).value.sub.Some? &&
      decode(token.value).value.user.None? && toInt(decode(token.value).value.sub.value).Some? &&
      lookup(toInt(decode(token.value).value.sub.value).value).Some?) ==>
      r == Ok(UserFromRecord(lookup(toInt(decode(token.value).value.sub.value).value).value))
    ensures r.Ok? && token.Some? ==> r.value.User?
  {
    if token.None? then Ok(Anonymous)
    else
      match decode(token.value)
      case None => Err(Raised(CredentialsException()))
      case Some(payload) =>
        if payload.sub.None? then Err(Raised(CredentialsException()))
        else if payload.user.Some? then Ok(UserFromClaims(payload.user.value))
        else
          match toInt(payload.sub.value)
          case None => Err(Uncaught("ValueError"))
          case Some(id) =>
            match lookup(id)
            case None => Err(Raised(CredentialsException()))
            case Some(a) => Ok(UserFromRecord(a))
  }

  function InactiveUser(): AppError
  {
    NewError(Forbidden, None, Message(Some("Inactive user")), None)
  }

  /** `get_optional_current_active_user`: Anonymous passes through, an inactive user is refused. */
  function GetOptionalCurrentActiveUser(p: Principal): (r: Result<Principal, AppError>)
    ensures p.Anonymous? ==> r == Ok(Anonymous)
    ensures p.User? && !p.isActive ==> r == Err(InactiveUser())
    ensures p.User? && p.isActive ==> r == Ok(p)
  {
    if p.Anonymous? then Ok(p)
    else if !p.isActive then Err(InactiveUser())
    else Ok(p)
  }

  /** The dictionary `get_current_user` returns; timestamps are left out. */
  datatype UserView = UserView(id: Option<int>, email: Option<string>, isActive: bool, isSuperuser: Option<bool>)

  /** `get_current_user`: Anonymous needs authentication, an inactive user is refused, anyone else is described. */
  function GetCurrentUser(p: Principal): (r: Result<UserView, AppError>)
    ensures p.Anonymous? ==> (r.Err? && r.error.cls == Unauthorized &&
      r.error.message == Some("Authentication required") && r.error.details == map["authenticate" := "Bearer"])
    ensures p.User? && !p.isActive ==> r == Err(InactiveUser())
    ensures r.Ok? ==> (p.User? && p.isActive &&
      r.value == UserView(p.id, p.email, true, p.isSuperuser))
  {
    if p.Anonymous? then
      Err(NewError(Unauthorized, None, Message(Some("Authentication required")), Some(map["authenticate" := "Bearer"])))
    else if !p.isActive then Err(InactiveUser())
    else Ok(UserView(p.id, p.email, p.isActive, p.isSuperuser))
  }

  /** The two gates agree on every user and differ only on Anonymous, which only the optional one admits. */
  lemma GatesAgreeOnUsers(p: Principal)
    ensures p.User? ==> (GetOptionalCurrentActiveUser(p).Ok? <==> GetCurrentUser(p).Ok?)
    ensures p.Anonymous? ==> GetOptionalCurrentActiveUser(p).Ok? && GetCurrentUser(p).Err?
  {
  }

  /** A request without a bearer token resolves to Anonymous, so an endpoint that requires a user answers 401. */
  lemma MissingTokenNeedsAuthentication(decode: string -> Option<Payload>, toInt: string -> Option<int>,
                                        lookup: int -> Option<AuthRecord>)
    ensures GetCurrentAuth(None, decode, toInt, lookup) == Ok(Anonymous)
    ensures GetCurrentUser(Anonymous).Err? && GetCurrentUser(Anonymous).error.Status() == 401
  {
    StatusTable(Unauthorized);
  }
}
