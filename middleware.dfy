/**
 * The decisions `RequestIDMiddleware` (kitchen/core/middleware.py) makes for every
 * request log record: whether the path is sensitive, which request body (if any) is
 * recorded, the status that is logged, and the log level of the completion line.
 */
module RequestLogPolicy {
  import opened Wrappers
  import opened Text

  /** `settings.SENSITIVE_PATHS`: paths whose bodies are redacted when equal to the request path. */
  const SensitivePaths: seq<string> := [
    "/api/v1/auth/login",
    "/api/v1/auth/register",
    "/api/v1/users/reset-password",
    "/api/v1/payments/process",
    "/api/v1/auth/register-by-email-password"
  ]

  /** `settings.SENSITIVE_PATH_PREFIXES`: paths whose bodies are redacted when they prefix the request path. */
  const SensitivePathPrefixes: seq<string> := [
    "/api/v1/auth/token",
    "/api/v1/payments/",
    "/api/v1/users/profile"
  ]

  /** Whether some entry of `prefixes` starts `path`: the early-return scan over the prefix list. */
  function StartsWithAny(path: string, prefixes: seq<string>): (r: bool)
    ensures r <==> exists i :: 0 <= i < |prefixes| && StartsWith(path, prefixes[i])
  {
    if |prefixes| == 0 then false
    else if StartsWith(path, prefixes[0]) then true
    else
      var rest := StartsWithAny(path, prefixes[1..]);
      assert rest <==> exists i :: 1 <= i < |prefixes| && StartsWith(path, prefixes[i]) by {
        if rest {
          var j :| 0 <= j < |prefixes[1..]| && StartsWith(path, prefixes[1..][j]);
          assert prefixes[j + 1] == prefixes[1..][j];
        }
        forall i | 1 <= i < |prefixes| && StartsWith(path, prefixes[i])
          ensures rest
        {
          assert prefixes[1..][i - 1] == prefixes[i];
        }
      }
      rest
  }

  /** `_is_sensitive_path`: an exact entry, or an entry of the prefix list that starts the path. */
  function IsSensitivePath(path: string, exact: seq<string>, prefixes: seq<string>): (r: bool)
    ensures r <==> path in exact || exists i :: 0 <= i < |prefixes| && StartsWith(path, prefixes[i])
  {
    if path in exact then true else StartsWithAny(path, prefixes)
  }

  /** The `request_data` a log record holds. */
  datatype LoggedBody<J> = NoData | Redacted | Parsed(value: J) | NonSerializable(error: string)

  /** Reading the body: its decoded text, or the error reading or decoding raised. */
  datatype BodyRead = Body(text: string) | ReadFailed(error: string)

  predicate CarriesBody(httpMethod: string)
  {
    httpMethod in ["POST", "PUT", "PATCH"]
  }

  /** Content types whose bodies are never read for the log. */
  predicate SkippedContentType(contentType: string)
  {
    Contains(contentType, "multipart/form-data") || Contains(contentType, "application/octet-stream")
  }

  /**
   * The body capture before the request is handled. `parse` stands for `json.loads`.
   * Only POST, PUT and PATCH are considered; a sensitive path is redacted without reading
   * the body; otherwise only a JSON content type (not a skipped one) is read and parsed,
   * an empty body logging nothing and a parse or read failure logging the error.
   */
  function CapturedBody<J>(httpMethod: string, contentType: string, sensitive: bool, body: BodyRead,
                           parse: string -> Result<J, string>): (r: LoggedBody<J>)
    ensures !CarriesBody(httpMethod) ==> r == NoData
    ensures CarriesBody(httpMethod) && sensitive ==> r == Redacted
    ensures r == Redacted ==> sensitive
    ensures r.Parsed? || r.NonSerializable? ==>
      CarriesBody(httpMethod) && !sensitive && !SkippedContentType(contentType) && Contains(contentType, "application/json")
    ensures r.Parsed? ==> body.Body? && parse(body.text) == Ok(r.value)
  {
    if !CarriesBody(httpMethod) then NoData
    else if sensitive then Redacted
    else if SkippedContentType(contentType) then NoData
    else if Contains(contentType, "application/json") then
      match body
      case ReadFailed(e) => NonSerializable(e)
      case Body(text) =>
        if text == "" then NoData
        else
          match parse(text)
          case Ok(v) => Parsed(v)
          case Err(e) => NonSerializable(e)
    else NoData
  }

  /** The logged status: the response's, or 500 when no response came back. */
  function LoggedStatus(responseStatus: Option<int>): (s: int)
    ensures responseStatus == None ==> s == 500
    ensures responseStatus.Some? ==> s == responseStatus.value
  {
    if responseStatus.Some? then responseStatus.value else 500
  }

  datatype LogLevel = Info | Warning | Error

  /** The level of the "Request completed" line. */
  function CompletionLevel(status: int): (l: LogLevel)
    ensures l == Error <==> status >= 500
    ensures l == Warning <==> 400 <= status < 500
    ensures l == Info <==> status < 400
  {
    if status >= 500 then Error else if status >= 400 then Warning else Info
  }

  /** A request whose handler raised is logged at ERROR. */
  lemma UnansweredRequestLoggedAsError()
    ensures CompletionLevel(LoggedStatus(None)) == Error
  {
  }

  /** The levels are monotone in the status code. */
  lemma CompletionLevelMonotone(s1: int, s2: int)
    requires s1 <= s2
    ensures CompletionLevel(s1) == Error ==> CompletionLevel(s2) == Error
    ensures CompletionLevel(s2) == Info ==> CompletionLevel(s1) == Info
  {
  }

  /** The JSON login route of the auth router, which takes the password in a JSON body. */
  const LoginJsonPath := "/api/v1/auth/login-json"

  /**
   * As written, the JSON login route is neither listed nor under a listed prefix, so its
   * JSON body, password included, is parsed into the log record.
   */
  lemma LoginJsonBodyLoggedAsWritten<J>(text: string, parse: string -> Result<J, string>)
    requires text != "" && parse(text).Ok?
    ensures !IsSensitivePath(LoginJsonPath, SensitivePaths, SensitivePathPrefixes)
    ensures CapturedBody("POST", "application/json",
                         IsSensitivePath(LoginJsonPath, SensitivePaths, SensitivePathPrefixes),
                         Body(text), parse) == Parsed(parse(text).value)
  {
    assert LoginJsonPath !in SensitivePaths;
    assert !StartsWith(LoginJsonPath, SensitivePathPrefixes[0]) by {
      assert LoginJsonPath[..|SensitivePathPrefixes[0]|][13] == 'l' != SensitivePathPrefixes[0][13];
    }
    assert !StartsWith(LoginJsonPath, SensitivePathPrefixes[1]) by {
      assert LoginJsonPath[..|SensitivePathPrefixes[1]|][8] == 'a' != SensitivePathPrefixes[1][8];
    }
    assert !StartsWith(LoginJsonPath, SensitivePathPrefixes[2]) by {
      assert LoginJsonPath[..|SensitivePathPrefixes[2]|][8] == 'a' != SensitivePathPrefixes[2][8];
    }
    assert "application/json"[0..16] == "application/json";
    assert OccursAt("application/json", "application/json", 0);
    assert !Contains("application/json", "multipart/form-data");
    assert !Contains("application/json", "application/octet-stream");
  }

  /** The exact list with the two login routes that take a password added. */
  const SensitivePathsWithLogins: seq<string> :=
    SensitivePaths + ["/api/v1/auth/login-json", "/api/v1/auth/login-by-email-password"]

  /** The auth routes whose request body carries a password. */
  const PasswordRoutes: seq<string> := [
    "/api/v1/auth/register-by-email-password",
    "/api/v1/auth/login-by-email-password",
    "/api/v1/auth/login-json"
  ]

  /** The body-capture decision for a request, with the completed sensitive list. */
  function RequestData<J>(httpMethod: string, path: string, contentType: string, body: BodyRead,
                          parse: string -> Result<J, string>): (r: LoggedBody<J>)
    ensures path in PasswordRoutes && CarriesBody(httpMethod) ==> r == Redacted
    ensures path in SensitivePaths && CarriesBody(httpMethod) ==> r == Redacted
  {
    CapturedBody(httpMethod, contentType, IsSensitivePath(path, SensitivePathsWithLogins, SensitivePathPrefixes), body, parse)
  }
}
