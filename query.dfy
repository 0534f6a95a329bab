/**
 * The query domain (kitchen/domains/query): its error codes and the `raise_*` helpers,
 * the schema normalisers of QueryCreate and ChatCreate, the row hooks of the Query
 * model, and the validations and error handling of QueryService. Repository calls are
 * parameters holding what the call returned (`Err` for an exception it raised); the
 * LLM provider calls are not part of this model.
 */
module QueryDomain {
  import opened Wrappers
  import opened Text
  import E = Errors

  /** `QueryErrorCode`; every member's value is its own name. */
  datatype QueryErrorCode =
    | QueryNotFound | QueryValidationError
    | SessionNotFound | SessionValidationError
    | ServiceLlmProviderError | ServiceExtractionError
    | InvalidSessionId | ModelNotSupported | ProviderNotSupported
    | SystemPromptGenerationFailed | LlmProviderError | UnauthorizedAccess

  /** The member's value, which is also what `str(code)` gives and what `error_code` is set to. */
  function CodeValue(c: QueryErrorCode): string
  {
    match c
    case QueryNotFound => "QUERY_NOT_FOUND"
    case QueryValidationError => "QUERY_VALIDATION_ERROR"
    case SessionNotFound => "SESSION_NOT_FOUND"
    case SessionValidationError => "SESSION_VALIDATION_ERROR"
    case ServiceLlmProviderError => "SERVICE_LLM_PROVIDER_ERROR"
    case ServiceExtractionError => "SERVICE_EXTRACTION_ERROR"
    case InvalidSessionId => "INVALID_SESSION_ID"
    case ModelNotSupported => "MODEL_NOT_SUPPORTED"
    case ProviderNotSupported => "PROVIDER_NOT_SUPPORTED"
    case SystemPromptGenerationFailed => "SYSTEM_PROMPT_GENERATION_FAILED"
    case LlmProviderError => "LLM_PROVIDER_ERROR"
    case UnauthorizedAccess => "UNAUTHORIZED_ACCESS"
  }

  /** The members in declaration order. */
  const AllCodes: seq<QueryErrorCode> := [
    QueryNotFound, QueryValidationError, SessionNotFound, SessionValidationError,
    ServiceLlmProviderError, ServiceExtractionError, InvalidSessionId, ModelNotSupported,
    ProviderNotSupported, SystemPromptGenerationFailed, LlmProviderError, UnauthorizedAccess
  ]

  lemma AllCodesListed(c: QueryErrorCode)
    ensures c in AllCodes
  {
  }

  function FindMember(codes: seq<QueryErrorCode>, name: string): (r: Option<QueryErrorCode>)
    ensures r.Some? ==> r.value in codes && CodeValue(r.value) == name
    ensures r.None? ==> forall c :: c in codes ==> CodeValue(c) != name
  {
    if |codes| == 0 then None
    else if CodeValue(codes[0]) == name then Some(codes[0])
    else FindMember(codes[1..], name)
  }

  /** The attribute access `QueryErrorCode.<name>`: the member so named, or None where Python raises AttributeError. */
  function MemberNamed(name: string): (r: Option<QueryErrorCode>)
    ensures r.Some? ==> CodeValue(r.value) == name
    ensures r.None? <==> forall c: QueryErrorCode :: CodeValue(c) != name
  {
    var r := FindMember(AllCodes, name);
    forall c: QueryErrorCode
      ensures r.None? ==> CodeValue(c) != name
    {
      AllCodesListed(c);
    }
    r
  }

  /** The code `get_query` names in its generic handler. */
  const QueryServiceErrorName := "QUERY_SERVICE_ERROR"

  /** `QueryErrorCode` has no member QUERY_SERVICE_ERROR. */
  lemma NoQueryServiceErrorMember()
    ensures MemberNamed(QueryServiceErrorName).None?
  {
    forall c: QueryErrorCode
      ensures CodeValue(c) != QueryServiceErrorName
    {
      match c
      case ModelNotSupported =>
        assert CodeValue(c)[0] != QueryServiceErrorName[0];
      case UnauthorizedAccess =>
        assert CodeValue(c)[0] != QueryServiceErrorName[0];
      case _ =>
        assert |CodeValue(c)| != |QueryServiceErrorName|;
    }
  }

  // ---------------------------------------------------------------------------
  // The raise_* helpers
  // ---------------------------------------------------------------------------

  /** `raise_query_error`: the not-found codes, the validation codes, and the rest. */
  function RaiseQueryError(code: QueryErrorCode, message: Option<string>,
                           details: Option<map<string, string>>): (e: E.AppError)
    ensures code in {QueryNotFound, SessionNotFound} ==>
      e.cls == E.QueryNotFound && e.errorCode == CodeValue(code)
    ensures code in {QueryValidationError, SessionValidationError} ==>
      e.cls == E.QueryValidation && e.errorCode == CodeValue(code)
    ensures code !in {QueryNotFound, SessionNotFound, QueryValidationError, SessionValidationError} ==>
      e.cls == E.QueryBase && e.errorCode == E.ClassCodeOf(E.QueryBase)
    ensures e.message == message
    ensures e.details == if details.Some? then details.value else map[]
  {
    if code in {QueryNotFound, SessionNotFound} then
      E.NewError(E.QueryNotFound, Some(CodeValue(code)), E.Message(message), details)
    else if code in {QueryValidationError, SessionValidationError} then
      E.NewError(E.QueryValidation, Some(CodeValue(code)), E.Message(message), details)
    else
      E.NewError(E.QueryBase, None, E.Message(message), details)
  }

  /** `raise_validation_error`. */
  function RaiseValidationError(code: QueryErrorCode, message: Option<string>,
                                details: Option<map<string, string>>): (e: E.AppError)
    ensures e.cls == E.QueryValidation && e.errorCode == CodeValue(code)
    ensures e.message == message
    ensures e.details == if details.Some? then details.value else map[]
  {
    E.NewError(E.QueryValidation, Some(CodeValue(code)), E.Message(message), details)
  }

  /** `raise_service_error`. */
  function RaiseServiceError(code: QueryErrorCode, message: Option<string>,
                             details: Option<map<string, string>>): (e: E.AppError)
    ensures e.cls == E.QueryService && e.errorCode == CodeValue(code)
    ensures e.message == message
    ensures e.details == if details.Some? then details.value else map[]
  {
    E.NewError(E.QueryService, Some(CodeValue(code)), E.Message(message), details)
  }

  /**
   * What the three helpers raise: not-found codes answer 404, validation codes 400, service
   * errors 500, and `raise_query_error` with any other code a plain QueryException, which
   * keeps INTERNAL_ERROR and answers 500.
   */
  lemma RaisedStatuses(code: QueryErrorCode, message: Option<string>, details: Option<map<string, string>>)
    ensures code in {QueryNotFound, SessionNotFound} ==> RaiseQueryError(code, message, details).Status() == 404
    ensures code in {QueryValidationError, SessionValidationError} ==> RaiseQueryError(code, message, details).Status() == 400
    ensures code !in {QueryNotFound, SessionNotFound, QueryValidationError, SessionValidationError} ==>
      RaiseQueryError(code, message, details).Status() == 500 &&
      RaiseQueryError(code, message, details).errorCode == "INTERNAL_ERROR"
    ensures RaiseValidationError(code, message, details).Status() == 400
    ensures RaiseServiceError(code, message, details).Status() == 500
  {
    var e := RaiseQueryError(code, message, details);
    E.StatusTable(e.cls);
    E.CodeTable(E.QueryBase);
    E.StatusTable(E.QueryValidation);
    E.StatusTable(E.QueryService);
  }

  /** Every exception the three helpers raise belongs to the "query" domain. */
  lemma RaisedDomain(code: QueryErrorCode, message: Option<string>, details: Option<map<string, string>>)
    ensures E.DomainOf(RaiseQueryError(code, message, details).cls) == Some("query")
    ensures E.DomainOf(RaiseValidationError(code, message, details).cls) == Some("query")
    ensures E.DomainOf(RaiseServiceError(code, message, details).cls) == Some("query")
  {
    var e := RaiseQueryError(code, message, details);
    assert e.cls == E.QueryNotFound || e.cls == E.QueryValidation || e.cls == E.QueryBase;
    QueryClassesDomain();
  }

  /** The four QueryException classes take the domain "query" from QueryException. */
  lemma QueryClassesDomain()
    ensures E.DomainOf(E.QueryBase) == Some("query") && E.DomainOf(E.QueryNotFound) == Some("query")
    ensures E.DomainOf(E.QueryValidation) == Some("query") && E.DomainOf(E.QueryService) == Some("query")
  {
    E.LookupFirst(E.Mro(E.QueryBase), E.OwnDomain, 0);
    QueryClassDomain(E.QueryNotFound);
    QueryClassDomain(E.QueryValidation);
    QueryClassDomain(E.QueryService);
  }

  /** A QueryException subclass whose order reaches QueryException without passing a domain. */
  lemma QueryClassDomain(c: E.ExceptionClass)
    requires c in {E.QueryNotFound, E.QueryValidation, E.QueryService}
    ensures E.DomainOf(c) == Some("query")
  {
    var m := E.Mro(c);
    var i := if c == E.QueryValidation then 3 else 2;
    assert m[i] == E.QueryBase;
    E.LookupFirst(m, E.OwnDomain, i);
  }

  /** `InvalidSessionIdException(message)`: a ValidationException whose code is then overwritten. */
  function InvalidSessionIdError(message: string): (e: E.AppError)
    ensures e.cls == E.InvalidSessionId && e.errorCode == CodeValue(InvalidSessionId)
    ensures e.message == Some(message) && e.details == map[]
  {
    E.NewError(E.InvalidSessionId, Some(CodeValue(InvalidSessionId)), E.Message(Some(message)), None)
  }

  /**
   * InvalidSessionIdException answers 400 with code INVALID_SESSION_ID and is a
   * ValidationException, but it does not derive from QueryException and has no domain.
   */
  lemma InvalidSessionIdIsValidation(message: string)
    ensures InvalidSessionIdError(message).Status() == 400
    ensures InvalidSessionIdError(message).errorCode == "INVALID_SESSION_ID"
    ensures E.Raised(InvalidSessionIdError(message)).IsA(E.Validation)
    ensures !E.Raised(InvalidSessionIdError(message)).IsA(E.QueryBase)
    ensures E.DomainOf(InvalidSessionIdError(message).cls) == None
  {
    E.StatusTable(E.InvalidSessionId);
    E.DomainRule(E.InvalidSessionId);
  }

  // ---------------------------------------------------------------------------
  // Schema normalisers and the row hooks
  // ---------------------------------------------------------------------------

  /** `validate_max_tokens` of QueryCreate and ChatCreate: a non-positive limit becomes None. */
  function NormalizeMaxTokens(v: Option<int>): (r: Option<int>)
    ensures r.Some? <==> v.Some? && v.value > 0
    ensures r.Some? ==> r == v
  {
    if v.Some? && v.value <= 0 then None else v
  }

  /** Normalising twice is normalising once, so the service's own re-check changes nothing. */
  lemma NormalizeMaxTokensIdempotent(v: Option<int>)
    ensures NormalizeMaxTokens(NormalizeMaxTokens(v)) == NormalizeMaxTokens(v)
  {
  }

  /** The placeholder values of `validate_session_id`, compared after lowercasing and stripping. */
  const SessionIdPlaceholders: seq<string> := ["", "string", "null", "none", "undefined"]

  predicate IsPlaceholder(v: string)
  {
    Strip(Lower(v)) in SessionIdPlaceholders
  }

  /** `validate_session_id`: placeholders become None; any other id is kept verbatim, unstripped. */
  function NormalizeSessionId(v: Option<string>): (r: Option<string>)
    ensures r.None? <==> v.None? || IsPlaceholder(v.value)
    ensures r.Some? ==> r == v
  {
    if v.Some? && IsPlaceholder(v.value) then None else v
  }

  lemma NormalizeSessionIdIdempotent(v: Option<string>)
    ensures NormalizeSessionId(NormalizeSessionId(v)) == NormalizeSessionId(v)
  {
  }

  /**
   * An id with a digit in it, as every `uuid4` string has, is never taken for a placeholder:
   * stripping removes only white space, so the digit survives, and no placeholder has one.
   */
  lemma IdWithDigitKept(v: string, i: int)
    requires 0 <= i < |v| && '0' <= v[i] <= '9'
    ensures NormalizeSessionId(Some(v)) == Some(v)
  {
    var l := Lower(v);
    var t := TrimStart(l);
    var s := Strip(l);
    var k := |l| - |t|;
    StripIsTrimmedSlice(l);
    assert l[i] == v[i];
    assert !IsSpace(l[i]);
    assert k <= i;
    assert t[i - k] == l[i];
    assert i - k < |s|;
    assert s[i - k] == l[i];
    assert '0' <= s[i - k] <= '9';
    if s in SessionIdPlaceholders {
      PlaceholdersAreLetters(s);
    }
  }

  /** The placeholders are spelled in lower-case letters only. */
  lemma PlaceholdersAreLetters(p: string)
    requires p in SessionIdPlaceholders
    ensures forall j :: 0 <= j < |p| ==> 'a' <= p[j] <= 'z'
  {
  }

  /** The placeholder tuple of the Query model's insert and update hooks (same values, another order). */
  const RowPlaceholders: seq<string> := ["string", "", "null", "none", "undefined"]

  /** A Query row as the two hooks see it. */
  class QueryRecord {
    var sessionId: Option<string>

    constructor (sessionId: Option<string>)
      ensures this.sessionId == sessionId
    {
      this.sessionId := sessionId;
    }

    /** `receive_before_insert` and `receive_before_update`: clear a placeholder session id. */
    method ClearPlaceholderSessionId()
      modifies this
      ensures old(sessionId).Some? && Strip(Lower(old(sessionId).value)) in RowPlaceholders ==> sessionId == None
      ensures !(old(sessionId).Some? && Strip(Lower(old(sessionId).value)) in RowPlaceholders) ==> sessionId == old(sessionId)
    {
      if sessionId.Some? && Strip(Lower(sessionId.value)) in RowPlaceholders {
        sessionId := None;
      }
    }
  }

  /**
   * The hooks apply the schema's rule: the new session id is the normalised one, so a row
   * built from a validated schema is left as it is.
   */
  lemma HookAppliesSchemaRule(r: QueryRecord, v: Option<string>)
    requires r.sessionId == v
    ensures (v.Some? && Strip(Lower(v.value)) in RowPlaceholders) <==> NormalizeSessionId(v) == None && v.Some?
    ensures NormalizeSessionId(NormalizeSessionId(v)) == NormalizeSessionId(v)
  {
  }

  // ---------------------------------------------------------------------------
  // Service checks
  // ---------------------------------------------------------------------------

  /** `_validate_session_id`. `lookup` is the repository's session lookup: found, not found, or an error. */
  function ValidateSessionId(sessionId: Option<string>, lookup: string -> Result<bool, string>): (r: Option<string>)
    ensures r.Some? <==> sessionId.Some? && !IsPlaceholder(sessionId.value) && lookup(sessionId.value) == Ok(true)
    ensures r.Some? ==> r == sessionId
  {
    if sessionId.None? then None
    else if IsPlaceholder(sessionId.value) then None
    else
      match lookup(sessionId.value)
      case Ok(found) => if found then sessionId else None
      case Err(_) => None
  }

  /** After the schema has normalised it, the service's placeholder check never fires again. */
  lemma ValidateAfterSchema(v: Option<string>, lookup: string -> Result<bool, string>)
    ensures ValidateSessionId(NormalizeSessionId(v), lookup) == ValidateSessionId(v, lookup)
  {
  }

  /** The prompt check of `create_query` and `extract`: an empty or white-space-only prompt. */
  function PromptError(prompt: string): (r: Option<E.AppError>)
    ensures r.Some? <==> forall i :: 0 <= i < |prompt| ==> IsSpace(prompt[i])
    ensures r.Some? ==> (r.value.cls == E.QueryValidation &&
      r.value.errorCode == "QUERY_VALIDATION_ERROR" && r.value.message == Some("Prompt cannot be empty") &&
      r.value.details == map["prompt" := prompt])
  {
    StripEmptyIffBlank(prompt);
    if prompt == "" || Strip(prompt) == "" then
      Some(RaiseValidationError(QueryValidationError, Some("Prompt cannot be empty"), Some(map["prompt" := prompt])))
    else None
  }

  /** The limit and offset checks of `get_queries` and `get_sessions`, with their validation code. */
  function PageError(limit: int, offset: int, code: QueryErrorCode): (r: Option<E.AppError>)
    ensures r.None? <==> limit >= 1 && offset >= 0
    ensures r.Some? ==> r.value.cls == E.QueryValidation && r.value.errorCode == CodeValue(code)
    ensures limit < 1 ==> (r.Some? && r.value.message == Some("Limit must be at least 1") &&
      r.value.details == map["limit" := IntToString(limit)])
    ensures limit >= 1 && offset < 0 ==> (r.Some? && r.value.message == Some("Offset cannot be negative") &&
      r.value.details == map["offset" := IntToString(offset)])
  {
    if limit < 1 then
      Some(RaiseValidationError(code, Some("Limit must be at least 1"), Some(map["limit" := IntToString(limit)])))
    else if offset < 0 then
      Some(RaiseValidationError(code, Some("Offset cannot be negative"), Some(map["offset" := IntToString(offset)])))
    else None
  }

  /** The title rule of `create_session` and `update_session`: a blank title becomes None. */
  function NormalizeTitle(title: Option<string>): (r: Option<string>)
    ensures r.None? <==> title.None? || forall i :: 0 <= i < |title.value| ==> IsSpace(title.value[i])
    ensures r.Some? ==> r == title
  {
    if title.None? then None
    else
      StripEmptyIffBlank(title.value);
      if Strip(title.value) == "" then None else title
  }

  /** A message of a chat request. */
  datatype ChatMessage = ChatMessage(role: string, content: string)

  function ChatLine(m: ChatMessage): string
  {
    m.role + ": " + m.content
  }

  function ChatLines(ms: seq<ChatMessage>): (r: seq<string>)
    ensures |r| == |ms|
    ensures forall i :: 0 <= i < |ms| ==> r[i] == ChatLine(ms[i])
  {
    seq(|ms|, i requires 0 <= i < |ms| => ChatLine(ms[i]))
  }

  /** The prompt `chat` stores for logging: one "role: content" line per message. */
  function CombinedPrompt(ms: seq<ChatMessage>): string
  {
    Join(ChatLines(ms), "\n")
  }

  /** The empty-conversation check of `chat`. */
  function ChatMessagesError(ms: seq<ChatMessage>): (r: Option<E.AppError>)
    ensures r.Some? <==> |ms| == 0
    ensures r.Some? ==> (r.value.cls == E.QueryValidation && r.value.errorCode == "QUERY_VALIDATION_ERROR" &&
      r.value.message == Some("Chat messages cannot be empty") && r.value.details == map["messages" := "[]"])
  {
    if |ms| == 0 then
      Some(RaiseValidationError(QueryValidationError, Some("Chat messages cannot be empty"), Some(map["messages" := "[]"])))
    else None
  }

  lemma ChatLineLacksNewline(m: ChatMessage)
    requires '\n' !in m.role && '\n' !in m.content
    ensures '\n' !in ChatLine(m)
  {
    var line := ChatLine(m);
    forall j | 0 <= j < |line|
      ensures line[j] != '\n'
    {
      if j < |m.role| {
        assert line[j] == m.role[j];
      } else if j >= |m.role| + 2 {
        assert line[j] == m.content[j - |m.role| - 2];
      }
    }
  }

  /**
   * The stored prompt keeps the conversation: when no role or content holds a line break,
   * splitting it at line breaks gives back one "role: content" line per message, in order.
   */
  lemma CombinedPromptLines(ms: seq<ChatMessage>)
    requires |ms| >= 1
    requires forall i :: 0 <= i < |ms| ==> '\n' !in ms[i].role && '\n' !in ms[i].content
    ensures Split(CombinedPrompt(ms), '\n') == ChatLines(ms)
  {
    var lines := ChatLines(ms);
    forall i | 0 <= i < |lines|
      ensures '\n' !in lines[i]
    {
      ChatLineLacksNewline(ms[i]);
    }
    SplitJoin(lines, '\n');
  }

  // ---------------------------------------------------------------------------
  // The session id handed to the repository when a query record is created
  // ---------------------------------------------------------------------------

  /** Whether a function follows the code as written or the evidently intended behaviour. */
  datatype Handling = AsWritten | Corrected

  /** `create_query` stores the id `_validate_session_id` returned. */
  function CreateQuerySessionId(requested: Option<string>, lookup: string -> Result<bool, string>): (r: Option<string>)
    ensures r.Some? ==> r == requested && lookup(r.value) == Ok(true)
  {
    ValidateSessionId(requested, lookup)
  }

  /**
   * The session id `chat` and `extract` pass to the repository's `create_query`. As written
   * they validate a truthy id but discard the result and pass the requested id; corrected,
   * they pass the validated one, as the service's `create_query` does.
   */
  function RecordSessionId(requested: Option<string>, lookup: string -> Result<bool, string>, h: Handling): (r: Option<string>)
    ensures h == AsWritten ==> r == requested
    ensures r.Some? ==> r == requested
    ensures h == Corrected && requested.Some? && requested.value != "" ==>
      (r.Some? <==> !IsPlaceholder(requested.value) && lookup(requested.value) == Ok(true))
  {
    var validated := if requested.Some? && requested.value != "" then ValidateSessionId(requested, lookup) else requested;
    if h == AsWritten then requested else validated
  }

  /**
   * The repository's `create_query` checks a given session id once more and stores None in
   * place of one whose session it cannot find, or whose lookup raised.
   */
  function RepositorySessionId(sessionId: Option<string>, lookup: string -> Result<bool, string>): (r: Option<string>)
    ensures r.Some? <==> sessionId.Some? && lookup(sessionId.value) == Ok(true)
    ensures r.Some? ==> r == sessionId
  {
    if sessionId.None? then None
    else
      match lookup(sessionId.value)
      case Ok(found) => if found then sessionId else None
      case Err(_) => None
  }

  /**
   * As written, `chat` passes a session id that names no session on to the repository,
   * whose own check then stores None in its place.
   */
  lemma ChatPassesUnknownSessionAsWritten(id: string, lookup: string -> Result<bool, string>)
    requires NormalizeSessionId(Some(id)) == Some(id) && lookup(id) == Ok(false)
    ensures RecordSessionId(Some(id), lookup, AsWritten) == Some(id)
    ensures CreateQuerySessionId(Some(id), lookup) == None
    ensures RepositorySessionId(RecordSessionId(Some(id), lookup, AsWritten), lookup) == None
  {
  }

  /**
   * The discarded validation does not change the stored row: after the repository's check,
   * `chat` stores the same session id as written and corrected, and only one that exists.
   */
  lemma ChatStoredSessionUnaffected(raw: Option<string>, lookup: string -> Result<bool, string>)
    ensures RepositorySessionId(RecordSessionId(NormalizeSessionId(raw), lookup, AsWritten), lookup) ==
      RepositorySessionId(RecordSessionId(NormalizeSessionId(raw), lookup, Corrected), lookup)
    ensures var r := RepositorySessionId(RecordSessionId(NormalizeSessionId(raw), lookup, AsWritten), lookup);
      r.Some? ==> r == raw && lookup(r.value) == Ok(true)
  {
    var n := NormalizeSessionId(raw);
    if n.Some? && n.value != "" {
      assert RecordSessionId(n, lookup, Corrected) == ValidateSessionId(n, lookup);
    }
  }

  /**
   * Corrected, a request that went through the schema stores a session id only when the
   * session exists, exactly as `create_query` does.
   */
  lemma ChatStoresOnlyKnownSessions(raw: Option<string>, lookup: string -> Result<bool, string>)
    ensures RecordSessionId(NormalizeSessionId(raw), lookup, Corrected) == CreateQuerySessionId(raw, lookup)
    ensures var r := RecordSessionId(NormalizeSessionId(raw), lookup, Corrected);
      r.Some? ==> r == raw && lookup(r.value) == Ok(true)
  {
    var n := NormalizeSessionId(raw);
    if raw.Some? && raw.value == "" {
      EmptyIsPlaceholder();
      assert n == None;
    } else {
      assert n.Some? ==> n.value != "";
      ValidateAfterSchema(raw, lookup);
      assert RecordSessionId(n, lookup, Corrected) == ValidateSessionId(n, lookup);
    }
  }

  /** The empty id is a placeholder. */
  lemma EmptyIsPlaceholder()
    ensures IsPlaceholder("")
  {
    assert Lower("") == "" && Strip("") == "";
  }

  // ---------------------------------------------------------------------------
  // Error handling around the repository
  // ---------------------------------------------------------------------------

  /** Whether `except (kept...)` catches the failure. */
  predicate CaughtBy(f: E.Failure, kept: seq<E.ExceptionClass>)
  {
    |kept| > 0 && (f.IsA(kept[0]) || CaughtBy(f, kept[1..]))
  }

  lemma CaughtByOne(f: E.Failure, a: E.ExceptionClass)
    ensures CaughtBy(f, [a]) <==> f.IsA(a)
  {
    assert [a][1..] == [];
  }

  lemma CaughtByTwo(f: E.Failure, a: E.ExceptionClass, b: E.ExceptionClass)
    ensures CaughtBy(f, [a, b]) <==> f.IsA(a) || f.IsA(b)
  {
    assert [a, b][1..] == [b];
    CaughtByOne(f, b);
  }

  /** A QueryServiceException passes none of the handlers that re-raise not-found, validation or session-id errors. */
  lemma ServiceErrorNotKept(f: E.Failure)
    ensures f.Raised? && f.error.cls == E.QueryService ==> (
      !CaughtBy(f, []) && !CaughtBy(f, [E.QueryNotFound]) && !CaughtBy(f, [E.QueryValidation]) &&
      !CaughtBy(f, [E.QueryNotFound, E.QueryValidation]) && !CaughtBy(f, [E.QueryValidation, E.InvalidSessionId]))
  {
    assert E.Mro(E.QueryService) == [E.QueryService, E.Service, E.QueryBase, E.AppExc];
    CaughtByOne(f, E.QueryNotFound);
    CaughtByOne(f, E.QueryValidation);
    CaughtByTwo(f, E.QueryNotFound, E.QueryValidation);
    CaughtByTwo(f, E.QueryValidation, E.InvalidSessionId);
  }

  /**
   * The two-clause handler `except (kept...): raise` followed by `except Exception as e:
   * raise_service_error(code, prefix + str(e), details | {"error": str(e)})`.
   */
  function Rewrap(f: E.Failure, kept: seq<E.ExceptionClass>, code: QueryErrorCode, prefix: string,
                  details: map<string, string>): (g: E.Failure)
    ensures CaughtBy(f, kept) ==> g == f
    ensures !CaughtBy(f, kept) ==> (g.Raised? && g.error.cls == E.QueryService &&
      g.error.errorCode == CodeValue(code) && g.error.message == Some(prefix + f.Str()) &&
      g.error.details == details["error" := f.Str()])
  {
    if CaughtBy(f, kept) then f
    else E.Raised(RaiseServiceError(code, Some(prefix + f.Str()), Some(details["error" := f.Str()])))
  }

  /** The two record kinds the service updates and lists. */
  datatype Entity = QueryEntity | SessionEntity

  /** The message of the not-found `update_*` raises when the repository returns no row. */
  function NotUpdatedPrefix(e: Entity): string
  {
    match e
    case QueryEntity => "Failed to update query with ID "
    case SessionEntity => "Failed to update session with ID "
  }

  /** The message prefixes of the inner and the outer handler of `update_*`. */
  function UpdateErrorPrefix(e: Entity): string
  {
    match e
    case QueryEntity => "Error updating query: "
    case SessionEntity => "Error updating session: "
  }

  function UnexpectedUpdatePrefix(e: Entity): string
  {
    match e
    case QueryEntity => "Unexpected error updating query: "
    case SessionEntity => "Unexpected error updating session: "
  }

  function IdKey(e: Entity): string
  {
    match e
    case QueryEntity => "query_id"
    case SessionEntity => "session_id"
  }

  function NotFoundCode(e: Entity): QueryErrorCode
  {
    match e
    case QueryEntity => QueryNotFound
    case SessionEntity => SessionNotFound
  }

  /** The validation code, which the update handlers also use for the service errors they raise. */
  function InvalidCode(e: Entity): QueryErrorCode
  {
    match e
    case QueryEntity => QueryValidationError
    case SessionEntity => SessionValidationError
  }

  /** A repository call's outcome: its result, or the text of the exception it raised. */
  function Attempted<T>(r: Result<T, string>): Result<T, E.Failure>
  {
    match r
    case Ok(v) => Ok(v)
    case Err(t) => Err(E.Uncaught(t))
  }

  /** The `get_query` as written: its generic handler names a member the enum lacks. */
  function GetQueryAsWritten<Row>(queryId: string, found: Result<Option<Row>, string>): (r: Result<Row, E.Failure>)
    ensures found.Ok? && found.value.Some? ==> r == Ok(found.value.value)
    ensures found.Ok? && found.value.None? ==> r.Err? && r.error.Raised? && r.error.error.cls == E.QueryNotFound
    ensures found.Err? ==> r == Err(E.Uncaught(AttributeErrorText))
  {
    NoQueryServiceErrorMember();
    var attempt: Result<Row, E.Failure> :=
      match found
      case Err(t) => Err(E.Uncaught(t))
      case Ok(None) =>
        Err(E.Raised(RaiseQueryError(QueryNotFound, Some("Query with ID '" + queryId + "' not found"),
                                     Some(map["query_id" := queryId]))))
      case Ok(Some(row)) => Ok(row);
    match attempt
    case Ok(row) => Ok(row)
    case Err(f) =>
      if f.IsA(E.QueryNotFound) then Err(f)
      else
        match MemberNamed(QueryServiceErrorName)
        case None => Err(E.Uncaught(AttributeErrorText))
        case Some(code) =>
          Err(E.Raised(RaiseServiceError(code, Some("Error retrieving query: " + f.Str()), Some(map["error" := f.Str()]))))
  }

  /** `str()` of the AttributeError raised by the lookup of a missing enum member. */
  const AttributeErrorText := "type object 'QueryErrorCode' has no attribute 'QUERY_SERVICE_ERROR'"

  /**
   * As written, a repository error in `get_query` does not become a QueryServiceException:
   * building it raises AttributeError, which no application handler maps to a response.
   */
  lemma GetQueryRepositoryErrorAsWritten<Row>(queryId: string, t: string)
    ensures GetQueryAsWritten<Row>(queryId, Err(t)) == Err(E.Uncaught(AttributeErrorText))
  {
    NoQueryServiceErrorMember();
  }

  /** `get_query` with the generic handler raising the QueryServiceException it evidently means. */
  function GetQuery<Row>(queryId: string, found: Result<Option<Row>, string>): (r: Result<Row, E.Failure>)
    ensures found.Ok? && found.value.Some? ==> r == Ok(found.value.value)
    ensures found.Ok? && found.value.None? ==> (r.Err? && r.error.Raised? &&
      r.error.error.cls == E.QueryNotFound && r.error.error.errorCode == "QUERY_NOT_FOUND" &&
      r.error.error.message == Some("Query with ID '" + queryId + "' not found") &&
      r.error.error.details == map["query_id" := queryId])
    ensures found.Err? ==> (r.Err? && r.error.Raised? && r.error.error.cls == E.QueryService &&
      r.error.error.errorCode == QueryServiceErrorName &&
      r.error.error.message == Some("Error retrieving query: " + found.error))
  {
    match found
    case Err(t) =>
      Err(E.Raised(E.NewError(E.QueryService, Some(QueryServiceErrorName),
                              E.Message(Some("Error retrieving query: " + t)), Some(map["error" := t]))))
    case Ok(None) =>
      Err(E.Raised(RaiseQueryError(QueryNotFound, Some("Query with ID '" + queryId + "' not found"),
                                   Some(map["query_id" := queryId]))))
    case Ok(Some(row)) => Ok(row)
  }

  /** Corrected, every failure of `get_query` is an application error: 404 when missing, 500 otherwise. */
  lemma GetQueryFailuresAnswered<Row>(queryId: string, found: Result<Option<Row>, string>)
    ensures GetQuery(queryId, found).Err? ==> GetQuery(queryId, found).error.Raised?
    ensures found.Ok? && found.value.None? ==> GetQuery(queryId, found).error.error.Status() == 404
    ensures found.Err? ==> GetQuery(queryId, found).error.error.Status() == 500
    ensures found.Ok? ==> GetQuery(queryId, found) == GetQueryAsWritten(queryId, found)
  {
    E.StatusTable(E.QueryNotFound);
    E.StatusTable(E.QueryService);
  }

  /** `get_session`: an empty id is refused; the lookup is not guarded. */
  function GetSession<Row>(sessionId: string, found: Result<Option<Row>, string>): (r: Result<Row, E.Failure>)
    ensures sessionId == "" ==> (r.Err? && r.error.Raised? && r.error.error.cls == E.QueryValidation &&
      r.error.error.message == Some("Session ID cannot be empty"))
    ensures sessionId != "" && found.Err? ==> r == Err(E.Uncaught(found.error))
    ensures sessionId != "" && found.Ok? && found.value.None? ==> (r.Err? && r.error.Raised? &&
      r.error.error.cls == E.QueryNotFound && r.error.error.errorCode == "SESSION_NOT_FOUND" &&
      r.error.error.message == Some("Session with ID " + sessionId + " not found"))
    ensures r.Ok? <==> sessionId != "" && found.Ok? && found.value.Some?
  {
    if sessionId == "" then
      Err(E.Raised(RaiseValidationError(SessionValidationError, Some("Session ID cannot be empty"),
                                        Some(map["session_id" := sessionId]))))
    else
      match found
      case Err(t) => Err(E.Uncaught(t))
      case Ok(None) =>
        Err(E.Raised(RaiseQueryError(SessionNotFound, Some("Session with ID " + sessionId + " not found"),
                                     Some(map["session_id" := sessionId]))))
      case Ok(Some(row)) => Ok(row)
  }

  /**
   * The inner `try` of `update_query` and `update_session` around the repository update:
   * no row back raises the entity's not-found error, and the following `except Exception`
   * wraps whatever was raised, including that not-found (corrected: except the not-found).
   */
  function StoreStep<Row>(e: Entity, id: string, stored: Result<Option<Row>, string>, h: Handling): (r: Result<Row, E.Failure>)
    ensures r.Ok? <==> stored.Ok? && stored.value.Some?
    ensures r.Ok? ==> r.value == stored.value.value
    ensures stored.Err? ==>
      r.Err? && r.error.Raised? && r.error.error.cls == E.QueryService &&
      r.error.error.message == Some(UpdateErrorPrefix(e) + stored.error)
    ensures stored == Ok(None) && h == Corrected ==>
      r.Err? && r.error.Raised? && r.error.error.cls == E.QueryNotFound &&
      r.error.error.message == Some(NotUpdatedPrefix(e) + id)
  {
    var attempt: Result<Row, E.Failure> :=
      match stored
      case Err(t) => Err(E.Uncaught(t))
      case Ok(None) =>
        Err(E.Raised(RaiseQueryError(NotFoundCode(e), Some(NotUpdatedPrefix(e) + id),
                                     Some(map[IdKey(e) := id]))))
      case Ok(Some(row)) => Ok(row);
    match attempt
    case Ok(row) => Ok(row)
    case Err(f) =>
      CaughtByOne(f, E.QueryNotFound);
      Err(Rewrap(f, if h == Corrected then [E.QueryNotFound] else [], InvalidCode(e),
                 UpdateErrorPrefix(e), map[IdKey(e) := id]))
  }

  /** The outer handler of both updates: not-found and validation errors pass, the rest is wrapped. */
  function UpdateHandler<Row>(e: Entity, id: string, attempt: Result<Row, E.Failure>): (r: Result<Row, E.Failure>)
    ensures attempt.Ok? ==> r == attempt
    ensures attempt.Err? && (attempt.error.IsA(E.QueryNotFound) || attempt.error.IsA(E.QueryValidation)) ==> r == attempt
    ensures attempt.Err? && !attempt.error.IsA(E.QueryNotFound) && !attempt.error.IsA(E.QueryValidation) ==>
      r.Err? && r.error.Raised? && r.error.error.cls == E.QueryService &&
      r.error.error.message == Some(UnexpectedUpdatePrefix(e) + attempt.error.Str())
  {
    match attempt
    case Ok(row) => Ok(row)
    case Err(f) =>
      CaughtByTwo(f, E.QueryNotFound, E.QueryValidation);
      Err(Rewrap(f, [E.QueryNotFound, E.QueryValidation], InvalidCode(e),
                 UnexpectedUpdatePrefix(e), map[IdKey(e) := id]))
  }

  /** The fields of QueryUpdate this model keeps (the temperature is a float and is not modelled). */
  datatype QueryChanges = QueryChanges(prompt: Option<string>, maxTokens: Option<int>,
                                       parameters: Option<map<string, string>>)

  predicate BlankPrompt(prompt: Option<string>)
  {
    prompt.Some? && Strip(prompt.value) == ""
  }

  /**
   * What `update_query` returns or raises. `fetched` is the outcome of its `get_query` call
   * and `store` the repository update for the changes it is given.
   */
  function UpdateQueryOutcome<Row>(queryId: string, changes: QueryChanges, fetched: Result<Row, E.Failure>,
                                   store: QueryChanges -> Result<Option<Row>, string>, h: Handling): (r: Result<Row, E.Failure>)
    ensures r.Ok? ==>
      fetched.Ok? && !BlankPrompt(changes.prompt) &&
      store(changes.(maxTokens := NormalizeMaxTokens(changes.maxTokens))) == Ok(Some(r.value))
  {
    var attempt: Result<Row, E.Failure> :=
      if fetched.Err? then Err(fetched.error)
      else if BlankPrompt(changes.prompt) then
        Err(E.Raised(RaiseValidationError(QueryValidationError, Some("Prompt cannot be empty"),
                                          Some(map["prompt" := changes.prompt.value]))))
      else StoreStep(QueryEntity, queryId, store(changes.(maxTokens := NormalizeMaxTokens(changes.maxTokens))), h);
    UpdateHandler(QueryEntity, queryId, attempt)
  }

  /**
   * As written, a query that is gone by the time the update runs is reported as a 500
   * service error whose message wraps the not-found message twice.
   */
  lemma UpdateNotFoundAsWritten<Row>(queryId: string, changes: QueryChanges, row: Row,
                                     store: QueryChanges -> Result<Option<Row>, string>)
    requires !BlankPrompt(changes.prompt)
    requires store(changes.(maxTokens := NormalizeMaxTokens(changes.maxTokens))) == Ok(None)
    ensures var r := UpdateQueryOutcome(queryId, changes, Ok(row), store, AsWritten);
      r.Err? && r.error.Raised? && r.error.error.cls == E.QueryService && r.error.error.Status() == 500 &&
      r.error.error.message ==
        Some("Unexpected error updating query: " + ("Error updating query: " + ("Failed to update query with ID " + queryId)))
  {
    var inner := RaiseQueryError(QueryNotFound, Some("Failed to update query with ID " + queryId),
                                 Some(map["query_id" := queryId]));
    assert !CaughtBy(E.Raised(inner), []);
    assert E.Raised(inner).Str() == "Failed to update query with ID " + queryId;
    var middle := Rewrap(E.Raised(inner), [], QueryValidationError, "Error updating query: ", map["query_id" := queryId]);
    assert middle.Str() == "Error updating query: " + ("Failed to update query with ID " + queryId);
    var stored := store(changes.(maxTokens := NormalizeMaxTokens(changes.maxTokens)));
    assert StoreStep<Row>(QueryEntity, queryId, stored, AsWritten) == Err(middle);
    assert UpdateQueryOutcome(queryId, changes, Ok(row), store, AsWritten) == UpdateHandler(QueryEntity, queryId, Err(middle));
    ServiceErrorNotKept(middle);
    E.StatusTable(E.QueryService);
  }

  /** Corrected, that case is the 404 `update_query` documents, with the not-found message. */
  lemma UpdateNotFound<Row>(queryId: string, changes: QueryChanges, row: Row,
                            store: QueryChanges -> Result<Option<Row>, string>)
    requires !BlankPrompt(changes.prompt)
    requires store(changes.(maxTokens := NormalizeMaxTokens(changes.maxTokens))) == Ok(None)
    ensures var r := UpdateQueryOutcome(queryId, changes, Ok(row), store, Corrected);
      r.Err? && r.error.Raised? && r.error.error.cls == E.QueryNotFound && r.error.error.Status() == 404 &&
      r.error.error.message == Some("Failed to update query with ID " + queryId)
  {
    var inner := RaiseQueryError(QueryNotFound, Some("Failed to update query with ID " + queryId),
                                 Some(map["query_id" := queryId]));
    assert E.Raised(inner).IsA(E.QueryNotFound);
    CaughtByOne(E.Raised(inner), E.QueryNotFound);
    CaughtByTwo(E.Raised(inner), E.QueryNotFound, E.QueryValidation);
    E.StatusTable(E.QueryNotFound);
  }

  /**
   * Either way, a missing query and a blank prompt are refused before the repository
   * update is consulted, and a successful update stored the normalised token limit.
   */
  lemma UpdateQueryChecks<Row>(queryId: string, changes: QueryChanges, fetched: Result<Row, E.Failure>,
                               store: QueryChanges -> Result<Option<Row>, string>, h: Handling)
    ensures fetched.Err? && CaughtBy(fetched.error, [E.QueryNotFound, E.QueryValidation]) ==>
      UpdateQueryOutcome(queryId, changes, fetched, store, h) == Err(fetched.error)
    ensures fetched.Ok? && BlankPrompt(changes.prompt) ==> (
      var r := UpdateQueryOutcome(queryId, changes, fetched, store, h);
      r.Err? && r.error.Raised? && r.error.error.cls == E.QueryValidation &&
      r.error.error.message == Some("Prompt cannot be empty"))
    ensures UpdateQueryOutcome(queryId, changes, fetched, store, h).Ok? ==> (
      fetched.Ok? && !BlankPrompt(changes.prompt) &&
      store(changes.(maxTokens := NormalizeMaxTokens(changes.maxTokens))) ==
        Ok(Some(UpdateQueryOutcome(queryId, changes, fetched, store, h).value)))
  {
    if fetched.Ok? && BlankPrompt(changes.prompt) {
      var e := RaiseValidationError(QueryValidationError, Some("Prompt cannot be empty"),
                                    Some(map["prompt" := changes.prompt.value]));
      assert E.Mro(E.QueryValidation) == [E.QueryValidation, E.Validation, E.BadRequest, E.QueryBase, E.AppExc];
      CaughtByTwo(E.Raised(e), E.QueryNotFound, E.QueryValidation);
    }
  }

  /** QueryUpdate as `update_query` receives it: the service overwrites its `max_tokens`. */
  class QueryUpdateForm {
    var prompt: Option<string>
    var maxTokens: Option<int>
    var parameters: Option<map<string, string>>

    constructor (prompt: Option<string>, maxTokens: Option<int>, parameters: Option<map<string, string>>)
      ensures this.prompt == prompt && this.maxTokens == maxTokens && this.parameters == parameters
    {
      this.prompt := prompt;
      this.maxTokens := maxTokens;
      this.parameters := parameters;
    }

    function Changes(): QueryChanges
      reads this
    {
      QueryChanges(prompt, maxTokens, parameters)
    }
  }

  /**
   * `update_query`, with the not-found handling corrected: it checks the prompt, clears a
   * non-positive `max_tokens` on the form it was given, and hands the form to the repository.
   */
  method UpdateQuery<Row>(queryId: string, form: QueryUpdateForm, fetched: Result<Row, E.Failure>,
                          store: QueryChanges -> Result<Option<Row>, string>) returns (r: Result<Row, E.Failure>)
    modifies form
    ensures r == UpdateQueryOutcome(queryId, old(form.Changes()), fetched, store, Corrected)
    ensures form.prompt == old(form.prompt) && form.parameters == old(form.parameters)
    ensures form.maxTokens ==
      if fetched.Ok? && !BlankPrompt(old(form.prompt)) then NormalizeMaxTokens(old(form.maxTokens)) else old(form.maxTokens)
  {
    if fetched.Err? {
      r := UpdateHandler(QueryEntity, queryId, Err(fetched.error));
      return;
    }
    if form.prompt.Some? && Strip(form.prompt.value) == "" {
      var e := RaiseValidationError(QueryValidationError, Some("Prompt cannot be empty"),
                                    Some(map["prompt" := form.prompt.value]));
      r := UpdateHandler(QueryEntity, queryId, Err(E.Raised(e)));
      return;
    }
    if form.maxTokens.Some? && form.maxTokens.value <= 0 {
      form.maxTokens := None;
    }
    var stored := store(form.Changes());
    r := UpdateHandler(QueryEntity, queryId, StoreStep(QueryEntity, queryId, stored, Corrected));
  }

  /** The fields of QuerySessionUpdate. */
  datatype SessionChanges = SessionChanges(title: Option<string>, isActive: Option<bool>)

  /** What `update_session` returns or raises; `fetched` is the outcome of its `get_session` call. */
  function UpdateSessionOutcome<Row>(sessionId: string, changes: SessionChanges, fetched: Result<Row, E.Failure>,
                                     store: SessionChanges -> Result<Option<Row>, string>, h: Handling): (r: Result<Row, E.Failure>)
    ensures r.Ok? ==> fetched.Ok? && store(changes.(title := NormalizeTitle(changes.title))) == Ok(Some(r.value))
  {
    var attempt: Result<Row, E.Failure> :=
      if fetched.Err? then Err(fetched.error)
      else StoreStep(SessionEntity, sessionId, store(changes.(title := NormalizeTitle(changes.title))), h);
    UpdateHandler(SessionEntity, sessionId, attempt)
  }

  /** The session update shares the query update's defect, and its correction. */
  lemma UpdateSessionNotFound<Row>(sessionId: string, changes: SessionChanges, row: Row,
                                   store: SessionChanges -> Result<Option<Row>, string>)
    requires store(changes.(title := NormalizeTitle(changes.title))) == Ok(None)
    ensures var r := UpdateSessionOutcome(sessionId, changes, Ok(row), store, AsWritten);
      r.Err? && r.error.Raised? && r.error.error.Status() == 500
    ensures var r := UpdateSessionOutcome(sessionId, changes, Ok(row), store, Corrected);
      r.Err? && r.error.Raised? && r.error.error.Status() == 404 &&
      r.error.error.errorCode == "SESSION_NOT_FOUND"
  {
    var inner := RaiseQueryError(SessionNotFound, Some("Failed to update session with ID " + sessionId),
                                 Some(map["session_id" := sessionId]));
    assert E.Raised(inner).IsA(E.QueryNotFound);
    CaughtByOne(E.Raised(inner), E.QueryNotFound);
    CaughtByTwo(E.Raised(inner), E.QueryNotFound, E.QueryValidation);
    var middle := Rewrap(E.Raised(inner), [], SessionValidationError, "Error updating session: ",
                         map["session_id" := sessionId]);
    ServiceErrorNotKept(middle);
    E.StatusTable(E.QueryService);
    E.StatusTable(E.QueryNotFound);
  }

  /** QuerySessionUpdate as `update_session` receives it: the service overwrites a blank title. */
  class SessionUpdateForm {
    var title: Option<string>
    var isActive: Option<bool>

    constructor (title: Option<string>, isActive: Option<bool>)
      ensures this.title == title && this.isActive == isActive
    {
      this.title := title;
      this.isActive := isActive;
    }

    function Changes(): SessionChanges
      reads this
    {
      SessionChanges(title, isActive)
    }
  }

  /** `update_session`, with the not-found handling corrected. */
  method UpdateSession<Row>(sessionId: string, form: SessionUpdateForm, fetched: Result<Row, E.Failure>,
                            store: SessionChanges -> Result<Option<Row>, string>) returns (r: Result<Row, E.Failure>)
    modifies form
    ensures r == UpdateSessionOutcome(sessionId, old(form.Changes()), fetched, store, Corrected)
    ensures form.isActive == old(form.isActive)
    ensures form.title == if fetched.Ok? then NormalizeTitle(old(form.title)) else old(form.title)
  {
    if fetched.Err? {
      r := UpdateHandler(SessionEntity, sessionId, Err(fetched.error));
      return;
    }
    if form.title.Some? && Strip(form.title.value) == "" {
      form.title := None;
    }
    var stored := store(form.Changes());
    r := UpdateHandler(SessionEntity, sessionId, StoreStep(SessionEntity, sessionId, stored, Corrected));
  }

  /** The message prefixes of the inner and the outer handler of `get_queries` and `get_sessions`. */
  function ListErrorPrefix(e: Entity): string
  {
    match e
    case QueryEntity => "Error retrieving queries: "
    case SessionEntity => "Error retrieving sessions: "
  }

  function UnexpectedListPrefix(e: Entity): string
  {
    match e
    case QueryEntity => "Unexpected error retrieving queries: "
    case SessionEntity => "Unexpected error retrieving sessions: "
  }

  /** The code the listing handlers raise service errors with. */
  function ListingCode(e: Entity): QueryErrorCode
  {
    match e
    case QueryEntity => ServiceLlmProviderError
    case SessionEntity => SessionValidationError
  }

  /** The classes the outer handler of a listing re-raises unchanged. */
  function ListingKept(e: Entity): seq<E.ExceptionClass>
  {
    if e == QueryEntity then [E.QueryValidation, E.InvalidSessionId] else [E.QueryValidation]
  }

  /** The outer handler of a listing keeps a page error and wraps a service error. */
  lemma ListingKeptRule(f: E.Failure, e: Entity)
    ensures f.Raised? && f.error.cls == E.QueryValidation ==> CaughtBy(f, ListingKept(e))
    ensures f.Raised? && f.error.cls == E.QueryService ==> !CaughtBy(f, ListingKept(e))
  {
    assert E.Mro(E.QueryValidation) == [E.QueryValidation, E.Validation, E.BadRequest, E.QueryBase, E.AppExc];
    CaughtByOne(f, E.QueryValidation);
    CaughtByTwo(f, E.QueryValidation, E.InvalidSessionId);
    ServiceErrorNotKept(f);
  }

  /**
   * What `get_queries` and `get_sessions` return or raise once their filters are fixed.
   * `listed` is the repository's answer; the outer handler lets validation errors through
   * (and InvalidSessionIdException for queries) and wraps the rest a second time.
   */
  function ListOutcome<Row>(e: Entity, limit: int, offset: int, listed: Result<seq<Row>, string>): (r: Result<seq<Row>, E.Failure>)
    ensures PageError(limit, offset, InvalidCode(e)).Some? ==> r == Err(E.Raised(PageError(limit, offset, InvalidCode(e)).value))
    ensures PageError(limit, offset, InvalidCode(e)).None? && listed.Ok? ==> r == Ok(listed.value)
    ensures PageError(limit, offset, InvalidCode(e)).None? && listed.Err? ==> (r.Err? && r.error.Raised? &&
      r.error.error.cls == E.QueryService && r.error.error.errorCode == CodeValue(ListingCode(e)) &&
      r.error.error.message ==
        Some(UnexpectedListPrefix(e) + (ListErrorPrefix(e) + listed.error)))
  {
    var attempt: Result<seq<Row>, E.Failure> :=
      match PageError(limit, offset, InvalidCode(e))
      case Some(err) => Err(E.Raised(err))
      case None =>
        match listed
        case Ok(rows) => Ok(rows)
        case Err(t) =>
          Err(Rewrap(E.Uncaught(t), [], ListingCode(e), ListErrorPrefix(e), map[]));
    match attempt
    case Ok(rows) => Ok(rows)
    case Err(f) =>
      ListingKeptRule(f, e);
      Err(Rewrap(f, ListingKept(e), ListingCode(e), UnexpectedListPrefix(e), map[]))
  }

  /** The session filter `get_queries` passes on: a truthy id is replaced by its validation. */
  function QueryListFilter(sessionId: Option<string>, lookup: string -> Result<bool, string>): (r: Option<string>)
    ensures sessionId.Some? && sessionId.value != "" ==> r == ValidateSessionId(sessionId, lookup)
    ensures !(sessionId.Some? && sessionId.value != "") ==> r == sessionId
  {
    if sessionId.Some? && sessionId.value != "" then ValidateSessionId(sessionId, lookup) else sessionId
  }

  /**
   * A listing whose session filter names no session is not refused: the filter is dropped,
   * and the call lists the queries without one.
   */
  lemma UnknownSessionFilterDropped(id: string, lookup: string -> Result<bool, string>)
    requires id != "" && lookup(id) != Ok(true)
    ensures QueryListFilter(Some(id), lookup) == None
  {
  }

  /** Page errors are answered 400, and they come before any repository call. */
  lemma ListingPageErrors<Row>(e: Entity, limit: int, offset: int, listed: Result<seq<Row>, string>)
    requires limit < 1 || offset < 0
    ensures ListOutcome(e, limit, offset, listed).Err?
    ensures ListOutcome(e, limit, offset, listed).error.Raised?
    ensures ListOutcome(e, limit, offset, listed).error.error.Status() == 400
    ensures forall other: Result<seq<Row>, string> :: ListOutcome(e, limit, offset, other) == ListOutcome(e, limit, offset, listed)
  {
    E.StatusTable(E.QueryValidation);
  }
}
