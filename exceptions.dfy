/**
 * The exception taxonomy of kitchen/core/exceptions and the domain error modules: every
 * exception class with its Python method resolution order, the class attributes
 * `status_code`, `error_code` and `domain` it resolves through that order, the default
 * message of its constructor, `AppException.to_dict`, and the helpers of
 * kitchen/core/exceptions/utils.py.
 */
module Errors {
  import opened Wrappers
  import opened Text

  datatype ExceptionClass =
    | AppExc | BadRequest | Unauthorized | Forbidden | NotFound | Conflict
    | Validation | Service | Database | ExternalService
    | AuthBase | AuthCredential | AuthPermission | AuthToken
    | QueryBase | QueryNotFound | QueryValidation | QueryService | InvalidSessionId

  /** The method resolution order Python computes for each class (C3 linearisation of its bases). */
  function Mro(c: ExceptionClass): (m: seq<ExceptionClass>)
    ensures 1 <= |m| <= 5 && m[0] == c && m[|m| - 1] == AppExc
  {
    match c
    case AppExc => [AppExc]
    case BadRequest => [BadRequest, AppExc]
    case Unauthorized => [Unauthorized, AppExc]
    case Forbidden => [Forbidden, AppExc]
    case NotFound => [NotFound, AppExc]
    case Conflict => [Conflict, AppExc]
    case Validation => [Validation, BadRequest, AppExc]
    case Service => [Service, AppExc]
    case Database => [Database, Service, AppExc]
    case ExternalService => [ExternalService, Service, AppExc]
    case AuthBase => [AuthBase, AppExc]
    case AuthCredential => [AuthCredential, Unauthorized, AuthBase, AppExc]
    case AuthPermission => [AuthPermission, Forbidden, AuthBase, AppExc]
    case AuthToken => [AuthToken, Unauthorized, AuthBase, AppExc]
    case QueryBase => [QueryBase, AppExc]
    case QueryNotFound => [QueryNotFound, NotFound, QueryBase, AppExc]
    case QueryValidation => [QueryValidation, Validation, BadRequest, QueryBase, AppExc]
    case QueryService => [QueryService, Service, QueryBase, AppExc]
    case InvalidSessionId => [InvalidSessionId, Validation, BadRequest, AppExc]
  }

  /** The `status_code` a class body itself assigns. */
  function OwnStatus(c: ExceptionClass): Option<int>
  {
    match c
    case AppExc => Some(500)
    case BadRequest => Some(400)
    case Unauthorized => Some(401)
    case Forbidden => Some(403)
    case NotFound => Some(404)
    case Conflict => Some(409)
    case Service => Some(500)
    case _ => None
  }

  /** The `error_code` a class body itself assigns. */
  function OwnCode(c: ExceptionClass): Option<string>
  {
    match c
    case AppExc => Some("INTERNAL_ERROR")
    case BadRequest => Some("BAD_REQUEST")
    case Unauthorized => Some("UNAUTHORIZED")
    case Forbidden => Some("FORBIDDEN")
    case NotFound => Some("NOT_FOUND")
    case Conflict => Some("CONFLICT")
    case Validation => Some("VALIDATION_ERROR")
    case Service => Some("SERVICE_ERROR")
    case Database => Some("DATABASE_ERROR")
    case ExternalService => Some("EXTERNAL_SERVICE_ERROR")
    case _ => None
  }

  /** The `domain` a class body itself assigns. */
  function OwnDomain(c: ExceptionClass): Option<string>
  {
    match c
    case AuthBase => Some("auth")
    case QueryBase => Some("query")
    case _ => None
  }

  /** The default of the `message` parameter of the `__init__` a class itself defines. */
  function OwnDefaultMessage(c: ExceptionClass): Option<string>
  {
    match c
    case AppExc => Some("An unexpected error occurred")
    case BadRequest => Some("Invalid request parameters")
    case Unauthorized => Some("Authentication required")
    case Forbidden => Some("You don't have permission to perform this action")
    case NotFound => Some("Resource not found")
    case Conflict => Some("Resource conflict")
    case Validation => Some("Validation error")
    case Service => Some("Service operation failed")
    case Database => Some("Database operation failed")
    case ExternalService => Some("External service request failed")
    case AuthCredential => Some("Authentication failed")
    case AuthPermission => Some("Permission denied")
    case AuthToken => Some("Token validation failed")
    case QueryNotFound => Some("Query not found")
    case QueryValidation => Some("Query validation error")
    case QueryService => Some("Query service error")
    case _ => None
  }

  /** Attribute lookup: the value from the first class along the resolution order that defines it. */
  function Lookup<T>(mro: seq<ExceptionClass>, own: ExceptionClass -> Option<T>): Option<T>
  {
    if |mro| == 0 then None
    else if own(mro[0]).Some? then own(mro[0])
    else Lookup(mro[1..], own)
  }

  /** Lookup finds something whenever the last class of the order defines the attribute. */
  lemma {:induction false} LookupReachesLast<T>(mro: seq<ExceptionClass>, own: ExceptionClass -> Option<T>)
    requires |mro| > 0 && own(mro[|mro| - 1]).Some?
    ensures Lookup(mro, own).Some?
  {
    if |mro| > 1 && own(mro[0]).None? {
      assert mro[1..][|mro[1..]| - 1] == mro[|mro| - 1];
      LookupReachesLast(mro[1..], own);
    }
  }

  /** Lookup answers with the first class along the order that defines the attribute. */
  lemma {:induction false} LookupFirst<T>(mro: seq<ExceptionClass>, own: ExceptionClass -> Option<T>, i: nat)
    requires i < |mro| && own(mro[i]).Some?
    requires forall j :: 0 <= j < i ==> own(mro[j]).None?
    ensures Lookup(mro, own) == own(mro[i])
  {
    if i > 0 {
      assert forall j :: 0 <= j < i - 1 ==> mro[1..][j] == mro[j + 1];
      LookupFirst(mro[1..], own, i - 1);
    }
  }

  /** The attribute a class at position `i` of the resolution order defines, if any. */
  function At<T>(mro: seq<ExceptionClass>, i: nat, own: ExceptionClass -> Option<T>): Option<T>
  {
    if i < |mro| then own(mro[i]) else None
  }

  /** Lookup along a resolution order of at most five classes, written out position by position. */
  lemma LookupFive<T>(mro: seq<ExceptionClass>, own: ExceptionClass -> Option<T>)
    requires |mro| <= 5
    ensures Lookup(mro, own) ==
      if At(mro, 0, own).Some? then At(mro, 0, own)
      else if At(mro, 1, own).Some? then At(mro, 1, own)
      else if At(mro, 2, own).Some? then At(mro, 2, own)
      else if At(mro, 3, own).Some? then At(mro, 3, own)
      else At(mro, 4, own)
  {
    if |mro| > 1 {
      assert mro[1..][1..] == mro[2..];
      if |mro| > 2 {
        assert mro[2..][1..] == mro[3..];
        if |mro| > 3 {
          assert mro[3..][1..] == mro[4..];
        }
      }
    }
  }

  /** The class attribute `status_code`, resolved through inheritance. */
  function StatusOf(c: ExceptionClass): int
  {
    var m := Mro(c);
    assert OwnStatus(m[|m| - 1]) == OwnStatus(AppExc);
    LookupReachesLast(m, OwnStatus);
    Lookup(m, OwnStatus).value
  }

  /** The class attribute `error_code`, resolved through inheritance. */
  function ClassCodeOf(c: ExceptionClass): string
  {
    var m := Mro(c);
    assert OwnCode(m[|m| - 1]) == OwnCode(AppExc);
    LookupReachesLast(m, OwnCode);
    Lookup(m, OwnCode).value
  }

  /** The class attribute `domain`, if any class along the resolution order defines one. */
  function DomainOf(c: ExceptionClass): Option<string>
  {
    Lookup(Mro(c), OwnDomain)
  }

  /** The message a constructor falls back on when the caller passes none. */
  function DefaultMessageOf(c: ExceptionClass): string
  {
    var m := Mro(c);
    assert OwnDefaultMessage(m[|m| - 1]) == OwnDefaultMessage(AppExc);
    LookupReachesLast(m, OwnDefaultMessage);
    Lookup(m, OwnDefaultMessage).value
  }

  /**
   * The status codes the hierarchy resolves to: subclasses that assign none inherit
   * their first base's, so ValidationException stays 400 and the domain exceptions take
   * the status of the HTTP class they derive from.
   */
  lemma StatusTable(c: ExceptionClass)
    ensures c in {BadRequest, Validation, QueryValidation, InvalidSessionId} ==> StatusOf(c) == 400
    ensures c in {Unauthorized, AuthCredential, AuthToken} ==> StatusOf(c) == 401
    ensures c in {Forbidden, AuthPermission} ==> StatusOf(c) == 403
    ensures c in {NotFound, QueryNotFound} ==> StatusOf(c) == 404
    ensures c == Conflict ==> StatusOf(c) == 409
    ensures c in {AppExc, Service, Database, ExternalService, AuthBase, QueryBase, QueryService} ==> StatusOf(c) == 500
  {
    LookupFive(Mro(c), OwnStatus);
  }

  /** The error codes the hierarchy resolves to before any instance override. */
  lemma CodeTable(c: ExceptionClass)
    ensures c == BadRequest ==> ClassCodeOf(c) == "BAD_REQUEST"
    ensures c in {Validation, QueryValidation, InvalidSessionId} ==> ClassCodeOf(c) == "VALIDATION_ERROR"
    ensures c in {Unauthorized, AuthCredential, AuthToken} ==> ClassCodeOf(c) == "UNAUTHORIZED"
    ensures c in {Forbidden, AuthPermission} ==> ClassCodeOf(c) == "FORBIDDEN"
    ensures c in {NotFound, QueryNotFound} ==> ClassCodeOf(c) == "NOT_FOUND"
    ensures c == Conflict ==> ClassCodeOf(c) == "CONFLICT"
    ensures c in {Service, QueryService} ==> ClassCodeOf(c) == "SERVICE_ERROR"
    ensures c == Database ==> ClassCodeOf(c) == "DATABASE_ERROR"
    ensures c == ExternalService ==> ClassCodeOf(c) == "EXTERNAL_SERVICE_ERROR"
    ensures c in {AppExc, AuthBase, QueryBase} ==> ClassCodeOf(c) == "INTERNAL_ERROR"
  {
    LookupFive(Mro(c), OwnCode);
  }

  /** The classes deriving from AuthException, and those deriving from QueryException. */
  lemma DomainBases(c: ExceptionClass)
    ensures AuthBase in Mro(c) <==> c in {AuthBase, AuthCredential, AuthPermission, AuthToken}
    ensures QueryBase in Mro(c) <==> c in {QueryBase, QueryNotFound, QueryValidation, QueryService}
  {
  }

  /** The auth classes resolve the domain "auth". */
  lemma AuthDomainLookup(c: ExceptionClass)
    ensures c in {AuthBase, AuthCredential, AuthPermission, AuthToken} ==> DomainOf(c) == Some("auth")
  {
    if c in {AuthBase, AuthCredential, AuthPermission, AuthToken} {
      LookupFive(Mro(c), OwnDomain);
    }
  }

  /** The query classes resolve the domain "query". */
  lemma QueryDomainLookup(c: ExceptionClass)
    ensures c in {QueryBase, QueryNotFound, QueryValidation, QueryService} ==> DomainOf(c) == Some("query")
  {
    if c in {QueryBase, QueryNotFound, QueryValidation, QueryService} {
      LookupFive(Mro(c), OwnDomain);
    }
  }

  /** Every other class resolves no domain. */
  lemma NoDomainLookup(c: ExceptionClass)
    ensures c !in {AuthBase, AuthCredential, AuthPermission, AuthToken, QueryBase, QueryNotFound, QueryValidation, QueryService} ==>
      DomainOf(c) == None
  {
    if c !in {AuthBase, AuthCredential, AuthPermission, AuthToken, QueryBase, QueryNotFound, QueryValidation, QueryService} {
      LookupFive(Mro(c), OwnDomain);
    }
  }

  /** A class has a domain exactly when it derives from AuthException or QueryException. */
  lemma DomainRule(c: ExceptionClass)
    ensures DomainOf(c) == if AuthBase in Mro(c) then Some("auth") else if QueryBase in Mro(c) then Some("query") else None
  {
    DomainBases(c);
    AuthDomainLookup(c);
    QueryDomainLookup(c);
    NoDomainLookup(c);
  }

  /**
   * Every class with its own constructor uses that constructor's default message; the
   * two domain base classes, which define none, fall back on AppException's.
   */
  lemma DefaultMessageRule(c: ExceptionClass)
    ensures OwnDefaultMessage(c).Some? ==> DefaultMessageOf(c) == OwnDefaultMessage(c).value
    ensures c in {AuthBase, QueryBase} ==> DefaultMessageOf(c) == "An unexpected error occurred"
  {
    LookupFive(Mro(c), OwnDefaultMessage);
  }

  /** A `message` argument: left out (the constructor's default applies) or passed, possibly as None. */
  datatype MessageArg = DefaultMessage | Message(text: Option<string>)

  /** A raised application exception: its class, `error_code`, `message` and `details`. */
  datatype AppError = AppError(cls: ExceptionClass, errorCode: string, message: Option<string>,
                               details: map<string, string>)
  {
    function Status(): int { StatusOf(cls) }
  }

  /** A raised exception: an application exception, or another Python exception named by its text. */
  datatype Failure = Raised(error: AppError) | Uncaught(what: string)
  {
    /** `str(e)`: an application exception's message, "None" when it has none. */
    function Str(): string
    {
      match this
      case Raised(e) => if e.message.Some? then e.message.value else "None"
      case Uncaught(w) => w
    }

    /** `isinstance(e, C)` for an application exception class C. */
    predicate IsA(c: ExceptionClass)
    {
      Raised? && c in Mro(error.cls)
    }
  }

  /**
   * The constructor chain: `message` is the argument or the class's default, and
   * `details or {}`; a domain exception overrides `error_code` with the string form of its code.
   */
  function NewError(c: ExceptionClass, codeOverride: Option<string>, message: MessageArg,
                    details: Option<map<string, string>>): (e: AppError)
    ensures e.cls == c
    ensures codeOverride.Some? ==> e.errorCode == codeOverride.value
    ensures codeOverride.None? ==> e.errorCode == ClassCodeOf(c)
    ensures message.DefaultMessage? ==> e.message == Some(DefaultMessageOf(c))
    ensures message.Message? ==> e.message == message.text
    ensures details.None? ==> e.details == map[]
    ensures details.Some? ==> e.details == details.value
  {
    AppError(c,
      if codeOverride.Some? then codeOverride.value else ClassCodeOf(c),
      if message.Message? then message.text else Some(DefaultMessageOf(c)),
      if details.Some? then details.value else map[])
  }

  /** A value in the dictionary `to_dict` returns. */
  datatype Field = Text(text: string) | Number(n: int) | Object(entries: map<string, string>) | Null

  function OptionalText(s: Option<string>): Field
  {
    if s.Some? then Text(s.value) else Null
  }

  /** `to_dict`: the five fixed keys, and "domain" exactly when the class has one. */
  function ToDict(e: AppError, requestId: Option<string>): (d: map<string, Field>)
    ensures {"error_code", "message", "status_code", "details", "request_id"} <= d.Keys
    ensures "domain" in d <==> DomainOf(e.cls).Some?
    ensures d.Keys <= {"error_code", "message", "status_code", "details", "request_id", "domain"}
    ensures d["error_code"] == Text(e.errorCode) && d["status_code"] == Number(StatusOf(e.cls))
    ensures d["message"] == OptionalText(e.message) && d["details"] == Object(e.details)
    ensures d["request_id"] == OptionalText(requestId)
    ensures "domain" in d ==> d["domain"] == Text(DomainOf(e.cls).value)
  {
    var result := map[
      "error_code" := Text(e.errorCode),
      "message" := OptionalText(e.message),
      "status_code" := Number(e.Status()),
      "details" := Object(e.details),
      "request_id" := OptionalText(requestId)
    ];
    assert result.Keys == {"error_code", "message", "status_code", "details", "request_id"};
    assert "domain" !in result.Keys by {
      assert |"domain"| == 6 && |"message"| == 7 && |"details"| == 7;
      assert "domain"[0] != "details"[1];
    }
    var d := DomainOf(e.cls);
    if d.Some? then result["domain" := Text(d.value)] else result
  }

  /** `get_or_404`: the value when present, otherwise NotFoundException with the detail and the extra keyword details. */
  function GetOr404<T>(result: Option<T>, detail: string, extra: map<string, string>): (r: Result<T, AppError>)
    ensures result.Some? <==> r.Ok?
    ensures r.Ok? ==> r.value == result.value
    ensures r.Err? ==> (r.error.cls == NotFound && r.error.Status() == 404 && r.error.message == Some(detail) &&
      r.error.errorCode == "NOT_FOUND" && r.error.details == extra)
  {
    if result.None? then Err(NewError(NotFound, None, Message(Some(detail)), if extra == map[] then None else Some(extra)))
    else Ok(result.value)
  }

  /** Whether an integrity error's text names a unique-constraint violation. */
  predicate IsDuplicateKey(text: string)
  {
    Contains(Lower(text), "unique constraint") || Contains(Lower(text), "duplicate key")
  }

  /** `handle_db_integrity_error`: always an exception, Conflict for unique violations and DatabaseException otherwise. */
  function IntegrityErrorFor(text: string, detail: string): (e: AppError)
    ensures e.cls == Conflict <==> IsDuplicateKey(text)
    ensures e.cls == Database <==> !IsDuplicateKey(text)
    ensures e.Status() == (if IsDuplicateKey(text) then 409 else 500)
    ensures e.message == Some(detail) && e.details == map["error" := text]
  {
    var details := Some(map["error" := text]);
    if IsDuplicateKey(text) then NewError(Conflict, None, Message(Some(detail)), details)
    else NewError(Database, None, Message(Some(detail)), details)
  }

  /** How the wrapped database call ended. */
  datatype DbFailure = IntegrityFailure(text: string) | OtherFailure(text: string)

  /** `try_with_db_exception`: a result passes through, any failure becomes Conflict or DatabaseException. */
  function TryWithDbException<T>(outcome: Result<T, DbFailure>, errorMessage: string): (r: Result<T, AppError>)
    ensures outcome.Ok? <==> r.Ok?
    ensures r.Ok? ==> r.value == outcome.value
    ensures r.Err? ==> r.error.message == Some(errorMessage) && r.error.details == map["error" := outcome.error.text]
    ensures r.Err? && outcome.error.OtherFailure? ==> r.error.cls == Database
    ensures r.Err? ==> r.error.cls in {Conflict, Database}
  {
    match outcome
    case Ok(v) => Ok(v)
    case Err(IntegrityFailure(text)) => Err(IntegrityErrorFor(text, errorMessage))
    case Err(OtherFailure(text)) =>
      Err(NewError(Database, None, Message(Some(errorMessage)), Some(map["error" := text])))
  }

  /** Python's `s.replace(pat, "")` for a non-empty `pat`, scanning left to right. */
  function RemoveAll(s: string, pat: string): (r: string)
    requires |pat| > 0
    ensures |r| <= |s|
  {
    if |s| < |pat| then s
    else if s[..|pat|] == pat then RemoveAll(s[|pat|..], pat)
    else [s[0]] + RemoveAll(s[1..], pat)
  }

  /** The documentation key of an error enum: its class name without "ErrorCode", lowercased. */
  function DomainKey(className: string): string
  {
    Lower(RemoveAll(className, "ErrorCode"))
  }

  /** A member of an error enum: its name, its value (also its string form) and its doc string. */
  datatype ErrorMember = ErrorMember(name: string, code: string, doc: string)
  datatype ErrorEnum = ErrorEnum(className: string, members: seq<ErrorMember>)
  datatype DocEntry = DocEntry(code: string, name: string, description: string)

  type Docs = map<string, map<string, seq<DocEntry>>>

  /** The category of a code: its second "_"-separated segment, lowercased; None where indexing fails. */
  function Category(code: string): Option<string>
  {
    var parts := Split(code, '_');
    if |parts| < 2 then None else Some(Lower(parts[1]))
  }

  function EntryOf(m: ErrorMember): DocEntry
  {
    DocEntry(m.code, m.name, m.doc)
  }

  /** Filing members into categories, as the inner loop does; None when a code has no second segment. */
  function FileMembers(cats: map<string, seq<DocEntry>>, members: seq<ErrorMember>): Option<map<string, seq<DocEntry>>>
    decreases |members|
  {
    if |members| == 0 then Some(cats)
    else
      var c := Category(members[0].code);
      if c.None? then None
      else
        var existing := if c.value in cats then cats[c.value] else [];
        FileMembers(cats[c.value := existing + [EntryOf(members[0])]], members[1..])
  }

  /** The documents the outer loop builds; an enum's domain entry starts afresh. */
  function DocsFrom(docs: Docs, enums: seq<ErrorEnum>): Option<Docs>
    decreases |enums|
  {
    if |enums| == 0 then Some(docs)
    else
      match FileMembers(map[], enums[0].members)
      case None => None
      case Some(cats) => DocsFrom(docs[DomainKey(enums[0].className) := cats], enums[1..])
  }

  /** `generate_error_docs`, over the enums it lists; None stands for the IndexError of a malformed code. */
  method GenerateErrorDocs(enums: seq<ErrorEnum>) returns (r: Option<Docs>)
    ensures r == DocsFrom(map[], enums)
  {
    var docs: Docs := map[];
    var k := 0;
    while k < |enums|
      invariant 0 <= k <= |enums|
      invariant DocsFrom(map[], enums) == DocsFrom(docs, enums[k..])
    {
      var domain := DomainKey(enums[k].className);
      var cats: map<string, seq<DocEntry>> := map[];
      var members := enums[k].members;
      var i := 0;
      while i < |members|
        invariant 0 <= i <= |members|
        invariant FileMembers(map[], members) == FileMembers(cats, members[i..])
      {
        var category := Category(members[i].code);
        assert members[i..][1..] == members[i + 1..];
        if category.None? {
          return None;
        }
        ghost var existing := if category.value in cats then cats[category.value] else [];
        ghost var filed := cats[category.value := existing + [EntryOf(members[i])]];
        assert FileMembers(cats, members[i..]) == FileMembers(filed, members[i + 1..]);
        if category.value !in cats {
          cats := cats[category.value := []];
        }
        cats := cats[category.value := cats[category.value] + [EntryOf(members[i])]];
        assert cats == filed;
        i := i + 1;
      }
      assert members[i..] == [];
      assert enums[k..][1..] == enums[k + 1..];
      docs := docs[domain := cats];
      k := k + 1;
    }
    assert enums[k..] == [];
    return Some(docs);
  }

  /** The members whose category is `cat`, in enum order. */
  function InCategory(members: seq<ErrorMember>, cat: string): seq<DocEntry>
  {
    if |members| == 0 then []
    else (if Category(members[0].code) == Some(cat) then [EntryOf(members[0])] else []) + InCategory(members[1..], cat)
  }

  /** The categories the members fall into. */
  function CategorySet(members: seq<ErrorMember>): set<string>
  {
    if |members| == 0 then {}
    else
      var c := Category(members[0].code);
      (if c.Some? then {c.value} else {}) + CategorySet(members[1..])
  }

  /** The category of any categorised member is among the members' categories. */
  lemma {:induction false} CategoryInSet(members: seq<ErrorMember>, i: int)
    requires 0 <= i < |members| && Category(members[i].code).Some?
    ensures Category(members[i].code).value in CategorySet(members)
    decreases |members|
  {
    if i > 0 {
      assert members[1..][i - 1] == members[i];
      CategoryInSet(members[1..], i - 1);
    }
  }

  /** What the map held for a category before filing. */
  function Prior(cats: map<string, seq<DocEntry>>, c: string): seq<DocEntry>
  {
    if c in cats then cats[c] else []
  }

  predicate AllCategorised(members: seq<ErrorMember>)
  {
    forall i :: 0 <= i < |members| ==> Category(members[i].code).Some?
  }

  /**
   * When every code has a category, filing succeeds, adds exactly the members'
   * categories, and each category gets exactly its members appended in enum order.
   */
  lemma {:induction false} FileMembersGroups(cats: map<string, seq<DocEntry>>, members: seq<ErrorMember>)
    requires AllCategorised(members)
    ensures FileMembers(cats, members).Some?
    ensures FileMembers(cats, members).value.Keys == cats.Keys + CategorySet(members)
    ensures forall c :: c in FileMembers(cats, members).value ==>
      FileMembers(cats, members).value[c] == Prior(cats, c) + InCategory(members, c)
    decreases |members|
  {
    if |members| > 0 {
      var c0 := Category(members[0].code).value;
      var e0 := EntryOf(members[0]);
      var cats' := cats[c0 := Prior(cats, c0) + [e0]];
      var tail := members[1..];
      assert AllCategorised(tail) by {
        forall i | 0 <= i < |tail| ensures Category(tail[i].code).Some? {
          assert tail[i] == members[i + 1];
        }
      }
      FileMembersGroups(cats', tail);
      assert FileMembers(cats, members) == FileMembers(cats', tail);
      var r := FileMembers(cats', tail).value;
      forall c | c in r ensures r[c] == Prior(cats, c) + InCategory(members, c) {
        FiledEntries(cats, members, c);
      }
    }
  }

  /** Filing the first member and then the rest appends each category's members in order. */
  lemma FiledEntries(cats: map<string, seq<DocEntry>>, members: seq<ErrorMember>, c: string)
    requires |members| > 0 && Category(members[0].code).Some?
    ensures var c0 := Category(members[0].code).value;
      Prior(cats[c0 := Prior(cats, c0) + [EntryOf(members[0])]], c) + InCategory(members[1..], c) ==
      Prior(cats, c) + InCategory(members, c)
  {
    var c0 := Category(members[0].code).value;
    var e0 := EntryOf(members[0]);
    if c == c0 {
      assert InCategory(members, c) == [e0] + InCategory(members[1..], c);
      assert (Prior(cats, c0) + [e0]) + InCategory(members[1..], c) == Prior(cats, c0) + ([e0] + InCategory(members[1..], c));
    } else {
      assert InCategory(members, c) == InCategory(members[1..], c);
    }
  }

  /** A code shaped DOMAIN_CATEGORY_REST is filed under the lowercased CATEGORY. */
  lemma CategoryOfCode(domain: string, category: string, rest: string)
    requires '_' !in domain && '_' !in category
    ensures Category(domain + "_" + category + "_" + rest) == Some(Lower(category))
  {
    SplitAtFirst(category, rest, '_');
    assert domain + "_" + category + "_" + rest == domain + ['_'] + (category + ['_'] + rest);
    SplitAtFirst(domain, category + ['_'] + rest, '_');
  }
}
