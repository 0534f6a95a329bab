/**
 * The auth domain: the error codes and `raise_*` helpers of kitchen/domains/auth/errors.py,
 * the registration checks and the login lockout of kitchen/domains/auth/services.py, and
 * the client-credentials grant and route keys of kitchen/domains/auth/routers.py.
 */
module AuthDomain {
  import opened Wrappers
  import opened Text
  import opened Errors
  import opened Security
  import EndpointGates

  datatype AuthErrorCode =
    | CredentialsInvalidUsername | CredentialsInvalidPassword | CredentialsAccountLocked
    | TokenExpired | TokenInvalid | TokenRevoked
    | PermissionInsufficient | PermissionRoleRequired

  /** The category segment of a code. */
  function CategorySegment(c: AuthErrorCode): string
  {
    match c
    case CredentialsInvalidUsername | CredentialsInvalidPassword | CredentialsAccountLocked => "CREDENTIALS"
    case TokenExpired | TokenInvalid | TokenRevoked => "TOKEN"
    case PermissionInsufficient | PermissionRoleRequired => "PERMISSION"
  }

  /** The specific-error segment of a code. */
  function SpecificSegment(c: AuthErrorCode): string
  {
    match c
    case CredentialsInvalidUsername => "INVALID_USERNAME"
    case CredentialsInvalidPassword => "INVALID_PASSWORD"
    case CredentialsAccountLocked => "ACCOUNT_LOCKED"
    case TokenExpired => "EXPIRED"
    case TokenInvalid => "INVALID"
    case TokenRevoked => "REVOKED"
    case PermissionInsufficient => "INSUFFICIENT"
    case PermissionRoleRequired => "ROLE_REQUIRED"
  }

  /** The member name, "<CATEGORY>_<SPECIFIC>", e.g. TOKEN_EXPIRED. */
  function CodeName(c: AuthErrorCode): string
  {
    CategorySegment(c) + "_" + SpecificSegment(c)
  }

  /** The enum value, which is also what `str()` gives: "AUTH_<CATEGORY>_<SPECIFIC>", e.g. AUTH_TOKEN_EXPIRED. */
  function CodeValue(c: AuthErrorCode): string
  {
    "AUTH" + "_" + CodeName(c)
  }

  /** The members in declaration order. */
  const AuthErrorCodes: seq<AuthErrorCode> := [
    CredentialsInvalidUsername, CredentialsInvalidPassword, CredentialsAccountLocked,
    TokenExpired, TokenInvalid, TokenRevoked,
    PermissionInsufficient, PermissionRoleRequired
  ]

  /** `raise_credential_error`: a given message is kept; otherwise the credential codes pick theirs and any other code leaves None. */
  function CredentialError(code: AuthErrorCode, message: Option<string>, details: Option<map<string, string>>): (e: AppError)
    ensures e.cls == AuthCredential && e.errorCode == CodeValue(code)
    ensures message.Some? ==> e.message == message
    ensures message.None? && code == CredentialsInvalidUsername ==> e.message == Some("User not found")
    ensures message.None? && code == CredentialsInvalidPassword ==> e.message == Some("Invalid password")
    ensures message.None? && code == CredentialsAccountLocked ==>
      e.message == Some("Account has been locked due to too many failed attempts")
    ensures message.None? && code !in {CredentialsInvalidUsername, CredentialsInvalidPassword, CredentialsAccountLocked} ==>
      e.message == None
  {
    var m :=
      if message.Some? then message
      else if code == CredentialsInvalidUsername then Some("User not found")
      else if code == CredentialsInvalidPassword then Some("Invalid password")
      else if code == CredentialsAccountLocked then Some("Account has been locked due to too many failed attempts")
      else None;
    NewError(AuthCredential, Some(CodeValue(code)), Message(m), details)
  }

  /** `raise_permission_error`: a given message is kept; otherwise "Permission denied", refined for two codes. */
  function PermissionError(code: AuthErrorCode, message: Option<string>, details: Option<map<string, string>>): (e: AppError)
    ensures e.cls == AuthPermission && e.errorCode == CodeValue(code) && e.message.Some?
    ensures message.Some? ==> e.message == message
    ensures message.None? && code == PermissionInsufficient ==>
      e.message == Some("Insufficient permissions to perform this action")
    ensures message.None? && code == PermissionRoleRequired ==> e.message == Some("This action requires a specific role")
    ensures message.None? && code !in {PermissionInsufficient, PermissionRoleRequired} ==> e.message == Some("Permission denied")
  {
    var m :=
      if message.Some? then message.value
      else if code == PermissionInsufficient then "Insufficient permissions to perform this action"
      else if code == PermissionRoleRequired then "This action requires a specific role"
      else "Permission denied";
    NewError(AuthPermission, Some(CodeValue(code)), Message(Some(m)), details)
  }

  /** `raise_token_error`: a given message is kept; otherwise "Token error", refined for three codes. */
  function TokenError(code: AuthErrorCode, message: Option<string>, details: Option<map<string, string>>): (e: AppError)
    ensures e.cls == AuthToken && e.errorCode == CodeValue(code) && e.message.Some?
    ensures message.Some? ==> e.message == message
    ensures message.None? && code == TokenExpired ==> e.message == Some("Token has expired")
    ensures message.None? && code == TokenInvalid ==> e.message == Some("Token is invalid")
    ensures message.None? && code == TokenRevoked ==> e.message == Some("Token has been revoked")
    ensures message.None? && code !in {TokenExpired, TokenInvalid, TokenRevoked} ==> e.message == Some("Token error")
  {
    var m :=
      if message.Some? then message.value
      else if code == TokenExpired then "Token has expired"
      else if code == TokenInvalid then "Token is invalid"
      else if code == TokenRevoked then "Token has been revoked"
      else "Token error";
    NewError(AuthToken, Some(CodeValue(code)), Message(Some(m)), details)
  }

  /** Credential and token errors answer 401 and permission errors 403, each under the "auth" domain. */
  lemma AuthErrorStatuses(code: AuthErrorCode, message: Option<string>, details: Option<map<string, string>>)
    ensures CredentialError(code, message, details).Status() == 401
    ensures TokenError(code, message, details).Status() == 401
    ensures PermissionError(code, message, details).Status() == 403
    ensures DomainOf(AuthCredential) == Some("auth") && DomainOf(AuthPermission) == Some("auth") &&
      DomainOf(AuthToken) == Some("auth")
  {
    StatusTable(AuthCredential);
    StatusTable(AuthToken);
    StatusTable(AuthPermission);
    DomainRule(AuthCredential);
    DomainRule(AuthPermission);
    DomainRule(AuthToken);
  }

  /** AuthErrorCode as `generate_error_docs` sees it; `doc` is what `__doc__` gives each member. */
  function AuthErrorEnum(doc: string): ErrorEnum
  {
    ErrorEnum("AuthErrorCode", seq(|AuthErrorCodes|, i requires 0 <= i < |AuthErrorCodes| =>
      ErrorMember(CodeName(AuthErrorCodes[i]), CodeValue(AuthErrorCodes[i]), doc)))
  }

  /** The documentation category of each code: the lower-cased second segment of its value. */
  function CategoryName(c: AuthErrorCode): string
  {
    if c in {CredentialsInvalidUsername, CredentialsInvalidPassword, CredentialsAccountLocked} then "credentials"
    else if c in {TokenExpired, TokenInvalid, TokenRevoked} then "token"
    else "permission"
  }

  lemma LowerGroups()
    ensures Lower("CREDENTIALS") == "credentials"
    ensures Lower("TOKEN") == "token"
    ensures Lower("PERMISSION") == "permission"
  {
  }

  /** Every code is filed under its lower-cased category segment. */
  lemma AuthCodeCategories(c: AuthErrorCode)
    ensures Category(CodeValue(c)) == Some(CategoryName(c))
  {
    LowerGroups();
    assert CodeValue(c) == "AUTH" + "_" + CategorySegment(c) + "_" + SpecificSegment(c);
    CategoryOfCode("AUTH", CategorySegment(c), SpecificSegment(c));
  }

  /** "AuthErrorCode" becomes the domain key "auth". */
  lemma AuthDomainKey()
    ensures DomainKey("AuthErrorCode") == "auth"
  {
    var s := "AuthErrorCode";
    assert s[..9][0] == 'A';
    assert s[1..][..9][0] == 'u';
    assert s[2..][..9][0] == 't';
    assert s[3..][..9][0] == 'h';
    assert s[4..] == "ErrorCode";
    assert RemoveAll(s[4..], "ErrorCode") == "";
    assert RemoveAll(s[3..], "ErrorCode") == "h";
    assert RemoveAll(s[2..], "ErrorCode") == "th";
    assert RemoveAll(s[1..], "ErrorCode") == "uth";
    assert RemoveAll(s, "ErrorCode") == "Auth";
  }

  /** Categories drawn from `allowed` give a category set within `allowed`. */
  lemma {:induction false} CategoriesAmong(members: seq<ErrorMember>, allowed: set<string>)
    requires forall i :: 0 <= i < |members| ==> Category(members[i].code).Some? && Category(members[i].code).value in allowed
    ensures CategorySet(members) <= allowed
  {
    if |members| > 0 {
      assert forall i :: 0 <= i < |members[1..]| ==> members[1..][i] == members[i + 1];
      CategoriesAmong(members[1..], allowed);
    }
  }

  /**
   * `generate_error_docs` files AuthErrorCode under the single domain "auth", in exactly
   * the categories credentials, token and permission.
   */
  lemma AuthErrorDocs(doc: string)
    ensures DocsFrom(map[], [AuthErrorEnum(doc)]).Some?
    ensures var docs := DocsFrom(map[], [AuthErrorEnum(doc)]).value;
      docs.Keys == {"auth"} && docs["auth"].Keys == {"credentials", "token", "permission"}
  {
    var ms := AuthErrorEnum(doc).members;
    AuthCategorySet(doc);
    FileMembersGroups(map[], ms);
    AuthDomainKey();
    assert [AuthErrorEnum(doc)][1..] == [];
  }

  /** The members of AuthErrorCode fall into exactly the categories credentials, token and permission. */
  lemma AuthCategorySet(doc: string)
    ensures forall i :: 0 <= i < |AuthErrorEnum(doc).members| ==> Category(AuthErrorEnum(doc).members[i].code).Some?
    ensures CategorySet(AuthErrorEnum(doc).members) == {"credentials", "token", "permission"}
  {
    var ms := AuthErrorEnum(doc).members;
    forall i | 0 <= i < |ms|
      ensures Category(ms[i].code).Some? && Category(ms[i].code).value in {"credentials", "token", "permission"}
    {
      assert ms[i].code == CodeValue(AuthErrorCodes[i]);
      AuthCodeCategories(AuthErrorCodes[i]);
    }
    CategoriesAmong(ms, {"credentials", "token", "permission"});
    AuthCategoryPresent(doc, 0);
    AuthCategoryPresent(doc, 3);
    AuthCategoryPresent(doc, 6);
  }

  /** The category of the `k`-th AuthErrorCode member is in the members' category set. */
  lemma AuthCategoryPresent(doc: string, k: nat)
    requires k < |AuthErrorCodes|
    ensures k < |AuthErrorEnum(doc).members|
    ensures CategoryName(AuthErrorCodes[k]) in CategorySet(AuthErrorEnum(doc).members)
  {
    var ms := AuthErrorEnum(doc).members;
    assert ms[k].code == CodeValue(AuthErrorCodes[k]);
    AuthCodeCategories(AuthErrorCodes[k]);
    CategoryInSet(ms, k);
  }

  // ----- Registration -----

  /** `ACCESS_TOKEN_EXPIRE_MINUTES`. */
  const AccessTokenExpireMinutes := 30

  /** The token response; the JWT string itself is identified by the user id it is issued for. */
  datatype TokenSchema = TokenSchema(subject: int, tokenType: string, expiresIn: int)

  function IssueToken(id: int): (t: TokenSchema)
    ensures t.tokenType == "bearer" && t.expiresIn == 1800
  {
    TokenSchema(id, "bearer", AccessTokenExpireMinutes * 60)
  }

  /**
   * `create_auth_by_email_password`. `emailTaken` stands for the repository lookup and
   * `newId` for the id the new row receives.
   */
  function CreateAuth(email: string, password: string, confirmPassword: string,
                      emailTaken: string -> bool, newId: int): (r: Result<TokenSchema, AppError>)
    ensures password != confirmPassword ==> r == Err(NewError(Validation, None,
      Message(Some("Passwords do not match")), Some(map["field" := "confirm_password"])))
    ensures password == confirmPassword && emailTaken(email) ==> r == Err(NewError(Conflict, None,
      Message(Some("Email already registered")), Some(map["field" := "email"])))
    ensures r.Ok? <==> password == confirmPassword && !emailTaken(email)
    ensures r.Ok? ==> r.value == IssueToken(newId)
  {
    if password != confirmPassword then
      Err(NewError(Validation, None, Message(Some("Passwords do not match")), Some(map["field" := "confirm_password"])))
    else if emailTaken(email) then
      Err(NewError(Conflict, None, Message(Some("Email already registered")), Some(map["field" := "email"])))
    else Ok(IssueToken(newId))
  }

  /** A mismatched confirmation is refused with 400 before the email is looked at: the lookup cannot change the answer. */
  lemma MismatchIgnoresLookup(email: string, password: string, confirm: string,
                              taken1: string -> bool, taken2: string -> bool, id: int)
    requires password != confirm
    ensures CreateAuth(email, password, confirm, taken1, id) == CreateAuth(email, password, confirm, taken2, id)
    ensures CreateAuth(email, password, confirm, taken1, id).error.Status() == 400
  {
    StatusTable(Validation);
  }

  // ----- Login lockout -----

  /** `LOGIN_ATTEMPTS_LIMIT`. */
  const LoginAttemptsLimit := 3
  /** `LOGIN_ATTEMPTS_LOCK_TIME`, in hours, and the same period in seconds. */
  const LoginAttemptsLockHours := 4
  const LockSeconds := LoginAttemptsLockHours * 3600

  /** The lockout fields of an auth row; times are whole seconds. */
  datatype AccountState = AccountState(isLocked: bool, lockedAt: Option<int>, failedAttempts: int)

  /** Why a login is refused. */
  datatype LoginRefusal =
    | UnknownEmail
    | StillLocked(remainingMinutes: int)
    | NewlyLocked
    | WrongPassword(attemptsRemaining: int)

  /** The credential exception each refusal raises. */
  function RefusalError(f: LoginRefusal): (e: AppError)
    ensures e.cls == AuthCredential
    ensures f.UnknownEmail? ==> (e.errorCode == CodeValue(CredentialsInvalidUsername) &&
      e.message == Some("Incorrect email or password") && e.details == map["authenticate" := "bearer"])
    ensures f.StillLocked? ==> (e.errorCode == CodeValue(CredentialsAccountLocked) &&
      e.message == Some("Account is locked. Please try again in " + IntToString(f.remainingMinutes) + " minutes") &&
      e.details == map["remaining_minutes" := IntToString(f.remainingMinutes)])
    ensures f.NewlyLocked? ==> (e.errorCode == CodeValue(CredentialsAccountLocked) &&
      e.message == Some("Account locked due to too many failed attempts. Try again in " +
                        IntToString(LoginAttemptsLockHours) + " hours") &&
      e.details == map["lock_hours" := IntToString(LoginAttemptsLockHours)])
    ensures f.WrongPassword? ==> (e.errorCode == CodeValue(CredentialsInvalidPassword) &&
      e.message == Some("Incorrect email or password") &&
      e.details == map["authenticate" := "bearer", "attempts_remaining" := IntToString(f.attemptsRemaining)])
  {
    match f
    case UnknownEmail =>
      CredentialError(CredentialsInvalidUsername, Some("Incorrect email or password"), Some(map["authenticate" := "bearer"]))
    case StillLocked(m) =>
      CredentialError(CredentialsAccountLocked, Some("Account is locked. Please try again in " + IntToString(m) + " minutes"),
                      Some(map["remaining_minutes" := IntToString(m)]))
    case NewlyLocked =>
      CredentialError(CredentialsAccountLocked,
                      Some("Account locked due to too many failed attempts. Try again in " + IntToString(LoginAttemptsLockHours) + " hours"),
                      Some(map["lock_hours" := IntToString(LoginAttemptsLockHours)]))
    case WrongPassword(n) =>
      CredentialError(CredentialsInvalidPassword, Some("Incorrect email or password"),
                      Some(map["authenticate" := "bearer", "attempts_remaining" := IntToString(n)]))
  }

  /** Whether the lock period of a locked account with a lock time has run out at `now`. */
  predicate LockExpired(s: AccountState, now: int)
  {
    s.isLocked && s.lockedAt.Some? && now - s.lockedAt.value >= LockSeconds
  }

  /** Whether a locked account with a lock time is still within its lock period at `now`. */
  predicate LockActive(s: AccountState, now: int)
  {
    s.isLocked && s.lockedAt.Some? && now - s.lockedAt.value < LockSeconds
  }

  /**
   * Whole minutes left of the lock period. The seconds left are positive here, so the
   * truncation of `int()` and the floor of `/` agree.
   */
  function RemainingMinutes(s: AccountState, now: int): (m: int)
    requires LockActive(s, now)
    ensures m >= 0
    ensures now >= s.lockedAt.value ==> m <= LoginAttemptsLockHours * 60
  {
    (LockSeconds - (now - s.lockedAt.value)) / 60
  }

  /**
   * One login of an existing account, as the service decides it: the answer and the new
   * lockout fields. `passwordOk` is what the bcrypt check says; `id` is the account's id.
   */
  function LoginStep(s: AccountState, passwordOk: bool, now: int, id: int): (r: (Result<TokenSchema, LoginRefusal>, AccountState))
    ensures LockActive(s, now) ==> r.0.Err? && r.0.error.StillLocked? && r.1 == s
    ensures r.0.Ok? <==> !LockActive(s, now) && passwordOk
    ensures r.0.Ok? ==> r.0.value == IssueToken(id) && r.1.failedAttempts <= 0
    ensures r.0 == Err(NewlyLocked) ==>
      r.1 == AccountState(true, Some(now), r.1.failedAttempts) && r.1.failedAttempts >= LoginAttemptsLimit
  {
    if LockActive(s, now) then (Err(StillLocked(RemainingMinutes(s, now))), s)
    else
      var s1 := if LockExpired(s, now) then AccountState(false, None, 0) else s;
      if !passwordOk then
        var attempts := s1.failedAttempts + 1;
        if attempts >= LoginAttemptsLimit then (Err(NewlyLocked), AccountState(true, Some(now), attempts))
        else (Err(WrongPassword(LoginAttemptsLimit - attempts)), s1.(failedAttempts := attempts))
      else (Ok(IssueToken(id)), s1.(failedAttempts := if s1.failedAttempts > 0 then 0 else s1.failedAttempts))
  }

  /** What the caller sees: the token, or the exception a refusal raises. */
  function Answer(o: Result<TokenSchema, LoginRefusal>): (r: Result<TokenSchema, AppError>)
    ensures r.Ok? <==> o.Ok?
    ensures o.Ok? ==> r.value == o.value
  {
    match o
    case Ok(t) => Ok(t)
    case Err(f) => Err(RefusalError(f))
  }

  /** An auth row's lockout fields, updated in place by a login. */
  class Account {
    const id: int
    var isLocked: bool
    var lockedAt: Option<int>
    var failedLoginAttempts: int

    function State(): AccountState
      reads this
    {
      AccountState(isLocked, lockedAt, failedLoginAttempts)
    }

    /** A new account: unlocked, never locked, no failed attempts. */
    constructor (id: int)
      ensures this.id == id && State() == AccountState(false, None, 0)
    {
      this.id := id;
      isLocked := false;
      lockedAt := None;
      failedLoginAttempts := 0;
    }
  }

  /** `login_by_email_password` on the account the email found, or on none. */
  method Login(auth: Account?, passwordOk: bool, now: int) returns (r: Result<TokenSchema, AppError>)
    modifies auth
    ensures auth == null ==> r == Err(RefusalError(UnknownEmail))
    ensures auth != null ==> r == Answer(LoginStep(old(auth.State()), passwordOk, now, auth.id).0)
    ensures auth != null ==> auth.State() == LoginStep(old(auth.State()), passwordOk, now, auth.id).1
  {
    if auth == null {
      return Err(RefusalError(UnknownEmail));
    }
    ghost var s0 := auth.State();
    ghost var step := LoginStep(s0, passwordOk, now, auth.id);
    if auth.isLocked {
      if auth.lockedAt.Some? && now - auth.lockedAt.value >= LockSeconds {
        auth.isLocked := false;
        auth.lockedAt := None;
        auth.failedLoginAttempts := 0;
      } else if auth.lockedAt.Some? {
        var minutes := (LockSeconds - (now - auth.lockedAt.value)) / 60;
        assert step == (Err(StillLocked(minutes)), s0);
        return Err(RefusalError(StillLocked(minutes)));
      }
    }
    ghost var s1 := auth.State();
    assert s1 == if LockExpired(s0, now) then AccountState(false, None, 0) else s0;
    if !passwordOk {
      auth.failedLoginAttempts := auth.failedLoginAttempts + 1;
      if auth.failedLoginAttempts >= LoginAttemptsLimit {
        auth.isLocked := true;
        auth.lockedAt := Some(now);
        assert step == (Err(NewlyLocked), auth.State());
        return Err(RefusalError(NewlyLocked));
      }
      assert step == (Err(WrongPassword(LoginAttemptsLimit - auth.failedLoginAttempts)), auth.State());
      return Err(RefusalError(WrongPassword(LoginAttemptsLimit - auth.failedLoginAttempts)));
    }
    if auth.failedLoginAttempts > 0 {
      auth.failedLoginAttempts := 0;
    }
    assert step == (Ok(IssueToken(auth.id)), auth.State());
    return Ok(IssueToken(auth.id));
  }

  /**
   * The lockout invariant: the count stays within the limit, reaching it means locked,
   * and an account is locked exactly when it has a lock time.
   */
  predicate LockoutInvariant(s: AccountState)
  {
    0 <= s.failedAttempts <= LoginAttemptsLimit &&
    (s.failedAttempts == LoginAttemptsLimit ==> s.isLocked) &&
    (s.isLocked <==> s.lockedAt.Some?)
  }

  /** Every login keeps the lockout invariant. */
  lemma LoginKeepsInvariant(s: AccountState, passwordOk: bool, now: int, id: int)
    requires LockoutInvariant(s)
    ensures LockoutInvariant(LoginStep(s, passwordOk, now, id).1)
  {
  }

  /** A login succeeds exactly when the password is right and no lock is in force. */
  lemma LoginSucceedsIff(s: AccountState, passwordOk: bool, now: int, id: int)
    ensures LoginStep(s, passwordOk, now, id).0.Ok? <==> passwordOk && !LockActive(s, now)
    ensures LoginStep(s, passwordOk, now, id).0.Ok? ==> LoginStep(s, passwordOk, now, id).0.value == IssueToken(id)
  {
  }

  /** Within the lock period every attempt, right password or not, is refused and changes nothing. */
  lemma LockHolds(s: AccountState, passwordOk: bool, now: int, id: int)
    requires s.isLocked && s.lockedAt.Some? && s.lockedAt.value <= now < s.lockedAt.value + LockSeconds
    ensures LoginStep(s, passwordOk, now, id) == (Err(StillLocked(RemainingMinutes(s, now))), s)
    ensures 0 <= RemainingMinutes(s, now) <= LoginAttemptsLockHours * 60
  {
    assert LockActive(s, now);
  }

  /** Once the lock period is over, the right password unlocks the account and logs in. */
  lemma LockExpires(s: AccountState, now: int, id: int)
    requires s.isLocked && s.lockedAt.Some? && now >= s.lockedAt.value + LockSeconds
    ensures LoginStep(s, true, now, id) == (Ok(IssueToken(id)), AccountState(false, None, 0))
  {
    assert !LockActive(s, now) && LockExpired(s, now);
  }

  /** Below the limit, a wrong password counts one more attempt and reports how many remain. */
  lemma WrongPasswordCounts(s: AccountState, now: int, id: int)
    requires !s.isLocked && s.failedAttempts + 1 < LoginAttemptsLimit
    ensures LoginStep(s, false, now, id) ==
      (Err(WrongPassword(LoginAttemptsLimit - (s.failedAttempts + 1))), s.(failedAttempts := s.failedAttempts + 1))
  {
    assert !LockActive(s, now) && !LockExpired(s, now);
  }

  /**
   * Three wrong passwords in a row lock a fresh account at the third attempt, after which
   * even the right password is refused until the lock period has passed, and then accepted.
   */
  lemma {:induction false} ThreeStrikes(t1: int, t2: int, t3: int, t4: int, t5: int, id: int)
    requires t3 <= t4 < t3 + LockSeconds && t5 >= t3 + LockSeconds
    ensures var s0 := AccountState(false, None, 0);
      var (r1, s1) := LoginStep(s0, false, t1, id);
      var (r2, s2) := LoginStep(s1, false, t2, id);
      var (r3, s3) := LoginStep(s2, false, t3, id);
      var (r4, s4) := LoginStep(s3, true, t4, id);
      var (r5, s5) := LoginStep(s4, true, t5, id);
      r1 == Err(WrongPassword(2)) && r2 == Err(WrongPassword(1)) &&
      r3 == Err(NewlyLocked) && s3 == AccountState(true, Some(t3), 3) &&
      r4.Err? && r4.error.StillLocked? && s4 == s3 &&
      r5 == Ok(IssueToken(id)) && s5 == AccountState(false, None, 0)
  {
    var s0 := AccountState(false, None, 0);
    WrongPasswordCounts(s0, t1, id);
    var s1 := AccountState(false, None, 1);
    WrongPasswordCounts(s1, t2, id);
    var s2 := AccountState(false, None, 2);
    assert !LockActive(s2, t3) && !LockExpired(s2, t3);
    var s3 := AccountState(true, Some(t3), 3);
    LockHolds(s3, true, t4, id);
    LockExpires(s3, t5, id);
  }

  /**
   * A row marked locked but without a lock time skips the lock check entirely: the right
   * password logs in, and the row stays marked locked.
   */
  lemma LockedWithoutTimeAdmits(attempts: int, now: int, id: int)
    requires attempts >= 0
    ensures LoginStep(AccountState(true, None, attempts), true, now, id) ==
      (Ok(IssueToken(id)), AccountState(true, None, 0))
  {
  }

  // ----- Client-credentials grant -----

  /** A FastAPI `HTTPException`: status and detail. */
  datatype HttpError = HttpError(status: int, detail: string)

  /** How the grant endpoint can fail. */
  datatype GrantFailure = Http(http: HttpError) | App(app: AppError)

  /** The requested scopes that `OAUTH2_SCOPES` does not define, in request order. */
  function InvalidScopes(requested: seq<string>): (r: seq<string>)
    ensures forall x :: x in r <==> x in requested && x !in OAuth2Scopes
    ensures |r| <= |requested|
  {
    if |requested| == 0 then []
    else
      var rest := InvalidScopes(requested[1..]);
      assert forall x :: x in requested <==> x == requested[0] || x in requested[1..];
      if requested[0] in OAuth2Scopes then rest else [requested[0]] + rest
  }

  /** A scope `OAUTH2_SCOPES` does not define. */
  predicate UndefinedScope(scope: string)
  {
    scope !in OAuth2Scopes
  }

  /**
   * The invalid scopes are the undefined requested ones in request order, repeats kept:
   * the `k`-th is the requested scope at the `k`-th undefined position.
   */
  lemma {:induction false} InvalidScopesInOrder(requested: seq<string>)
    ensures |InvalidScopes(requested)| == |Positions(requested, UndefinedScope)|
    ensures forall k :: 0 <= k < |InvalidScopes(requested)| ==>
      Positions(requested, UndefinedScope)[k] < |requested| &&
      InvalidScopes(requested)[k] == requested[Positions(requested, UndefinedScope)[k]]
  {
    if |requested| > 0 {
      var rest := requested[1..];
      InvalidScopesInOrder(rest);
      var ps := Positions(rest, UndefinedScope);
      var sh := Shifted(ps);
      forall k | 0 <= k < |ps|
        ensures sh[k] < |requested| && requested[sh[k]] == rest[ps[k]]
      {
      }
      if requested[0] !in OAuth2Scopes {
        assert InvalidScopes(requested) == [requested[0]] + InvalidScopes(rest);
        assert Positions(requested, UndefinedScope) == [0] + sh;
      } else {
        assert InvalidScopes(requested) == InvalidScopes(rest);
        assert Positions(requested, UndefinedScope) == sh;
      }
    }
  }

  /** `scope.split()` when the scope is non-empty, else none. */
  function RequestedScopes(scope: string): seq<string>
  {
    if scope != "" then SplitWhitespace(scope) else []
  }

  /** `get_client_credentials_token`. */
  function ClientCredentialsGrant(m: ClientCredentialsManager, clientId: string, clientSecret: string,
                                  scope: string, now: int, encode: ClientClaims -> string): (r: Result<ClientToken, GrantFailure>)
    ensures !VerifyClientCredentials(m, clientId, clientSecret) ==> r == Err(Http(HttpError(401, "Invalid client credentials")))
    ensures VerifyClientCredentials(m, clientId, clientSecret) && InvalidScopes(RequestedScopes(scope)) != [] ==>
      r == Err(Http(HttpError(400, "Invalid scopes: " + Join(InvalidScopes(RequestedScopes(scope)), ", "))))
  {
    if !VerifyClientCredentials(m, clientId, clientSecret) then Err(Http(HttpError(401, "Invalid client credentials")))
    else
      var requested := RequestedScopes(scope);
      var invalid := InvalidScopes(requested);
      if invalid != [] then Err(Http(HttpError(400, "Invalid scopes: " + Join(invalid, ", "))))
      else
        match CreateClientToken(m, requested, now, encode)
        case Ok(t) => Ok(t)
        case Err(e) => Err(App(e))
  }

  /**
   * With valid credentials the grant never reaches the "not configured" error: it either
   * names the unknown scopes or issues a bearer token for exactly the requested scopes,
   * all of them known, whose scope string splits back into them.
   */
  lemma GrantIssuesRequestedScopes(m: ClientCredentialsManager, clientId: string, clientSecret: string,
                                   scope: string, now: int, encode: ClientClaims -> string)
    requires VerifyClientCredentials(m, clientId, clientSecret)
    ensures var r := ClientCredentialsGrant(m, clientId, clientSecret, scope, now, encode);
      var requested := RequestedScopes(scope);
      (r.Ok? <==> forall x :: x in requested ==> x in OAuth2Scopes) &&
      (r.Err? ==> r.error.Http? && r.error.http.status == 400) &&
      (r.Ok? ==> r.value.tokenType == "bearer" && r.value.expiresIn == m.tokenExpireMinutes * 60 &&
                 SplitWhitespace(r.value.scope) == requested)
  {
    var requested := RequestedScopes(scope);
    assert forall i :: 0 <= i < |requested| ==> IsWord(requested[i]);
    if InvalidScopes(requested) != [] {
      var x := InvalidScopes(requested)[0];
      assert x in InvalidScopes(requested);
    } else {
      IssuedScopeRoundTrip(m, requested, now, encode);
    }
  }

  /** A route of the auth router: its path under the router, its method and the registry key it declares. */
  datatype AuthRoute = AuthRoute(path: string, verb: string, key: string)

  const AuthRoutes: seq<AuthRoute> := [
    AuthRoute("/register-by-email-password", "POST", "/api/v1/auth/register-by-email-password:POST"),
    AuthRoute("/login-by-email-password", "POST", "/api/v1/auth/login-by-email-password:POST"),
    AuthRoute("/login-json", "POST", "/api/v1/auth/login-json:POST"),
    AuthRoute("/me", "GET", "/api/v1/auth/me:GET"),
    AuthRoute("/token/client-credentials", "POST", "/api/v1/auth/token/client-credentials:POST")
  ]

  /** Every declared key has a colon, between the route's full path and its method. */
  lemma AuthRouteKeysHaveColon()
    ensures forall r :: r in AuthRoutes ==> ':' in r.key
  {
    assert AuthRoutes[0].key[39] == ':';
    assert AuthRoutes[1].key[36] == ':';
    assert AuthRoutes[2].key[23] == ':';
    assert AuthRoutes[3].key[15] == ':';
    assert AuthRoutes[4].key[37] == ':';
  }

  /**
   * Since every declared key has a colon, decoration keeps it as given and every call
   * checks exactly that key, whatever the request path and method.
   */
  lemma AuthRouteKeysChecked(r: AuthRoute, funcName: string, actualPath: string, verb: string,
                             enabled: bool, description: string)
    requires r in AuthRoutes
    ensures EndpointGates.DeriveKey(Some(r.key), funcName) == Some(r.key)
    ensures EndpointGates.CheckKey(EndpointGates.ControlledEndpoint(Some(r.key), enabled, description), actualPath, verb) == r.key
  {
    AuthRouteKeysHaveColon();
  }
}
