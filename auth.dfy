/**
 * The auth controller: registration checks, login, logout and refresh-token
 * rotation on the account collection. Password hashing and comparison and
 * token signing are foreign code: the hash, the comparison and the issued
 * tokens are parameters.
 */
module Auth {
  import opened Common
  import opened Text
  import opened Envelopes
  import opened AccountModel

  // ---------- registerUser

  datatype RegisterBody = RegisterBody(fullName: Option<string>, email: Option<string>,
                                       password: Option<string>, role: Option<string>)

  /** field?.trim() === "": a present field that is blank. An absent field passes. */
  predicate PresentBlank(f: Option<string>) {
    f.Some? && Trim(f.value) == ""
  }

  predicate AnyPresentBlank(b: RegisterBody) {
    PresentBlank(b.fullName) || PresentBlank(b.email) || PresentBlank(b.password)
  }

  const AllFieldsRequiredMessage: string := "All fields are required"
  const EmailTakenMessage: string := "User with this email already exists"
  const InvalidRoleMessage: string := "Invalid role. Must be patient, therapist, or supervisor"

  /**
   * role || "patient", where a truthy role must be one of
   * patient, therapist and supervisor; None when it is not.
   */
  function RegistrationRole(role: Option<string>): (r: Option<Role>)
    ensures !Truthy(role) ==> r == Some(Patient)
    ensures Truthy(role) ==>
      (r.Some? <==> role.value == "patient" || role.value == "therapist" || role.value == "supervisor")
    ensures Truthy(role) && r.Some? ==> RoleName(r.value) == role.value
    ensures r.Some? ==> r.value != Admin
  {
    if !Truthy(role) then Some(Patient)
    else
      var p := ParseRole(role.value);
      if p.Some? && p.value != Admin then p else None
  }

  /** Whether some account already holds the email, looked up with the schema's setters applied. */
  predicate EmailTaken(accounts: seq<Account>, email: Option<string>) {
    email.Some? && FindByEmail(accounts, NormalEmail(email.value)).Some?
  }

  /** The fields User.create receives. */
  datatype Draft = Draft(fullName: Option<string>, email: Option<string>, password: Option<string>, role: Role)

  function RegisterStep(body: RegisterBody, accounts: seq<Account>): (r: Step<Draft>)
    ensures r.Save? <==>
      !AnyPresentBlank(body) && !EmailTaken(accounts, body.email) && RegistrationRole(body.role).Some?
    ensures r.Save? ==>
      r.document == Draft(body.fullName, body.email, body.password, RegistrationRole(body.role).value)
    ensures AnyPresentBlank(body) ==> r == Refuse(NewApiError(400, AllFieldsRequiredMessage))
    ensures !AnyPresentBlank(body) && EmailTaken(accounts, body.email) ==>
      r == Refuse(NewApiError(409, EmailTakenMessage))
    ensures !AnyPresentBlank(body) && !EmailTaken(accounts, body.email) && RegistrationRole(body.role).None? ==>
      r == Refuse(NewApiError(400, InvalidRoleMessage))
  {
    if AnyPresentBlank(body) then Refuse(NewApiError(400, AllFieldsRequiredMessage))
    else if EmailTaken(accounts, body.email) then Refuse(NewApiError(409, EmailTakenMessage))
    else
      var role := RegistrationRole(body.role);
      if role.None? then Refuse(NewApiError(400, InvalidRoleMessage))
      else Save(Draft(body.fullName, body.email, body.password, role.value))
  }

  /** The schema's required, trim, lowercase, minlength and maxlength rules on a draft. */
  predicate DraftValid(d: Draft) {
    d.fullName.Some? && NameLengthValid(Trim(d.fullName.value))
    && d.email.Some? && Trim(d.email.value) != ""
    && d.password.Some? && |d.password.value| >= MinPasswordLength
  }

  /** The document User.create stores; a new account is active and has no refresh token. */
  function Created(d: Draft, id: UserId, passwordHash: string): (a: Account)
    requires DraftValid(d)
    ensures a.id == id && a.fullName == Trim(d.fullName.value) && a.email == NormalEmail(d.email.value)
    ensures a.password == passwordHash && a.role == d.role && a.isActive && a.refreshToken.None?
  {
    Account(id, Trim(d.fullName.value), NormalEmail(d.email.value), passwordHash, d.role, true, None)
  }

  /**
   * Runs a registration step: a refusal leaves the collection as it was, a
   * draft the schema rejects is a 500, and a valid one is appended.
   */
  function RegisterCommit(accounts: seq<Account>, id: UserId, step: Step<Draft>, passwordHash: string): (o: Outcome<PublicUser>)
    ensures step.Refuse? ==> o == Outcome(Err(step.error), accounts)
    ensures step.Save? && !DraftValid(step.document) ==> o == Outcome(Fail(500, ValidationFailedMessage), accounts)
    ensures o.reply.Ok? <==> step.Save? && DraftValid(step.document)
    ensures o.reply.Ok? ==>
      o.accounts == accounts + [Created(step.document, id, passwordHash)]
      && o.reply == Succeed(201, Public(Created(step.document, id, passwordHash)), "User registered successfully")
  {
    match step
    case Refuse(e) => Outcome(Err(e), accounts)
    case Save(d) =>
      if !DraftValid(d) then Outcome(Fail(500, ValidationFailedMessage), accounts)
      else
        var a := Created(d, id, passwordHash);
        Outcome(Succeed(201, Public(a), "User registered successfully"), accounts + [a])
  }

  /** A registration that passed the duplicate check keeps ids and emails unique. */
  lemma RegisterKeepsValid(accounts: seq<Account>, id: UserId, step: Step<Draft>, passwordHash: string)
    requires ValidAccounts(accounts)
    requires forall k | 0 <= k < |accounts| :: accounts[k].id < id
    requires step.Save? ==> !EmailTaken(accounts, step.document.email)
    ensures ValidAccounts(RegisterCommit(accounts, id, step, passwordHash).accounts)
  {
    if step.Save? && DraftValid(step.document) {
      var a := Created(step.document, id, passwordHash);
      assert FindByEmail(accounts, a.email).None?;
      ValidAfterAppend(accounts, a);
    }
  }

  // ---------- loginUser

  const CredentialsRequiredMessage: string := "Email and password are required"
  const InvalidCredentialsMessage: string := "Invalid email or password"

  datatype LoginData = LoginData(user: PublicUser, accessToken: Token, refreshToken: Token)

  /**
   * passwordMatches(given, stored) stands for bcrypt.compare; accessToken and
   * refreshToken are what generateTokens signs for the user. The new refresh
   * token is stored on the account.
   */
  function LoginOutcome(accounts: seq<Account>, email: Option<string>, password: Option<string>,
                        passwordMatches: (string, string) -> bool,
                        accessToken: Token, refreshToken: Token): (o: Outcome<LoginData>)
    ensures !Truthy(email) || !Truthy(password) ==> o == Outcome(Fail(400, CredentialsRequiredMessage), accounts)
    ensures o.reply.Ok? <==>
      Truthy(email) && Truthy(password)
      && var i := FindByEmail(accounts, NormalEmail(email.value));
      i.Some? && passwordMatches(password.value, accounts[i.value].password)
    ensures Truthy(email) && Truthy(password) && o.reply.Err? ==>
      o == Outcome(Fail(401, InvalidCredentialsMessage), accounts)
    ensures o.reply.Ok? ==>
      var i := FindByEmail(accounts, NormalEmail(email.value)).value;
      o.accounts == accounts[i := accounts[i].(refreshToken := Some(refreshToken))]
      && o.reply == Succeed(200, LoginData(Public(accounts[i]), accessToken, refreshToken), "User logged in successfully")
  {
    if !Truthy(email) || !Truthy(password) then Outcome(Fail(400, CredentialsRequiredMessage), accounts)
    else
      var i := FindByEmail(accounts, NormalEmail(email.value));
      if i.None? then Outcome(Fail(401, InvalidCredentialsMessage), accounts)
      else if !passwordMatches(password.value, accounts[i.value].password) then
        Outcome(Fail(401, InvalidCredentialsMessage), accounts)
      else
        var a := accounts[i.value];
        Outcome(Succeed(200, LoginData(Public(a), accessToken, refreshToken), "User logged in successfully"),
                accounts[i.value := a.(refreshToken := Some(refreshToken))])
  }

  // ---------- logoutUser

  /** Unsets the requester's refresh token; a missing account is not an error. */
  function LogoutOutcome(accounts: seq<Account>, requester: UserId): (o: Outcome<()>)
    ensures o.reply == Succeed(200, (), "User logged out successfully")
    ensures |o.accounts| == |accounts|
    ensures forall k | 0 <= k < |accounts| ::
      o.accounts[k] == if accounts[k].id == requester && Some(k) == FindById(accounts, requester)
                       then accounts[k].(refreshToken := None) else accounts[k]
  {
    var i := FindById(accounts, requester);
    var after := if i.None? then accounts else accounts[i.value := accounts[i.value].(refreshToken := None)];
    Outcome(Succeed(200, (), "User logged out successfully"), after)
  }

  // ---------- refreshAccessToken

  const UnauthorizedMessage: string := "Unauthorized request"
  const InvalidRefreshMessage: string := "Invalid refresh token"
  const StaleRefreshMessage: string := "Refresh token is expired or used"

  datatype TokenPair = TokenPair(accessToken: Token, refreshToken: Token)

  /** error?.message || fallback. */
  function MessageOr(message: string, fallback: string): (r: string)
    ensures message != "" ==> r == message
    ensures message == "" ==> r == fallback
  {
    if message != "" then message else fallback
  }

  /**
   * The incoming token is the refreshToken cookie, or the body's when the
   * cookie is falsy; verified is what jwt.verify makes of it. Every failure
   * is a 401.
   */
  function RefreshOutcome(accounts: seq<Account>, cookie: Option<Token>, bodyToken: Option<Token>,
                          verified: Verified, accessToken: Token, newRefreshToken: Token): (o: Outcome<TokenPair>)
    ensures o.reply.Err? ==> o.accounts == accounts && o.reply.error.statusCode == 401
    ensures !Truthy(FirstTruthy(cookie, bodyToken)) ==> o.reply == Fail(401, UnauthorizedMessage)
    ensures o.reply.Ok? <==>
      var incoming := FirstTruthy(cookie, bodyToken);
      Truthy(incoming) && verified.Verified?
      && var i := FindById(accounts, verified.id);
      i.Some? && accounts[i.value].refreshToken == incoming
    ensures o.reply.Ok? ==>
      var i := FindById(accounts, verified.id).value;
      o.accounts == accounts[i := accounts[i].(refreshToken := Some(newRefreshToken))]
      && o.reply == Succeed(200, TokenPair(accessToken, newRefreshToken), "Access token refreshed successfully")
  {
    var incoming := FirstTruthy(cookie, bodyToken);
    if !Truthy(incoming) then Outcome(Fail(401, UnauthorizedMessage), accounts)
    else match verified
      case Rejected(message) => Outcome(Fail(401, MessageOr(message, InvalidRefreshMessage)), accounts)
      case Verified(id) =>
        var i := FindById(accounts, id);
        if i.None? then Outcome(Fail(401, InvalidRefreshMessage), accounts)
        else if incoming != accounts[i.value].refreshToken then Outcome(Fail(401, StaleRefreshMessage), accounts)
        else
          Outcome(Succeed(200, TokenPair(accessToken, newRefreshToken), "Access token refreshed successfully"),
                  accounts[i.value := accounts[i.value].(refreshToken := Some(newRefreshToken))])
  }

  // ---------- the refreshtoken spelling in the schema

  /**
   * As written, the user schema declares refreshtoken, not refreshToken.
   * Under Mongoose's default strict mode a path the schema does not declare
   * is neither saved nor unset, so an account read back from the collection
   * never carries the token the controller assigned.
   */
  function StoredAsWritten(a: Account): (r: Account)
    ensures r.refreshToken.None?
    ensures r.(refreshToken := a.refreshToken) == a
  {
    a.(refreshToken := None)
  }
}
