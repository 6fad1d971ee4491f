/**
 * Properties of registration, login, refresh-token rotation, logout and the
 * admin handlers, each relating two or more operations or stating a rule
 * the controllers promise.
 */
module AccountProperties {
  import opened Common
  import opened Text
  import opened Envelopes
  import opened AccountModel
  import opened Auth
  import Users
  import Middleware

  // ---------- registration

  /** Neither registration endpoint can create an admin. */
  lemma RegisteredRoleIsNeverAdmin(accounts: seq<Account>, id: UserId, body: RegisterBody, passwordHash: string)
    ensures RegisterCommit(accounts, id, RegisterStep(body, accounts), passwordHash).reply.Ok? ==>
      RegisterCommit(accounts, id, RegisterStep(body, accounts), passwordHash).accounts[|accounts|].role != Admin
    ensures RegisterCommit(accounts, id, Users.RegisterStep(body, accounts), passwordHash).reply.Ok? ==>
      RegisterCommit(accounts, id, Users.RegisterStep(body, accounts), passwordHash).accounts[|accounts|].role != Admin
  {
  }

  /**
   * The blank check only catches present fields: an absent name passes it
   * and is refused by the schema instead, as a 500.
   */
  lemma AbsentNameIsServerError(accounts: seq<Account>, id: UserId, body: RegisterBody, passwordHash: string)
    requires body.fullName.None?
    requires !AnyPresentBlank(body) && !EmailTaken(accounts, body.email) && RegistrationRole(body.role).Some?
    ensures RegisterCommit(accounts, id, RegisterStep(body, accounts), passwordHash).reply == Fail(500, ValidationFailedMessage)
  {
  }

  /** Registering the same email twice is a 409 the second time, whatever its case or padding. */
  lemma SecondRegistrationConflicts(accounts: seq<Account>, id: UserId, body: RegisterBody, again: RegisterBody,
                                    passwordHash: string)
    requires RegisterCommit(accounts, id, RegisterStep(body, accounts), passwordHash).reply.Ok?
    requires again.email.Some? && NormalEmail(again.email.value) == NormalEmail(body.email.value)
    requires !AnyPresentBlank(again)
    ensures var after := RegisterCommit(accounts, id, RegisterStep(body, accounts), passwordHash).accounts;
      RegisterStep(again, after) == Refuse(NewApiError(409, EmailTakenMessage))
  {
    var a := Created(RegisterStep(body, accounts).document, id, passwordHash);
    var after := accounts + [a];
    assert after[|accounts|].email == NormalEmail(again.email.value);
    assert FindByEmail(after, NormalEmail(again.email.value)).Some?;
  }

  /** The user endpoint refuses a name with a digit that the auth endpoint accepts. */
  lemma DigitNameOnlyRefusedByUserEndpoint(accounts: seq<Account>, body: RegisterBody)
    requires RegisterStep(body, accounts).Save? && Users.NameHasDigit(body.fullName)
    ensures Users.RegisterStep(body, accounts) == Refuse(NewApiError(400, Users.NameHasDigitMessage))
  {
  }

  // ---------- login

  /**
   * An unknown email and a wrong password for a known one produce the same
   * reply, so the response does not tell which accounts exist.
   */
  lemma LoginFailuresLookAlike(known: seq<Account>, unknown: seq<Account>, email: string, password: string,
                               passwordMatches: (string, string) -> bool, accessToken: Token, refreshToken: Token)
    requires email != "" && password != ""
    requires FindByEmail(unknown, NormalEmail(email)).None?
    requires var i := FindByEmail(known, NormalEmail(email));
      i.Some? && !passwordMatches(password, known[i.value].password)
    ensures LoginOutcome(known, Some(email), Some(password), passwordMatches, accessToken, refreshToken).reply
         == LoginOutcome(unknown, Some(email), Some(password), passwordMatches, accessToken, refreshToken).reply
  {
  }

  // ---------- refresh-token rotation (the intended behaviour)

  /** The incoming refresh token once the cookie-or-body choice is made. */
  function Incoming(t: Token): Option<Token> {
    Some(t)
  }

  /**
   * After a successful refresh the token that was used no longer matches,
   * and the one just issued does.
   */
  lemma RotationRetiresOldToken(accounts: seq<Account>, id: UserId, t: Token, access: Token, t2: Token,
                                access': Token, t3: Token)
    requires t2 != t && t2 != ""
    requires RefreshOutcome(accounts, Incoming(t), None, Verified(id), access, t2).reply.Ok?
    ensures var after := RefreshOutcome(accounts, Incoming(t), None, Verified(id), access, t2).accounts;
      RefreshOutcome(after, Incoming(t), None, Verified(id), access', t3).reply == Fail(401, StaleRefreshMessage)
    ensures var after := RefreshOutcome(accounts, Incoming(t), None, Verified(id), access, t2).accounts;
      RefreshOutcome(after, Incoming(t2), None, Verified(id), access', t3).reply.Ok?
  {
    var i := FindById(accounts, id).value;
    FindByIdAfterEdit(accounts, i, accounts[i].(refreshToken := Some(t2)), id);
  }

  /** After logout no refresh token is accepted for that user. */
  lemma LogoutEndsRefresh(accounts: seq<Account>, id: UserId, cookie: Option<Token>, bodyToken: Option<Token>,
                          access: Token, issued: Token)
    ensures var after := LogoutOutcome(accounts, id).accounts;
      RefreshOutcome(after, cookie, bodyToken, Verified(id), access, issued).reply.Err?
  {
    var i := FindById(accounts, id);
    if i.Some? {
      FindByIdAfterEdit(accounts, i.value, accounts[i.value].(refreshToken := None), id);
    }
  }

  /** The refresh token a successful login issues is accepted by the next refresh. */
  lemma LoginThenRefreshSucceeds(accounts: seq<Account>, email: Option<string>, password: Option<string>,
                                 passwordMatches: (string, string) -> bool, access: Token, t: Token,
                                 access': Token, t2: Token)
    requires t != ""
    requires ValidAccounts(accounts)
    requires LoginOutcome(accounts, email, password, passwordMatches, access, t).reply.Ok?
    ensures var o := LoginOutcome(accounts, email, password, passwordMatches, access, t);
      var u := o.reply.response.data.user.id;
      RefreshOutcome(o.accounts, Incoming(t), None, Verified(u), access', t2).reply.Ok?
  {
    var i := FindByEmail(accounts, NormalEmail(email.value)).value;
    var u := accounts[i].id;
    FindByIdAfterEdit(accounts, i, accounts[i].(refreshToken := Some(t)), u);
    assert FindById(accounts, u) == Some(i);
  }

  // ---------- refresh-token rotation as written

  /** The collection as it reads back under the schema as written. */
  function ReadBackAsWritten(accounts: seq<Account>): (r: seq<Account>)
    ensures |r| == |accounts|
    ensures forall k | 0 <= k < |accounts| :: r[k] == StoredAsWritten(accounts[k])
  {
    seq(|accounts|, k requires 0 <= k < |accounts| => StoredAsWritten(accounts[k]))
  }

  /**
   * As written, no refresh ever succeeds: the stored refreshToken is never
   * persisted, so the incoming token never equals it.
   */
  lemma RefreshAlwaysFailsAsWritten(accounts: seq<Account>, cookie: Option<Token>, bodyToken: Option<Token>,
                                    verified: Verified, access: Token, issued: Token)
    ensures RefreshOutcome(ReadBackAsWritten(accounts), cookie, bodyToken, verified, access, issued).reply.Err?
  {
  }

  /** In particular, the token a login has just issued is refused at once, as used or expired. */
  lemma LoginThenRefreshFailsAsWritten(accounts: seq<Account>, email: Option<string>, password: Option<string>,
                                       passwordMatches: (string, string) -> bool, access: Token, t: Token,
                                       access': Token, t2: Token)
    requires t != ""
    requires ValidAccounts(accounts)
    requires LoginOutcome(accounts, email, password, passwordMatches, access, t).reply.Ok?
    ensures var o := LoginOutcome(accounts, email, password, passwordMatches, access, t);
      var u := o.reply.response.data.user.id;
      RefreshOutcome(ReadBackAsWritten(o.accounts), Incoming(t), None, Verified(u), access', t2).reply
        == Fail(401, StaleRefreshMessage)
  {
    var o := LoginOutcome(accounts, email, password, passwordMatches, access, t);
    var i := FindByEmail(accounts, NormalEmail(email.value)).value;
    var u := accounts[i].id;
    var back := ReadBackAsWritten(o.accounts);
    assert back[i].id == u;
    assert FindById(back, u).Some?;
  }

  // ---------- the admin handlers

  /** Toggling an account twice restores the collection. */
  lemma ToggleTwiceRestores(accounts: seq<Account>, requester: UserId, id: UserId)
    requires Users.ToggleOutcome(accounts, requester, id).reply.Ok?
    ensures var once := Users.ToggleOutcome(accounts, requester, id).accounts;
      Users.ToggleOutcome(once, requester, id).reply.Ok?
      && Users.ToggleOutcome(once, requester, id).accounts == accounts
  {
    var i := FindById(accounts, id).value;
    var a := accounts[i].(isActive := !accounts[i].isActive);
    FindByIdAfterEdit(accounts, i, a, id);
    var once := accounts[i := a];
    assert once[i := once[i].(isActive := !once[i].isActive)] == accounts;
  }

  /** Toggling reports the state it leaves: "activated" exactly when the account was inactive. */
  lemma ToggleMessageNamesNewState(accounts: seq<Account>, requester: UserId, id: UserId)
    requires Users.ToggleOutcome(accounts, requester, id).reply.Ok?
    ensures var r := Users.ToggleOutcome(accounts, requester, id).reply.response;
      (r.message == "User activated successfully") <==> !accounts[FindById(accounts, id).value].isActive
  {
  }

  /**
   * As written, toggling changes nothing and always says "activated": for an
   * active account the reply claims the opposite of what the handler is
   * meant to do, which is to deactivate it.
   */
  lemma ToggleActiveAsWrittenIsNoOp(accounts: seq<Account>, requester: UserId, id: UserId)
    requires Users.ToggleOutcome(accounts, requester, id).reply.Ok?
    requires accounts[FindById(accounts, id).value].isActive
    ensures Users.ToggleOutcomeAsWritten(accounts, requester, id).accounts == accounts
    ensures Users.ToggleOutcomeAsWritten(accounts, requester, id).reply.response.message == "User activated successfully"
    ensures Users.ToggleOutcome(accounts, requester, id).reply.response.message == "User deactivated successfully"
    ensures Users.ToggleOutcome(accounts, requester, id).accounts != accounts
  {
    var i := FindById(accounts, id).value;
    assert Users.ToggleOutcome(accounts, requester, id).accounts[i].isActive == false;
  }

  /** Deleting removes the account and keeps every other one. */
  lemma DeleteRemovesOnlyTarget(accounts: seq<Account>, requester: UserId, id: UserId, other: Account)
    requires ValidAccounts(accounts)
    requires Users.DeleteOutcome(accounts, requester, id).reply.Ok?
    ensures FindById(Users.DeleteOutcome(accounts, requester, id).accounts, id).None?
    ensures other in accounts && other.id != id ==> other in Users.DeleteOutcome(accounts, requester, id).accounts
  {
    var i := FindById(accounts, id).value;
    var after := Users.Without(accounts, i);
    forall k | 0 <= k < |after|
      ensures after[k].id != id
    {
      if k < i {
        assert after[k] == accounts[k];
      } else {
        assert after[k] == accounts[k + 1];
      }
    }
    if other in accounts && other.id != id {
      var k :| 0 <= k < |accounts| && accounts[k] == other;
      assert k != i;
      if k < i {
        assert after[k] == other;
      } else {
        assert after[k - 1] == other;
      }
    }
  }

  /** A deleted user can neither refresh nor pass verifyJWT any more. */
  lemma DeletedUserIsLockedOut(accounts: seq<Account>, requester: UserId, id: UserId,
                               cookie: Option<Token>, bodyToken: Option<Token>, authorization: Option<string>,
                               access: Token, issued: Token)
    requires ValidAccounts(accounts)
    requires Users.DeleteOutcome(accounts, requester, id).reply.Ok?
    ensures var after := Users.DeleteOutcome(accounts, requester, id).accounts;
      RefreshOutcome(after, cookie, bodyToken, Verified(id), access, issued).reply.Err?
      && Middleware.VerifyJwt(after, cookie, authorization, Verified(id)).Stop?
  {
    DeleteRemovesOnlyTarget(accounts, requester, id, accounts[0]);
  }

  /**
   * The user controller's login refuses exactly as the auth controller's
   * does, and where the auth controller logs in it answers 500 and stores
   * nothing: it never issues tokens.
   */
  lemma UserControllerLoginNeverSucceeds(accounts: seq<Account>, email: Option<string>, password: Option<string>,
                                          passwordMatches: (string, string) -> bool, access: Token, t: Token)
    ensures var mine := Users.LoginOutcome(accounts, email, password, passwordMatches);
      var auth := LoginOutcome(accounts, email, password, passwordMatches, access, t);
      (auth.reply.Err? ==> mine == auth)
      && (auth.reply.Ok? ==> mine == Outcome(Fail(500, Users.MissingTokenMethodMessage), accounts))
  {
  }

  /**
   * Likewise for refresh: every refusal is the auth controller's, and where
   * the auth controller rotates the token the user controller answers 401.
   */
  lemma UserControllerRefreshNeverSucceeds(accounts: seq<Account>, cookie: Option<Token>, bodyToken: Option<Token>,
                                            verified: Verified, access: Token, t: Token)
    ensures var mine := Users.RefreshOutcome(accounts, cookie, bodyToken, verified);
      var auth := RefreshOutcome(accounts, cookie, bodyToken, verified, access, t);
      (auth.reply.Err? ==> mine == auth)
      && (auth.reply.Ok? ==> mine == Outcome(Fail(401, Users.MissingTokenMethodMessage), accounts))
  {
  }

  /** verifyJWT looks an account up by id only, so toggling the flag does not change who passes. */
  lemma ToggleKeepsVerifyJwt(accounts: seq<Account>, requester: UserId, id: UserId,
                             cookie: Option<string>, authorization: Option<string>, verified: Verified)
    requires Users.ToggleOutcome(accounts, requester, id).reply.Ok?
    ensures var after := Users.ToggleOutcome(accounts, requester, id).accounts;
      (Middleware.VerifyJwt(after, cookie, authorization, verified).Next?
       <==> Middleware.VerifyJwt(accounts, cookie, authorization, verified).Next?)
  {
    var i := FindById(accounts, id).value;
    var a := accounts[i].(isActive := !accounts[i].isActive);
    assert Users.ToggleOutcome(accounts, requester, id).accounts == accounts[i := a];
    if verified.Verified? {
      FindByIdAfterEdit(accounts, i, a, verified.id);
    }
  }

  /**
   * Deactivation is not enforced: neither login nor verifyJWT reads
   * isActive, so a deactivated account still logs in and passes.
   */
  lemma DeactivatedUserStillLogsIn(accounts: seq<Account>, requester: UserId, id: UserId,
                                   email: Option<string>, password: Option<string>,
                                   passwordMatches: (string, string) -> bool, access: Token, t: Token,
                                   cookie: Option<string>, authorization: Option<string>, verified: Verified)
    requires Users.ToggleOutcome(accounts, requester, id).reply.Ok?
    ensures var after := Users.ToggleOutcome(accounts, requester, id).accounts;
      (LoginOutcome(after, email, password, passwordMatches, access, t).reply.Ok?
       <==> LoginOutcome(accounts, email, password, passwordMatches, access, t).reply.Ok?)
    ensures var after := Users.ToggleOutcome(accounts, requester, id).accounts;
      (Middleware.VerifyJwt(after, cookie, authorization, verified).Next?
       <==> Middleware.VerifyJwt(accounts, cookie, authorization, verified).Next?)
  {
    ToggleKeepsVerifyJwt(accounts, requester, id, cookie, authorization, verified);
    var i := FindById(accounts, id).value;
    var a := accounts[i].(isActive := !accounts[i].isActive);
    assert Users.ToggleOutcome(accounts, requester, id).accounts == accounts[i := a];
    if Truthy(email) {
      FindByEmailAfterEdit(accounts, i, a, NormalEmail(email.value));
      var j := FindByEmail(accounts, NormalEmail(email.value));
      if j.Some? {
        assert accounts[i := a][j.value].password == accounts[j.value].password;
      }
    }
  }
}
