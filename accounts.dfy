/**
 * The users collection as one object whose handlers update it in place:
 * registration appends an account, login and refresh overwrite its
 * refreshToken, logout unsets it, toggle-active negates isActive, and
 * delete removes the account. Each handler is tied to the function in Auth
 * or Users that decides it.
 */
module Accounts {
  import opened Common
  import opened Text
  import opened Envelopes
  import opened AccountModel
  import Auth
  import Users

  /** Removing one account keeps ids and emails unique. */
  lemma ValidAfterRemoval(accounts: seq<Account>, i: nat)
    requires ValidAccounts(accounts) && i < |accounts|
    ensures ValidAccounts(Users.Without(accounts, i))
  {
    var r := Users.Without(accounts, i);
    forall p, q | 0 <= p < q < |r|
      ensures r[p].id != r[q].id && r[p].email != r[q].email
    {
      var p' := if p < i then p else p + 1;
      var q' := if q < i then q else q + 1;
      assert r[p] == accounts[p'] && r[q] == accounts[q'] && p' < q';
    }
  }

  class AccountStore {
    var accounts: seq<Account>
    var nextId: UserId

    /** Unique ids and emails; every id was handed out before nextId. */
    predicate Valid()
      reads this
    {
      ValidAccounts(accounts) && forall k | 0 <= k < |accounts| :: accounts[k].id < nextId
    }

    constructor()
      ensures Valid() && accounts == [] && nextId == 0
    {
      accounts := [];
      nextId := 0;
    }

    /** Runs a registration step and hands out the next id when an account was created. */
    method Apply(step: Step<Auth.Draft>, passwordHash: string) returns (r: Reply<PublicUser>)
      requires Valid()
      requires step.Save? ==> !Auth.EmailTaken(accounts, step.document.email)
      modifies this
      ensures Valid()
      ensures Outcome(r, accounts) == Auth.RegisterCommit(old(accounts), old(nextId), step, passwordHash)
      ensures nextId == if r.Ok? then old(nextId) + 1 else old(nextId)
    {
      var o := Auth.RegisterCommit(accounts, nextId, step, passwordHash);
      Auth.RegisterKeepsValid(accounts, nextId, step, passwordHash);
      accounts := o.accounts;
      r := o.reply;
      if r.Ok? {
        nextId := nextId + 1;
      }
    }

    /** POST /auth/register. */
    method Register(body: Auth.RegisterBody, passwordHash: string) returns (r: Reply<PublicUser>)
      requires Valid()
      modifies this
      ensures Valid()
      ensures Outcome(r, accounts) ==
        Auth.RegisterCommit(old(accounts), old(nextId), Auth.RegisterStep(body, old(accounts)), passwordHash)
      ensures nextId == if r.Ok? then old(nextId) + 1 else old(nextId)
    {
      var step := Auth.RegisterStep(body, accounts);
      r := Apply(step, passwordHash);
    }

    /** POST /users/register: the same, with the digit check on the name. */
    method RegisterUser(body: Auth.RegisterBody, passwordHash: string) returns (r: Reply<PublicUser>)
      requires Valid()
      modifies this
      ensures Valid()
      ensures Outcome(r, accounts) ==
        Auth.RegisterCommit(old(accounts), old(nextId), Users.RegisterStep(body, old(accounts)), passwordHash)
      ensures nextId == if r.Ok? then old(nextId) + 1 else old(nextId)
    {
      var step := Users.RegisterStep(body, accounts);
      r := Apply(step, passwordHash);
    }

    /** loginUser: checks the credentials and stores the new refresh token on the account. */
    method Login(email: Option<string>, password: Option<string>, passwordMatches: (string, string) -> bool,
                 accessToken: Token, refreshToken: Token) returns (r: Reply<Auth.LoginData>)
      requires Valid()
      modifies this
      ensures Valid() && nextId == old(nextId)
      ensures Outcome(r, accounts) ==
        Auth.LoginOutcome(old(accounts), email, password, passwordMatches, accessToken, refreshToken)
    {
      if !Truthy(email) || !Truthy(password) {
        r := Fail(400, Auth.CredentialsRequiredMessage);
        return;
      }
      var i := FindByEmail(accounts, NormalEmail(email.value));
      if i.None? {
        r := Fail(401, Auth.InvalidCredentialsMessage);
        return;
      }
      var user := accounts[i.value];
      if !passwordMatches(password.value, user.password) {
        r := Fail(401, Auth.InvalidCredentialsMessage);
        return;
      }
      ValidAfterEdit(accounts, i.value, user.(refreshToken := Some(refreshToken)));
      accounts := accounts[i.value := user.(refreshToken := Some(refreshToken))];
      r := Succeed(200, Auth.LoginData(Public(user), accessToken, refreshToken), "User logged in successfully");
    }

    /** logoutUser: unsets the requester's refresh token. */
    method Logout(requester: UserId) returns (r: Reply<()>)
      requires Valid()
      modifies this
      ensures Valid() && nextId == old(nextId)
      ensures Outcome(r, accounts) == Auth.LogoutOutcome(old(accounts), requester)
    {
      var i := FindById(accounts, requester);
      if i.Some? {
        ValidAfterEdit(accounts, i.value, accounts[i.value].(refreshToken := None));
        accounts := accounts[i.value := accounts[i.value].(refreshToken := None)];
      }
      r := Succeed(200, (), "User logged out successfully");
    }

    /** refreshAccessToken: accepts only the stored token and replaces it with the new one. */
    method Refresh(cookie: Option<Token>, bodyToken: Option<Token>, verified: Verified,
                   accessToken: Token, newRefreshToken: Token) returns (r: Reply<Auth.TokenPair>)
      requires Valid()
      modifies this
      ensures Valid() && nextId == old(nextId)
      ensures Outcome(r, accounts) ==
        Auth.RefreshOutcome(old(accounts), cookie, bodyToken, verified, accessToken, newRefreshToken)
    {
      var incoming := FirstTruthy(cookie, bodyToken);
      if !Truthy(incoming) {
        r := Fail(401, Auth.UnauthorizedMessage);
        return;
      }
      if verified.Rejected? {
        r := Fail(401, Auth.MessageOr(verified.message, Auth.InvalidRefreshMessage));
        return;
      }
      var i := FindById(accounts, verified.id);
      if i.None? {
        r := Fail(401, Auth.InvalidRefreshMessage);
        return;
      }
      var user := accounts[i.value];
      if incoming != user.refreshToken {
        r := Fail(401, Auth.StaleRefreshMessage);
        return;
      }
      ValidAfterEdit(accounts, i.value, user.(refreshToken := Some(newRefreshToken)));
      accounts := accounts[i.value := user.(refreshToken := Some(newRefreshToken))];
      r := Succeed(200, Auth.TokenPair(accessToken, newRefreshToken), "Access token refreshed successfully");
    }

    /** updateUserProfile. */
    method UpdateProfile(requester: UserId, fullName: Option<string>) returns (r: Reply<Option<PublicUser>>)
      requires Valid()
      modifies this
      ensures Valid() && nextId == old(nextId)
      ensures Outcome(r, accounts) == Users.UpdateProfileOutcome(old(accounts), requester, fullName)
    {
      var o := Users.UpdateProfileOutcome(accounts, requester, fullName);
      var i := FindById(accounts, requester);
      if o.reply.Ok? && i.Some? {
        ValidAfterEdit(accounts, i.value, accounts[i.value].(fullName := Trim(fullName.value)));
      }
      accounts := o.accounts;
      r := o.reply;
    }

    /** deleteUser. */
    method Delete(requester: UserId, id: UserId) returns (r: Reply<()>)
      requires Valid()
      modifies this
      ensures Valid() && nextId == old(nextId)
      ensures Outcome(r, accounts) == Users.DeleteOutcome(old(accounts), requester, id)
    {
      if id == requester {
        r := Fail(400, "You cannot delete your own account");
        return;
      }
      var i := FindById(accounts, id);
      if i.None? {
        r := Fail(404, Users.UserNotFoundMessage);
        return;
      }
      ValidAfterRemoval(accounts, i.value);
      accounts := Users.Without(accounts, i.value);
      r := Succeed(200, (), "User deleted successfully");
    }

    /** toggleUserActive: negates isActive in place. */
    method ToggleActive(requester: UserId, id: UserId) returns (r: Reply<PublicUser>)
      requires Valid()
      modifies this
      ensures Valid() && nextId == old(nextId)
      ensures Outcome(r, accounts) == Users.ToggleOutcome(old(accounts), requester, id)
    {
      if id == requester {
        r := Fail(400, "You cannot deactivate your own account");
        return;
      }
      var i := FindById(accounts, id);
      if i.None? {
        r := Fail(404, Users.UserNotFoundMessage);
        return;
      }
      var user := accounts[i.value].(isActive := !accounts[i.value].isActive);
      ValidAfterEdit(accounts, i.value, user);
      accounts := accounts[i.value := user];
      r := Succeed(200, Public(user), Users.ToggleMessage(user.isActive));
    }
  }
}
