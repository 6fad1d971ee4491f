/**
 * The user controller's own rules: the digit check on names at
 * registration and on profile update, the self-protection of delete and
 * toggle-active, the paginated listing, and its own login and refresh
 * handlers, which as written never issue tokens. Its logout handler does
 * what the auth controller's does (see Auth).
 */
module Users {
  import opened Common
  import opened Text
  import opened Envelopes
  import opened AccountModel
  import Auth
  import opened Pagination

  const NameHasDigitMessage: string := "Full name cannot contain numbers"
  const NameRequiredMessage: string := "Full name is required"
  const UserNotFoundMessage: string := "User not found"

  // ---------- registerUser

  /** /\d/.test(fullName): an absent name is matched as "undefined", which has no digit. */
  predicate NameHasDigit(fullName: Option<string>) {
    fullName.Some? && HasDigit(fullName.value)
  }

  /**
   * The auth controller's registration with one more check, between the
   * blank check and the duplicate check: the name must not contain a digit.
   */
  function RegisterStep(body: Auth.RegisterBody, accounts: seq<Account>): (r: Step<Auth.Draft>)
    ensures Auth.AnyPresentBlank(body) ==> r == Refuse(NewApiError(400, Auth.AllFieldsRequiredMessage))
    ensures !Auth.AnyPresentBlank(body) && NameHasDigit(body.fullName) ==>
      r == Refuse(NewApiError(400, NameHasDigitMessage))
    ensures !NameHasDigit(body.fullName) ==> r == Auth.RegisterStep(body, accounts)
    ensures r.Save? ==> !NameHasDigit(body.fullName) && r == Auth.RegisterStep(body, accounts)
  {
    if Auth.AnyPresentBlank(body) then Refuse(NewApiError(400, Auth.AllFieldsRequiredMessage))
    else if NameHasDigit(body.fullName) then Refuse(NewApiError(400, NameHasDigitMessage))
    else Auth.RegisterStep(body, accounts)
  }

  // ---------- updateUserProfile

  /**
   * The new name must be truthy, non-blank and digit-free; findByIdAndUpdate
   * then trims it and runs the length validators (a 500 when they fail). A
   * requester whose account is gone gets 200 with null data.
   */
  function UpdateProfileOutcome(accounts: seq<Account>, requester: UserId, fullName: Option<string>): (o: Outcome<Option<PublicUser>>)
    ensures o.reply.Err? ==> o.accounts == accounts
    ensures !Truthy(fullName) || Trim(fullName.value) == "" ==> o.reply == Fail(400, NameRequiredMessage)
    ensures Truthy(fullName) && Trim(fullName.value) != "" && HasDigit(fullName.value) ==>
      o.reply == Fail(400, NameHasDigitMessage)
    ensures o.reply.Ok? <==> Truthy(fullName) && !HasDigit(fullName.value) && NameLengthValid(Trim(fullName.value))
    ensures o.reply.Ok? && FindById(accounts, requester).None? ==>
      o == Outcome(Succeed(200, None, "Profile updated successfully"), accounts)
    ensures o.reply.Ok? && FindById(accounts, requester).Some? ==>
      var i := FindById(accounts, requester).value;
      var a := accounts[i].(fullName := Trim(fullName.value));
      o == Outcome(Succeed(200, Some(Public(a)), "Profile updated successfully"), accounts[i := a])
  {
    if !Truthy(fullName) || Trim(fullName.value) == "" then Outcome(Fail(400, NameRequiredMessage), accounts)
    else if HasDigit(fullName.value) then Outcome(Fail(400, NameHasDigitMessage), accounts)
    else
      var name := Trim(fullName.value);
      if !NameLengthValid(name) then Outcome(Fail(500, ValidationFailedMessage), accounts)
      else
        var i := FindById(accounts, requester);
        if i.None? then Outcome(Succeed(200, None, "Profile updated successfully"), accounts)
        else
          var a := accounts[i.value].(fullName := name);
          Outcome(Succeed(200, Some(Public(a)), "Profile updated successfully"), accounts[i.value := a])
  }

  /** Trimming removes characters from the ends only, so it cannot add a digit. */
  lemma TrimKeepsNoDigit(s: string)
    requires !HasDigit(s)
    ensures !HasDigit(Trim(s))
  {
    var a := TrimStart(s);
    SliceKeepsNoDigit(s, |s| - |a|, |s|);
    SliceKeepsNoDigit(a, 0, |TrimEnd(a)|);
  }

  /** A slice of a digit-free string is digit-free. */
  lemma SliceKeepsNoDigit(s: string, lo: nat, hi: nat)
    requires lo <= hi <= |s| && !HasDigit(s)
    ensures !HasDigit(s[lo..hi])
  {
    forall k | 0 <= k < hi - lo
      ensures !('0' <= s[lo..hi][k] <= '9')
    {
      assert s[lo..hi][k] == s[lo + k];
    }
  }

  /** A stored profile name is trimmed, 2 to 100 characters long and digit-free. */
  lemma UpdatedNameIsClean(accounts: seq<Account>, requester: UserId, fullName: Option<string>)
    requires UpdateProfileOutcome(accounts, requester, fullName).reply.Ok?
    requires FindById(accounts, requester).Some?
    ensures var o := UpdateProfileOutcome(accounts, requester, fullName);
      var name := o.accounts[FindById(accounts, requester).value].fullName;
      !HasDigit(name) && NameLengthValid(name) && Trimmed(name)
  {
    TrimKeepsNoDigit(fullName.value);
    TrimIsTrimmed(fullName.value);
  }

  // ---------- deleteUser and toggleUserActive

  /** Removes the account at position i. */
  function Without(accounts: seq<Account>, i: nat): (r: seq<Account>)
    requires i < |accounts|
    ensures |r| == |accounts| - 1
    ensures forall k | 0 <= k < i :: r[k] == accounts[k]
    ensures forall k | i <= k < |r| :: r[k] == accounts[k + 1]
  {
    accounts[..i] + accounts[i + 1..]
  }

  function DeleteOutcome(accounts: seq<Account>, requester: UserId, id: UserId): (o: Outcome<()>)
    ensures o.reply.Err? ==> o.accounts == accounts
    ensures id == requester ==> o.reply == Fail(400, "You cannot delete your own account")
    ensures id != requester && FindById(accounts, id).None? ==> o.reply == Fail(404, UserNotFoundMessage)
    ensures o.reply.Ok? <==> id != requester && FindById(accounts, id).Some?
    ensures o.reply.Ok? ==>
      o == Outcome(Succeed(200, (), "User deleted successfully"), Without(accounts, FindById(accounts, id).value))
  {
    if id == requester then Outcome(Fail(400, "You cannot delete your own account"), accounts)
    else
      var i := FindById(accounts, id);
      if i.None? then Outcome(Fail(404, UserNotFoundMessage), accounts)
      else Outcome(Succeed(200, (), "User deleted successfully"), Without(accounts, i.value))
  }

  /** The message names the new state. */
  function ToggleMessage(isActive: bool): string {
    if isActive then "User activated successfully" else "User deactivated successfully"
  }

  function ToggleOutcome(accounts: seq<Account>, requester: UserId, id: UserId): (o: Outcome<PublicUser>)
    ensures o.reply.Err? ==> o.accounts == accounts
    ensures id == requester ==> o.reply == Fail(400, "You cannot deactivate your own account")
    ensures id != requester && FindById(accounts, id).None? ==> o.reply == Fail(404, UserNotFoundMessage)
    ensures o.reply.Ok? <==> id != requester && FindById(accounts, id).Some?
    ensures o.reply.Ok? ==>
      var i := FindById(accounts, id).value;
      var a := accounts[i].(isActive := !accounts[i].isActive);
      o == Outcome(Succeed(200, Public(a), ToggleMessage(a.isActive)), accounts[i := a])
  {
    if id == requester then Outcome(Fail(400, "You cannot deactivate your own account"), accounts)
    else
      var i := FindById(accounts, id);
      if i.None? then Outcome(Fail(404, UserNotFoundMessage), accounts)
      else
        var a := accounts[i.value].(isActive := !accounts[i.value].isActive);
        Outcome(Succeed(200, Public(a), ToggleMessage(a.isActive)), accounts[i.value := a])
  }

  /**
   * toggleUserActive as written. The user schema does not declare isActive,
   * so under Mongoose's default strict mode the document has no isActive
   * path: the read gives undefined, the assignment sets a plain property to
   * true, and the save writes nothing. The reply carries the account as it
   * is stored and always says "activated".
   */
  function ToggleOutcomeAsWritten(accounts: seq<Account>, requester: UserId, id: UserId): (o: Outcome<PublicUser>)
    ensures o.accounts == accounts
    ensures o.reply.Err? ==> o.reply == ToggleOutcome(accounts, requester, id).reply
    ensures o.reply.Ok? <==> ToggleOutcome(accounts, requester, id).reply.Ok?
    ensures o.reply.Ok? ==>
      o.reply == Succeed(200, Public(accounts[FindById(accounts, id).value]), ToggleMessage(true))
  {
    if id == requester then Outcome(Fail(400, "You cannot deactivate your own account"), accounts)
    else
      var i := FindById(accounts, id);
      if i.None? then Outcome(Fail(404, UserNotFoundMessage), accounts)
      else Outcome(Succeed(200, Public(accounts[i.value]), ToggleMessage(true)), accounts)
  }

  // ---------- the user controller's login and refresh

  /**
   * The TypeError generateAccessAndRefreshTokens catches: the user model
   * defines isPasswordCorrect but no generateAccessToken method.
   */
  const MissingTokenMethodMessage: string := "user.generateAccessToken is not a function"

  /**
   * loginUser as written in the user controller. Its validation is the auth
   * controller's; once the password matches, the token helper calls a method
   * the model does not define, and its catch answers 500 with the
   * TypeError's message. Nothing is stored.
   */
  function LoginOutcome(accounts: seq<Account>, email: Option<string>, password: Option<string>,
                        passwordMatches: (string, string) -> bool): (o: Outcome<Auth.LoginData>)
    ensures o.accounts == accounts && o.reply.Err?
    ensures !Truthy(email) || !Truthy(password) ==> o.reply == Fail(400, Auth.CredentialsRequiredMessage)
    ensures o.reply.error.statusCode == 500 <==>
      Truthy(email) && Truthy(password)
      && var i := FindByEmail(accounts, NormalEmail(email.value));
      i.Some? && passwordMatches(password.value, accounts[i.value].password)
    ensures o.reply.error.statusCode == 500 ==> o.reply == Fail(500, MissingTokenMethodMessage)
    ensures o.reply.error.statusCode != 500 ==>
      o.reply == Fail(if Truthy(email) && Truthy(password) then 401 else 400,
                      if Truthy(email) && Truthy(password) then Auth.InvalidCredentialsMessage
                      else Auth.CredentialsRequiredMessage)
  {
    if !Truthy(email) || !Truthy(password) then Outcome(Fail(400, Auth.CredentialsRequiredMessage), accounts)
    else
      var i := FindByEmail(accounts, NormalEmail(email.value));
      if i.None? then Outcome(Fail(401, Auth.InvalidCredentialsMessage), accounts)
      else if !passwordMatches(password.value, accounts[i.value].password) then
        Outcome(Fail(401, Auth.InvalidCredentialsMessage), accounts)
      else Outcome(Fail(500, MissingTokenMethodMessage), accounts)
  }

  /**
   * refreshAccessToken as written in the user controller: the auth
   * controller's checks, then the same failing token helper, whose 500 the
   * outer catch turns into a 401 carrying the TypeError's message.
   */
  function RefreshOutcome(accounts: seq<Account>, cookie: Option<Token>, bodyToken: Option<Token>,
                          verified: Verified): (o: Outcome<Auth.TokenPair>)
    ensures o.accounts == accounts && o.reply.Err? && o.reply.error.statusCode == 401
    ensures !Truthy(FirstTruthy(cookie, bodyToken)) ==> o.reply == Fail(401, Auth.UnauthorizedMessage)
    ensures (var incoming := FirstTruthy(cookie, bodyToken);
             Truthy(incoming) && verified.Verified?
             && var i := FindById(accounts, verified.id);
             i.Some? && accounts[i.value].refreshToken == incoming)
            ==> o.reply == Fail(401, MissingTokenMethodMessage)
  {
    var incoming := FirstTruthy(cookie, bodyToken);
    if !Truthy(incoming) then Outcome(Fail(401, Auth.UnauthorizedMessage), accounts)
    else match verified
      case Rejected(message) =>
        Outcome(Fail(401, Auth.MessageOr(message, Auth.InvalidRefreshMessage)), accounts)
      case Verified(id) =>
        var i := FindById(accounts, id);
        if i.None? then Outcome(Fail(401, Auth.InvalidRefreshMessage), accounts)
        else if incoming != accounts[i.value].refreshToken then Outcome(Fail(401, Auth.StaleRefreshMessage), accounts)
        else Outcome(Fail(401, MissingTokenMethodMessage), accounts)
  }

  // ---------- getAllUsers

  const DefaultUserLimit: int := 1000

  /** if (role) query.role = role. */
  predicate RoleSelected(a: Account, role: Option<string>) {
    !Truthy(role) || RoleName(a.role) == role.value
  }

  /** The accounts the query selects, in insertion order. */
  function Selected(accounts: seq<Account>, role: Option<string>): (r: seq<Account>)
    ensures |r| <= |accounts|
    ensures forall a | a in r :: a in accounts && RoleSelected(a, role)
    ensures forall a | a in accounts && RoleSelected(a, role) :: a in r
  {
    if accounts == [] then []
    else
      var rest := Selected(accounts[..|accounts| - 1], role);
      var last := accounts[|accounts| - 1];
      assert accounts == accounts[..|accounts| - 1] + [last];
      if RoleSelected(last, role) then rest + [last] else rest
  }

  /** The selection keeps insertion order: its k-th account is the k-th selected position. */
  lemma SelectedInOrder(accounts: seq<Account>, role: Option<string>)
    ensures var r := Selected(accounts, role);
      var idx := Positions(accounts, SelectedBy(role));
      |r| == |idx| && forall k | 0 <= k < |r| :: r[k] == accounts[idx[k]]
  {
    SelectedIsFilter(accounts, role);
  }

  /** The selection is Array.prototype.filter with the role test. */
  lemma {:induction false} SelectedIsFilter(accounts: seq<Account>, role: Option<string>)
    ensures Selected(accounts, role) == Filter(accounts, SelectedBy(role))
  {
    if accounts != [] {
      SelectedIsFilter(accounts[..|accounts| - 1], role);
    }
  }

  /** The query's role test, as a function value. */
  function SelectedBy(role: Option<string>): Account -> bool {
    a => RoleSelected(a, role)
  }

  /** sort({ createdAt: -1 }): accounts are appended as they are created, so newest first is reversed order. */
  function NewestFirst(s: seq<Account>): (r: seq<Account>)
    ensures |r| == |s|
    ensures forall k | 0 <= k < |s| :: r[k] == s[|s| - 1 - k]
  {
    Reversed(s)
  }

  /** .skip(skip).limit(limit) on the sorted accounts, without password and refresh token. */
  function Window(s: seq<Account>, skip: nat, limit: nat): (r: seq<PublicUser>)
    ensures |r| == Min(limit, if skip < |s| then |s| - skip else 0)
    ensures forall k | 0 <= k < |r| :: skip + k < |s| && r[k] == Public(s[skip + k])
  {
    if skip >= |s| then []
    else
      var n := Min(limit, |s| - skip);
      seq(n, k requires 0 <= k < n => Public(s[skip + k]))
  }

  datatype UserPagination = UserPagination(page: int, limit: int, total: nat, pages: PageCount)
  datatype UserList = UserList(users: seq<PublicUser>, pagination: UserPagination)

  /**
   * page defaults to 1 and limit to 1000; a page or limit below 1 (which
   * the database would reject or read as "no limit") gives None.
   */
  function ListUsers(accounts: seq<Account>, page: Option<int>, limit: Option<int>, role: Option<string>): (r: Option<UserList>)
    ensures r.Some? <==> page.GetOr(1) >= 1 && limit.GetOr(DefaultUserLimit) >= 1
    ensures r.Some? ==>
      var s := NewestFirst(Selected(accounts, role));
      var skip := Skip(page.GetOr(1), limit.GetOr(DefaultUserLimit));
      skip >= 0 && r.value.users == Window(s, skip, limit.GetOr(DefaultUserLimit))
    ensures r.Some? ==>
      var l := limit.GetOr(DefaultUserLimit);
      var total := |Selected(accounts, role)|;
      r.value.pagination == UserPagination(page.GetOr(1), l, total, TotalPages(total, l))
  {
    var p := page.GetOr(1);
    var l := limit.GetOr(DefaultUserLimit);
    if p < 1 || l < 1 then None
    else
      var s := NewestFirst(Selected(accounts, role));
      var skip := Skip(p, l);
      SkipBeforePage(p, l);
      var w := Window(s, skip, l);
      Some(UserList(w, UserPagination(p, l, |s|, TotalPages(|s|, l))))
  }

  /** A window from the start at least as long as the sequence holds all of it. */
  lemma WholeWindow(s: seq<Account>, limit: nat, k: nat)
    requires |s| <= limit && k < |s|
    ensures Public(s[k]) in Window(s, 0, limit)
  {
    var w := Window(s, 0, limit);
    assert |w| == |s|;
    assert w[k] == Public(s[k]);
  }

  /** With the default page and limit, every selected account is listed when there are at most 1000. */
  lemma DefaultListingShowsAll(accounts: seq<Account>, role: Option<string>, a: Account)
    requires |Selected(accounts, role)| <= DefaultUserLimit
    requires a in accounts && RoleSelected(a, role)
    ensures ListUsers(accounts, None, None, role).Some?
    ensures Public(a) in ListUsers(accounts, None, None, role).value.users
  {
    var s := NewestFirst(Selected(accounts, role));
    var k := PositionNewestFirst(accounts, role, a);
    WholeWindow(s, DefaultUserLimit, k);
    assert Skip(1, DefaultUserLimit) == 0;
  }

  /** Where a selected account sits in the newest-first order. */
  lemma PositionNewestFirst(accounts: seq<Account>, role: Option<string>, a: Account) returns (k: nat)
    requires a in accounts && RoleSelected(a, role)
    ensures k < |NewestFirst(Selected(accounts, role))| && NewestFirst(Selected(accounts, role))[k] == a
  {
    var sel := Selected(accounts, role);
    assert a in sel;
    var i :| 0 <= i < |sel| && sel[i] == a;
    k := |sel| - 1 - i;
  }

  /** The page count is the smallest number of pages of limit entries that holds every selected account. */
  lemma PagesHoldEverySelected(accounts: seq<Account>, page: Option<int>, limit: Option<int>, role: Option<string>)
    requires ListUsers(accounts, page, limit, role).Some?
    ensures var pg := ListUsers(accounts, page, limit, role).value.pagination;
      pg.pages.Finite? && pg.pages.pages * pg.limit >= pg.total && (pg.pages.pages - 1) * pg.limit < pg.total
  {
    var pg := ListUsers(accounts, page, limit, role).value.pagination;
    TotalPagesIsTight(pg.total, pg.limit);
  }
}
