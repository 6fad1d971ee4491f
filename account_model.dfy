/**
 * The user document as the auth and user controllers use it, the account
 * collection as an insertion-ordered sequence, and the lookups the
 * controllers make on it (findOne by email, findById).
 *
 * The schema declares fullName (trimmed, 2 to 100 characters), email
 * (trimmed, lower-cased, unique), password (at least 4 characters, stored
 * as a bcrypt hash) and role. The controllers also read and write isActive
 * and refreshToken; see Auth.StoredAsWritten for what the schema's
 * spelling refreshtoken does to the second.
 */
module AccountModel {
  import opened Common
  import opened Text
  import opened Envelopes

  /** Signed tokens are opaque strings; signing and verifying them is left out. */
  type Token = string

  datatype Account = Account(id: UserId, fullName: string, email: string, password: string,
                             role: Role, isActive: bool, refreshToken: Option<Token>)

  /** An account as returned by select("-password -refreshToken"). */
  datatype PublicUser = PublicUser(id: UserId, fullName: string, email: string, role: Role, isActive: bool)

  function Public(a: Account): (u: PublicUser)
    ensures u.id == a.id && u.fullName == a.fullName && u.email == a.email
    ensures u.role == a.role && u.isActive == a.isActive
  {
    PublicUser(a.id, a.fullName, a.email, a.role, a.isActive)
  }

  const MinNameLength: nat := 2
  const MaxNameLength: nat := 100
  const MinPasswordLength: nat := 4

  /** The email setters: trim, then lowercase. */
  function NormalEmail(e: string): (r: string)
    ensures |r| == |Trim(e)|
  {
    Lower(Trim(e))
  }

  /** The fullName validators, applied to the trimmed value. */
  predicate NameLengthValid(name: string) {
    MinNameLength <= |name| <= MaxNameLength
  }

  /** The outcome of jwt.verify on a token: the id in its payload, or the error it throws. */
  datatype Verified = Verified(id: UserId) | Rejected(message: string)

  /** A controller's reply together with the account collection it leaves behind. */
  datatype Outcome<T> = Outcome(reply: Reply<T>, accounts: seq<Account>)

  /** Ids are unique and emails are unique (the unique index). */
  predicate ValidAccounts(accounts: seq<Account>) {
    (forall i, j | 0 <= i < j < |accounts| :: accounts[i].id != accounts[j].id)
    && (forall i, j | 0 <= i < j < |accounts| :: accounts[i].email != accounts[j].email)
  }

  /** The first position at or after from holding the email, as findOne({ email }) returns it. */
  function FindByEmailFrom(accounts: seq<Account>, email: string, from: nat): (r: Option<nat>)
    requires from <= |accounts|
    ensures r.Some? ==> from <= r.value < |accounts| && accounts[r.value].email == email
    ensures r.Some? ==> forall k | from <= k < r.value :: accounts[k].email != email
    ensures r.None? ==> forall k | from <= k < |accounts| :: accounts[k].email != email
    decreases |accounts| - from
  {
    if from == |accounts| then None
    else if accounts[from].email == email then Some(from)
    else FindByEmailFrom(accounts, email, from + 1)
  }

  function FindByEmail(accounts: seq<Account>, email: string): (r: Option<nat>)
    ensures r.Some? ==> r.value < |accounts| && accounts[r.value].email == email
    ensures r.Some? ==> forall k | 0 <= k < r.value :: accounts[k].email != email
    ensures r.None? <==> forall k | 0 <= k < |accounts| :: accounts[k].email != email
  {
    FindByEmailFrom(accounts, email, 0)
  }

  /** The first position at or after from holding the id. */
  function FindByIdFrom(accounts: seq<Account>, id: UserId, from: nat): (r: Option<nat>)
    requires from <= |accounts|
    ensures r.Some? ==> from <= r.value < |accounts| && accounts[r.value].id == id
    ensures r.Some? ==> forall k | from <= k < r.value :: accounts[k].id != id
    ensures r.None? ==> forall k | from <= k < |accounts| :: accounts[k].id != id
    decreases |accounts| - from
  {
    if from == |accounts| then None
    else if accounts[from].id == id then Some(from)
    else FindByIdFrom(accounts, id, from + 1)
  }

  /** findById. */
  function FindById(accounts: seq<Account>, id: UserId): (r: Option<nat>)
    ensures r.Some? ==> r.value < |accounts| && accounts[r.value].id == id
    ensures r.Some? ==> forall k | 0 <= k < r.value :: accounts[k].id != id
    ensures r.None? <==> forall k | 0 <= k < |accounts| :: accounts[k].id != id
  {
    FindByIdFrom(accounts, id, 0)
  }

  /** Changing fields other than the id of one account does not move any id lookup. */
  lemma FindByIdAfterEdit(accounts: seq<Account>, i: nat, a: Account, id: UserId)
    requires i < |accounts| && a.id == accounts[i].id
    ensures FindById(accounts[i := a], id) == FindById(accounts, id)
  {
    var edited := accounts[i := a];
    var r := FindById(accounts, id);
    var s := FindById(edited, id);
    if r.Some? {
      assert edited[r.value].id == id;
      assert forall k | 0 <= k < r.value :: edited[k].id == accounts[k].id;
    } else {
      assert forall k | 0 <= k < |edited| :: edited[k].id == accounts[k].id;
    }
    if s.Some? {
      assert accounts[s.value].id == id;
    }
  }

  /** Changing fields other than the email of one account does not move any email lookup. */
  lemma FindByEmailAfterEdit(accounts: seq<Account>, i: nat, a: Account, email: string)
    requires i < |accounts| && a.email == accounts[i].email
    ensures FindByEmail(accounts[i := a], email) == FindByEmail(accounts, email)
  {
    var edited := accounts[i := a];
    var r := FindByEmail(accounts, email);
    var s := FindByEmail(edited, email);
    if r.Some? {
      assert edited[r.value].email == email;
      assert forall k | 0 <= k < r.value :: edited[k].email == accounts[k].email;
    } else {
      assert forall k | 0 <= k < |edited| :: edited[k].email == accounts[k].email;
    }
    if s.Some? {
      assert accounts[s.value].email == email;
    }
  }

  /** Appending an account with a fresh id and a fresh email keeps the collection valid. */
  lemma ValidAfterAppend(accounts: seq<Account>, a: Account)
    requires ValidAccounts(accounts)
    requires forall k | 0 <= k < |accounts| :: accounts[k].id != a.id && accounts[k].email != a.email
    ensures ValidAccounts(accounts + [a])
  {
    var after := accounts + [a];
    forall i, j | 0 <= i < j < |after|
      ensures after[i].id != after[j].id && after[i].email != after[j].email
    {
      assert after[i] == accounts[i];
      if j < |accounts| {
        assert after[j] == accounts[j];
      }
    }
  }

  /** Changing one account's fields other than its id and email keeps the collection valid. */
  lemma ValidAfterEdit(accounts: seq<Account>, i: nat, a: Account)
    requires ValidAccounts(accounts)
    requires i < |accounts| && a.id == accounts[i].id && a.email == accounts[i].email
    ensures ValidAccounts(accounts[i := a])
  {
  }
}
