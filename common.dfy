/** Identifiers, roles and the optional-value wrapper shared by every module. */
module Common {

  /** Document ids (MongoDB ObjectIds) are opaque; natural numbers stand in for them. */
  type UserId = nat
  type SessionId = nat
  type FeedbackId = nat

  datatype Option<T> = None | Some(value: T) {
    function GetOr(default: T): T {
      if Some? then value else default
    }
  }

  /**
   * The four roles the controllers test. The user schema's enum lists only the
   * first three; "admin" is compared against but can never be stored by
   * registration (see Auth.RegistrationRole).
   */
  datatype Role = Patient | Therapist | Supervisor | Admin

  function RoleName(r: Role): string {
    match r
    case Patient => "patient"
    case Therapist => "therapist"
    case Supervisor => "supervisor"
    case Admin => "admin"
  }

  function ParseRole(s: string): (r: Option<Role>)
    ensures r.Some? ==> RoleName(r.value) == s
    ensures r.None? ==> forall x: Role :: RoleName(x) != s
  {
    if s == "patient" then Some(Patient)
    else if s == "therapist" then Some(Therapist)
    else if s == "supervisor" then Some(Supervisor)
    else if s == "admin" then Some(Admin)
    else None
  }

  lemma ParseRoleName(r: Role)
    ensures ParseRole(RoleName(r)) == Some(r)
  {
  }

  /** A JavaScript string value is truthy when it is present and not empty. */
  predicate Truthy(s: Option<string>) {
    s.Some? && s.value != ""
  }

  /** a || b on two optional strings: the first when it is truthy, otherwise the second. */
  function FirstTruthy(a: Option<string>, b: Option<string>): (r: Option<string>)
    ensures Truthy(a) ==> r == a
    ensures !Truthy(a) ==> r == b
    ensures Truthy(r) <==> Truthy(a) || Truthy(b)
  {
    if Truthy(a) then a else b
  }

  /** The authenticated user a controller sees as req.user. */
  datatype Requester = Requester(id: UserId, role: Role)

  /**
   * The indices of s at which p holds, in increasing order: the positions
   * Array.prototype.filter keeps.
   */
  function Positions<T>(s: seq<T>, p: T -> bool): (idx: seq<int>)
    ensures forall k | 0 <= k < |idx| :: 0 <= idx[k] < |s| && p(s[idx[k]])
    ensures forall k, l | 0 <= k < l < |idx| :: idx[k] < idx[l]
    ensures forall i | 0 <= i < |s| && p(s[i]) :: i in idx
  {
    if s == [] then []
    else
      var rest := Positions(s[..|s| - 1], p);
      assert forall k | 0 <= k < |rest| :: s[..|s| - 1][rest[k]] == s[rest[k]];
      if p(s[|s| - 1]) then rest + [|s| - 1] else rest
  }

  /** Counting matching positions from the front: the first element adds one when it matches. */
  lemma {:induction false} PositionsCons<T>(x: T, s: seq<T>, p: T -> bool)
    ensures |Positions([x] + s, p)| == (if p(x) then 1 else 0) + |Positions(s, p)|
  {
    if s != [] {
      var xs := [x] + s;
      assert xs[..|xs| - 1] == [x] + s[..|s| - 1];
      assert xs[|xs| - 1] == s[|s| - 1];
      PositionsCons(x, s[..|s| - 1], p);
    }
  }

  /** Array.prototype.filter: the matching elements, in order and with their multiplicity. */
  function Filter<T>(s: seq<T>, p: T -> bool): (r: seq<T>)
    ensures |r| <= |s|
    ensures var idx := Positions(s, p);
      |r| == |idx| && forall k | 0 <= k < |r| :: r[k] == s[idx[k]]
  {
    if s == [] then []
    else
      var init := s[..|s| - 1];
      var last := s[|s| - 1];
      var rest := Filter(init, p);
      ghost var idx := Positions(init, p);
      assert forall k | 0 <= k < |rest| :: rest[k] == s[idx[k]] by {
        forall k | 0 <= k < |rest| ensures rest[k] == s[idx[k]] {
          assert rest[k] == init[idx[k]];
        }
      }
      if p(last) then rest + [last] else rest
  }

  /** An element is kept exactly when it occurs and passes the test. */
  lemma FilterMembers<T>(s: seq<T>, p: T -> bool, x: T)
    ensures x in Filter(s, p) <==> x in s && p(x)
  {
    var r := Filter(s, p);
    var idx := Positions(s, p);
    if x in r {
      var k :| 0 <= k < |r| && r[k] == x;
      assert s[idx[k]] == x;
    }
    if x in s && p(x) {
      var i :| 0 <= i < |s| && s[i] == x;
      var k :| 0 <= k < |idx| && idx[k] == i;
      assert r[k] == x;
    }
  }

  /** The elements of s in reverse order. */
  function Reversed<T>(s: seq<T>): (r: seq<T>)
    ensures |r| == |s| && forall k | 0 <= k < |s| :: r[k] == s[|s| - 1 - k]
  {
    seq(|s|, k requires 0 <= k < |s| => s[|s| - 1 - k])
  }

  /** Reversing keeps every element with its multiplicity. */
  lemma {:induction false} ReversedPermutes<T>(s: seq<T>)
    ensures multiset(Reversed(s)) == multiset(s)
  {
    if s != [] {
      ReversedPermutes(s[1..]);
      assert Reversed(s) == Reversed(s[1..]) + [s[0]];
      assert s == [s[0]] + s[1..];
    }
  }
}
