/**
 * The supervisor controllers: profile creation and update with the
 * unique, trimmed professional license number, and the supervised
 * student list, a duplicate-free sequence extended by push and shortened
 * by splice at the student's index.
 */
module Supervisors {
  import opened Common
  import opened Text
  import opened Envelopes
  import opened Pagination

  datatype SupervisorProfile = SupervisorProfile(license: string, students: seq<UserId>)

  /** Supervisor profiles keyed by their owner's user id, which the schema makes unique. */
  type Supervisors = map<UserId, SupervisorProfile>

  /** The message of the database's unique-index violation, which reaches the client as a 500. */
  const DuplicateKeyMessage: string := "E11000 duplicate key error"

  /** Some profile other than except's holds license. */
  predicate LicenseTaken(profiles: Supervisors, license: string, except: Option<UserId>) {
    exists u | u in profiles :: Some(u) != except && profiles[u].license == license
  }

  predicate NoDuplicates(s: seq<UserId>) {
    forall i, j | 0 <= i < j < |s| :: s[i] != s[j]
  }

  /**
   * createSupervisorProfile's decision as the code is written: the
   * duplicate check looks up the license as sent, but the trimmed license
   * is stored.
   */
  function CreateStepAsWritten(requester: Requester, license: Option<string>, profiles: Supervisors): (r: Step<SupervisorProfile>)
    ensures r.Save? <==>
      requester.role == Supervisor && requester.id !in profiles && license.Some? && Trim(license.value) != ""
      && !LicenseTaken(profiles, license.value, None)
    ensures r.Save? ==> r.document == SupervisorProfile(Trim(license.value), [])
  {
    if requester.role != Supervisor then Refuse(NewApiError(403, "Only supervisors can create supervisor profiles"))
    else if requester.id in profiles then Refuse(NewApiError(409, "Supervisor profile already exists. Use update endpoint."))
    else if license.None? || Trim(license.value) == "" then Refuse(NewApiError(400, "Professional license number is required"))
    else if LicenseTaken(profiles, license.value, None) then Refuse(NewApiError(409, "This license number is already registered"))
    else Save(SupervisorProfile(Trim(license.value), []))
  }

  /** createSupervisorProfile's decision with the duplicate check on the license that is stored. */
  function CreateStep(requester: Requester, license: Option<string>, profiles: Supervisors): (r: Step<SupervisorProfile>)
    ensures r.Save? <==>
      requester.role == Supervisor && requester.id !in profiles && license.Some? && Trim(license.value) != ""
      && !LicenseTaken(profiles, Trim(license.value), None)
    ensures r.Save? ==> r.document == SupervisorProfile(Trim(license.value), [])
  {
    if requester.role != Supervisor then Refuse(NewApiError(403, "Only supervisors can create supervisor profiles"))
    else if requester.id in profiles then Refuse(NewApiError(409, "Supervisor profile already exists. Use update endpoint."))
    else if license.None? || Trim(license.value) == "" then Refuse(NewApiError(400, "Professional license number is required"))
    else if LicenseTaken(profiles, Trim(license.value), None) then Refuse(NewApiError(409, "This license number is already registered"))
    else Save(SupervisorProfile(Trim(license.value), []))
  }

  /**
   * updateSupervisorProfile's decision: a license that is sent must be
   * non-blank and not held by another profile, and is stored trimmed.
   * This endpoint does not check the requester's role.
   */
  function UpdateStep(requester: Requester, license: Option<string>, profiles: Supervisors): (r: Step<SupervisorProfile>)
    ensures r.Save? <==>
      requester.id in profiles
      && (license.Some? ==> Trim(license.value) != "" && !LicenseTaken(profiles, Trim(license.value), Some(requester.id)))
    ensures r.Save? ==> r.document.students == profiles[requester.id].students
    ensures r.Save? ==> r.document.license == if license.Some? then Trim(license.value) else profiles[requester.id].license
  {
    if requester.id !in profiles then Refuse(NewApiError(404, "Supervisor profile not found. Please create one first."))
    else if license.None? then Save(profiles[requester.id])
    else if Trim(license.value) == "" then Refuse(NewApiError(400, "Professional license number cannot be empty"))
    else if LicenseTaken(profiles, Trim(license.value), Some(requester.id)) then
      Refuse(NewApiError(409, "This license number is already registered"))
    else Save(profiles[requester.id].(license := Trim(license.value)))
  }

  /** The first index of student in the list, or -1: Array.prototype.indexOf. */
  function StudentIndex(s: seq<UserId>, student: UserId): (i: int)
    ensures i == -1 <==> student !in s
    ensures i != -1 ==> 0 <= i < |s| && s[i] == student && student !in s[..i]
  {
    if s == [] then -1
    else if s[0] == student then 0
    else
      var k := StudentIndex(s[1..], student);
      if k == -1 then -1 else k + 1
  }

  /** supervisedStudents.splice(StudentIndex(s, student), 1). */
  function Removed(s: seq<UserId>, student: UserId): (r: seq<UserId>)
    requires student in s
    ensures |r| == |s| - 1
    ensures multiset(r) == multiset(s) - multiset{student}
    ensures var i := StudentIndex(s, student); r[..i] == s[..i] && r[i..] == s[i + 1..]
  {
    var i := StudentIndex(s, student);
    assert s == s[..i] + [s[i]] + s[i + 1..];
    s[..i] + s[i + 1..]
  }

  /** addStudentToSupervision's decision on the list. */
  function AddStep(found: Option<SupervisorProfile>, studentIsTherapist: bool, student: UserId): (r: Step<SupervisorProfile>)
    ensures r.Save? <==> found.Some? && studentIsTherapist && student !in found.value.students
    ensures r.Save? ==> r.document == found.value.(students := found.value.students + [student])
  {
    if found.None? then Refuse(NewApiError(404, "Supervisor profile not found"))
    else if !studentIsTherapist then Refuse(NewApiError(404, "Student therapist not found"))
    else if student in found.value.students then Refuse(NewApiError(409, "Student is already under your supervision"))
    else Save(found.value.(students := found.value.students + [student]))
  }

  /** removeStudentFromSupervision's decision on the list. */
  function RemoveStep(found: Option<SupervisorProfile>, student: UserId): (r: Step<SupervisorProfile>)
    ensures r.Save? <==> found.Some? && student in found.value.students
    ensures r.Save? ==> r.document.license == found.value.license
    ensures r.Save? ==> multiset(r.document.students) == multiset(found.value.students) - multiset{student}
    ensures r.Save? ==> |r.document.students| == |found.value.students| - 1
    ensures r.Save? ==>
      var s := found.value.students;
      var i := StudentIndex(s, student);
      r.document.students[..i] == s[..i] && r.document.students[i..] == s[i + 1..]
    ensures r.Save? ==> r.document.(students := found.value.students) == found.value
  {
    if found.None? then Refuse(NewApiError(404, "Supervisor profile not found"))
    else if student !in found.value.students then Refuse(NewApiError(404, "Student is not under your supervision"))
    else Save(found.value.(students := Removed(found.value.students, student)))
  }

  function FindSupervisor(profiles: Supervisors, userId: UserId): (r: Option<SupervisorProfile>)
    ensures r.Some? <==> userId in profiles
    ensures r.Some? ==> r.value == profiles[userId]
  {
    if userId in profiles then Some(profiles[userId]) else None
  }

  datatype Outcome = Outcome(reply: Reply<SupervisorProfile>, profiles: Supervisors)

  /** save(): the unique index on the license refuses a license another profile holds. */
  function Commit(profiles: Supervisors, userId: UserId, status: int, step: Step<SupervisorProfile>, message: string): (o: Outcome)
    ensures step.Refuse? ==> o == Outcome(Err(step.error), profiles)
    ensures step.Save? && LicenseTaken(profiles, step.document.license, Some(userId)) ==>
      o == Outcome(Fail(500, DuplicateKeyMessage), profiles)
    ensures step.Save? && !LicenseTaken(profiles, step.document.license, Some(userId)) ==>
      o == Outcome(Succeed(status, step.document, message), profiles[userId := step.document])
  {
    match step
    case Refuse(e) => Outcome(Err(e), profiles)
    case Save(p) =>
      if LicenseTaken(profiles, p.license, Some(userId)) then Outcome(Fail(500, DuplicateKeyMessage), profiles)
      else Outcome(Succeed(status, p, message), profiles[userId := p])
  }

  /** The Supervisor collection. */
  class SupervisorStore {
    var profiles: Supervisors

    predicate Valid()
      reads this
    {
      ValidProfiles(profiles)
    }

    constructor()
      ensures profiles == map[] && Valid()
    {
      profiles := map[];
    }

    method Apply(userId: UserId, status: int, step: Step<SupervisorProfile>, message: string)
      returns (r: Reply<SupervisorProfile>)
      requires Valid()
      requires step.Save? ==> ProfileValid(step.document)
      modifies this
      ensures Valid()
      ensures Outcome(r, profiles) == Commit(old(profiles), userId, status, step, message)
    {
      var o := Commit(profiles, userId, status, step, message);
      if step.Save? && !LicenseTaken(profiles, step.document.license, Some(userId)) {
        ValidAfterSave(profiles, userId, step.document);
      }
      r, profiles := o.reply, o.profiles;
    }

    method Create(requester: Requester, license: Option<string>) returns (r: Reply<SupervisorProfile>)
      requires Valid()
      modifies this
      ensures Valid()
      ensures Outcome(r, profiles) == Commit(old(profiles), requester.id, 201,
        CreateStep(requester, license, old(profiles)), "Supervisor profile created successfully")
    {
      var step := CreateStep(requester, license, profiles);
      if step.Save? {
        TrimIsTrimmed(license.value);
      }
      r := Apply(requester.id, 201, step, "Supervisor profile created successfully");
    }

    method Update(requester: Requester, license: Option<string>) returns (r: Reply<SupervisorProfile>)
      requires Valid()
      modifies this
      ensures Valid()
      ensures Outcome(r, profiles) == Commit(old(profiles), requester.id, 200,
        UpdateStep(requester, license, old(profiles)), "Supervisor profile updated successfully")
    {
      var step := UpdateStep(requester, license, profiles);
      if step.Save? && license.Some? {
        TrimIsTrimmed(license.value);
      }
      r := Apply(requester.id, 200, step, "Supervisor profile updated successfully");
    }

    /** addStudentToSupervision: studentIsTherapist says whether the id names a user with the therapist role. */
    method AddStudent(requester: Requester, student: UserId, studentIsTherapist: bool) returns (r: Reply<SupervisorProfile>)
      requires Valid()
      modifies this
      ensures Valid()
      ensures Outcome(r, profiles) == Commit(old(profiles), requester.id, 200,
        AddStep(FindSupervisor(old(profiles), requester.id), studentIsTherapist, student),
        "Student added to supervision successfully")
    {
      var step := AddStep(FindSupervisor(profiles, requester.id), studentIsTherapist, student);
      r := Apply(requester.id, 200, step, "Student added to supervision successfully");
    }

    method RemoveStudent(requester: Requester, student: UserId) returns (r: Reply<SupervisorProfile>)
      requires Valid()
      modifies this
      ensures Valid()
      ensures Outcome(r, profiles) == Commit(old(profiles), requester.id, 200,
        RemoveStep(FindSupervisor(old(profiles), requester.id), student),
        "Student removed from supervision successfully")
    {
      var step := RemoveStep(FindSupervisor(profiles, requester.id), student);
      if step.Save? {
        RemovedKeepsDistinct(profiles[requester.id].students, student);
      }
      r := Apply(requester.id, 200, step, "Student removed from supervision successfully");
    }
  }

  predicate ProfileValid(p: SupervisorProfile) {
    p.license != "" && Trimmed(p.license) && NoDuplicates(p.students)
  }

  /** Licenses are stored trimmed, non-blank and unique; no student is listed twice. */
  predicate ValidProfiles(profiles: Supervisors) {
    && (forall u | u in profiles :: ProfileValid(profiles[u]))
    && (forall u, v | u in profiles && v in profiles && u != v :: profiles[u].license != profiles[v].license)
  }

  /** Saving a valid profile whose license no other profile holds keeps the collection valid. */
  lemma ValidAfterSave(profiles: Supervisors, userId: UserId, p: SupervisorProfile)
    requires ValidProfiles(profiles) && ProfileValid(p)
    requires !LicenseTaken(profiles, p.license, Some(userId))
    ensures ValidProfiles(profiles[userId := p])
  {
    var np := profiles[userId := p];
    forall u | u in np ensures ProfileValid(np[u]) {
      if u != userId {
        assert np[u] == profiles[u];
      }
    }
    forall u, v | u in np && v in np && u != v ensures np[u].license != np[v].license {
      if u == userId {
        assert np[v] == profiles[v];
        assert !(Some(v) != Some(userId) && profiles[v].license == p.license);
      } else if v == userId {
        assert np[u] == profiles[u];
        assert !(Some(u) != Some(userId) && profiles[u].license == p.license);
      } else {
        assert np[u] == profiles[u] && np[v] == profiles[v];
      }
    }
  }

  /** Splicing one entry out of a duplicate-free list leaves it duplicate-free. */
  /** The k-th entry after the splice is the k-th before it, or the next one past the removed index. */
  lemma RemovedAt(s: seq<UserId>, student: UserId, k: int)
    requires student in s && 0 <= k < |s| - 1
    ensures var i := StudentIndex(s, student); Removed(s, student)[k] == s[if k < i then k else k + 1]
  {
    var i := StudentIndex(s, student);
    var r := Removed(s, student);
    if k < i {
      assert r[..i][k] == s[..i][k];
    } else {
      assert r[i..][k - i] == s[i + 1..][k - i];
    }
  }

  lemma RemovedKeepsDistinct(s: seq<UserId>, student: UserId)
    requires NoDuplicates(s) && student in s
    ensures NoDuplicates(Removed(s, student))
  {
    var i := StudentIndex(s, student);
    var r := Removed(s, student);
    forall a, b | 0 <= a < b < |r| ensures r[a] != r[b] {
      RemovedAt(s, student, a);
      RemovedAt(s, student, b);
      var a' := if a < i then a else a + 1;
      var b' := if b < i then b else b + 1;
      assert a' < b' && r[a] == s[a'] && r[b] == s[b'];
    }
  }

  const MaxSupervisorLimit: int := 50

  datatype SupervisorPagination = SupervisorPagination(currentPage: int, totalPages: PageCount, totalSupervisors: nat, hasMore: bool)

  /**
   * getAllSupervisors over the supervisors the search matched: the limit
   * is capped at 50, the page is the window at (page - 1) * limit, and
   * hasMore says whether a later page exists. None where the page or the
   * limit is below 1, which the database semantics of this model do not cover.
   */
  function ListSupervisors(matching: seq<SupervisorProfile>, page: int, limit: int)
    : (r: Option<(seq<SupervisorProfile>, SupervisorPagination)>)
    ensures r.Some? <==> page >= 1 && limit >= 1
    ensures r.Some? ==>
      var limitNum := CappedLimit(limit, MaxSupervisorLimit);
      && |r.value.0| <= limitNum <= MaxSupervisorLimit
      && r.value.0 == PageOf(matching, (page - 1) * limitNum, limitNum)
      && r.value.1.totalSupervisors == |matching|
      && (r.value.1.hasMore <==> page * limitNum < |matching|)
  {
    if page < 1 || limit < 1 then None
    else
      var limitNum := CappedLimit(limit, MaxSupervisorLimit);
      SkipBeforePage(page, limitNum);
      HasNextIffMoreEntries(page, |matching|, limitNum);
      Some((PageOf(matching, Skip(page, limitNum), limitNum),
        SupervisorPagination(page, TotalPages(|matching|, limitNum), |matching|, HasNextPage(page, |matching|, limitNum))))
  }
}
