/** Properties of the supervisor profile rules and the supervised student list. */
module SupervisorProperties {
  import opened Common
  import opened Text
  import opened Envelopes
  import opened Supervisors

  /**
   * As written, a license sent with surrounding spaces passes the
   * duplicate check although its trimmed form is already registered, and
   * the unique index then turns the create into a 500 instead of the 409
   * the duplicate check exists to give.
   */
  lemma PaddedDuplicateLicenseIsServerError()
    ensures var profiles := map[2 := SupervisorProfile("L1", [])];
      var requester := Requester(1, Supervisor);
      && Commit(profiles, 1, 201, CreateStepAsWritten(requester, Some(" L1"), profiles), "").reply
           == Fail(500, DuplicateKeyMessage)
      && CreateStep(requester, Some(" L1"), profiles)
           == Refuse(NewApiError(409, "This license number is already registered"))
  {
    var profiles := map[2 := SupervisorProfile("L1", [])];
    var requester := Requester(1, Supervisor);
    PaddedAsWrittenSaves(profiles, requester);
    PaddedIntendedRefuses(profiles, requester);
  }

  /** The as-written create saves the trimmed license over a registered one. */
  lemma PaddedAsWrittenSaves(profiles: Supervisors, requester: Requester)
    requires profiles == map[2 := SupervisorProfile("L1", [])] && requester == Requester(1, Supervisor)
    ensures CreateStepAsWritten(requester, Some(" L1"), profiles) == Save(SupervisorProfile("L1", []))
    ensures Commit(profiles, 1, 201, Save(SupervisorProfile("L1", [])), "").reply == Fail(500, DuplicateKeyMessage)
  {
    var padded := " L1";
    PaddedLicenseTrims();
    assert !LicenseTaken(profiles, padded, None) by {
      assert profiles.Keys == {2};
      assert profiles[2].license != padded;
    }
    UncheckedLicenseSaved(requester, padded, profiles);
    assert LicenseTaken(profiles, "L1", Some(1)) by {
      assert Some(2) != Some(1) && profiles[2].license == "L1";
    }
  }

  /** The corrected create refuses the same request with the duplicate 409. */
  lemma PaddedIntendedRefuses(profiles: Supervisors, requester: Requester)
    requires profiles == map[2 := SupervisorProfile("L1", [])] && requester == Requester(1, Supervisor)
    ensures CreateStep(requester, Some(" L1"), profiles) == Refuse(NewApiError(409, "This license number is already registered"))
  {
    var padded := " L1";
    PaddedLicenseTrims();
    assert LicenseTaken(profiles, "L1", None) by {
      assert profiles[2].license == "L1";
    }
    TakenTrimmedLicenseRefused(requester, padded, profiles);
  }

  /** As written, a license not registered verbatim is saved trimmed, whatever its trimmed form collides with. */
  lemma UncheckedLicenseSaved(requester: Requester, license: string, profiles: Supervisors)
    requires requester.role == Supervisor && requester.id !in profiles && Trim(license) != ""
    requires !LicenseTaken(profiles, license, None)
    ensures CreateStepAsWritten(requester, Some(license), profiles) == Save(SupervisorProfile(Trim(license), []))
  {
  }

  /** With the duplicate lookup on the trimmed license, a registered trimmed form is the duplicate 409. */
  lemma TakenTrimmedLicenseRefused(requester: Requester, license: string, profiles: Supervisors)
    requires requester.role == Supervisor && requester.id !in profiles && Trim(license) != ""
    requires LicenseTaken(profiles, Trim(license), None)
    ensures CreateStep(requester, Some(license), profiles) == Refuse(NewApiError(409, "This license number is already registered"))
  {
  }

  lemma PaddedLicenseTrims()
    ensures Trim(" L1") == "L1"
  {
    var padded := " L1";
    var plain := "L1";
    assert IsSpace(padded[0]) && !IsSpace(plain[0]) && !IsSpace(plain[1]);
    assert padded[1..] == plain;
    assert Trimmed(plain);
    TrimmedIsFixed(plain);
    assert TrimStart(padded) == TrimStart(plain);
    assert TrimStart(plain) == plain;
  }

  /**
   * With the duplicate check made on the stored, trimmed license, every duplicate
   * is reported as a 409: a create the controller accepts never reaches
   * the unique index.
   */
  lemma CreateNeverHitsUniqueIndex(requester: Requester, license: Option<string>, profiles: Supervisors, message: string)
    requires CreateStep(requester, license, profiles).Save?
    ensures Commit(profiles, requester.id, 201, CreateStep(requester, license, profiles), message).reply.Ok?
  {
  }

  /** Resending the license a supervisor already holds is not a conflict. */
  lemma UpdateWithOwnLicenseSucceeds(requester: Requester, profiles: Supervisors)
    requires ValidProfiles(profiles) && requester.id in profiles
    ensures UpdateStep(requester, Some(profiles[requester.id].license), profiles).Save?
  {
    TrimmedIsFixed(profiles[requester.id].license);
  }

  /** Pushing a student that is not yet listed keeps the list duplicate-free. */
  lemma AddKeepsDistinct(s: seq<UserId>, student: UserId)
    requires NoDuplicates(s) && student !in s
    ensures NoDuplicates(s + [student])
  {
    var r := s + [student];
    forall i, j | 0 <= i < j < |r| ensures r[i] != r[j] {
      if j == |s| {
        assert r[i] == s[i];
      } else {
        assert r[i] == s[i] && r[j] == s[j];
      }
    }
  }

  /** Every other entry keeps its place, moving down by one past the removed one. */
  lemma RemovedKeepsPositions(s: seq<UserId>, student: UserId)
    requires student in s
    ensures var i := StudentIndex(s, student);
      forall k | 0 <= k < |s| && k != i :: Removed(s, student)[if k < i then k else k - 1] == s[k]
  {
    var i := StudentIndex(s, student);
    forall k | 0 <= k < |s| && k != i ensures Removed(s, student)[if k < i then k else k - 1] == s[k] {
      RemovedAt(s, student, if k < i then k else k - 1);
    }
  }

  /** In a duplicate-free list, splicing out a student removes it altogether. */
  lemma RemoveDropsStudent(s: seq<UserId>, student: UserId)
    requires NoDuplicates(s) && student in s
    ensures student !in Removed(s, student)
    ensures forall x | x in s && x != student :: x in Removed(s, student)
    ensures var i := StudentIndex(s, student);
      forall k | 0 <= k < |s| && k != i :: Removed(s, student)[if k < i then k else k - 1] == s[k]
  {
    var i := StudentIndex(s, student);
    var r := Removed(s, student);
    RemovedKeepsPositions(s, student);
    forall x | x in s && x != student ensures x in r {
      var k :| 0 <= k < |s| && s[k] == x;
      assert k != i;
      RemovedAt(s, student, if k < i then k else k - 1);
      assert r[if k < i then k else k - 1] == x;
    }
    forall k | 0 <= k < |r| ensures r[k] != student {
      RemovedAt(s, student, k);
      var j := if k < i then k else k + 1;
      assert r[k] == s[j] && j != i;
    }
  }

  /** Removing a student just added restores the list: push and splice are inverse. */
  lemma AddThenRemoveRestores(s: seq<UserId>, student: UserId)
    requires student !in s
    ensures Removed(s + [student], student) == s
  {
    var r := s + [student];
    assert r[..|s|] == s;
  }

  /** An add followed by a remove of the same student, through the controllers, restores the profile. */
  lemma AddRemoveStepsRoundTrip(p: SupervisorProfile, student: UserId)
    requires student !in p.students
    ensures var added := AddStep(Some(p), true, student);
      added.Save? && RemoveStep(Some(added.document), student) == Save(p)
  {
    AddThenRemoveRestores(p.students, student);
  }

  /** A student already listed is a 409, so the list never holds a student twice. */
  lemma AddTwiceConflicts(p: SupervisorProfile, student: UserId)
    requires AddStep(Some(p), true, student).Save?
    ensures AddStep(Some(AddStep(Some(p), true, student).document), true, student)
      == Refuse(NewApiError(409, "Student is already under your supervision"))
  {
    var q := AddStep(Some(p), true, student).document;
    assert q.students[|q.students| - 1] == student;
  }
}
