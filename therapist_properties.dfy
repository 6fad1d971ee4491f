/** Properties of the therapist-profile controllers and the public listing. */
module TherapistProperties {
  import opened Common
  import opened Envelopes
  import opened TherapistModel
  import opened TherapistValidation
  import opened Therapists
  import opened TherapistListing

  /** A therapist can hold one profile: once a create succeeds, the next create is a 409. */
  lemma CreateTwiceConflicts(requester: Requester, body: CreateProfileBody, again: CreateProfileBody,
                             profiles: Profiles, roles: map<UserId, Role>)
    requires Commit(profiles, requester.id, 201, CreateProfileStep(requester, body, profiles, roles), "").reply.Ok?
    ensures var after := Commit(profiles, requester.id, 201, CreateProfileStep(requester, body, profiles, roles), "").profiles;
      CreateProfileStep(requester, again, after, roles)
        == Refuse(NewApiError(409, "Therapist profile already exists. Use update endpoint."))
  {
  }

  /** A student profile always names a supervisor when it is created. */
  lemma CreatedStudentHasSupervisor(requester: Requester, body: CreateProfileBody, profiles: Profiles,
                                    roles: map<UserId, Role>)
    requires CreateProfileStep(requester, body, profiles, roles).Save?
    ensures var p := CreateProfileStep(requester, body, profiles, roles).document;
      p.isStudent ==> p.supervisorId.Some? && IsSupervisor(roles, p.supervisorId.value)
  {
  }

  /**
   * The create endpoint stores availability without the validation
   * updateAvailability applies: a profile can be created with a slot
   * that is not a time.
   */
  lemma CreateSkipsAvailabilityChecks()
    ensures var av: Availability := [("monday", Slots([TimeSlot("nine", "ten")]))];
      var body := CreateProfileBody(None, None, None, None, None, Some(50.0), None, Some(av), None);
      var step := CreateProfileStep(Requester(1, Therapist), body, map[], map[]);
      && !AvailabilityValid(av)
      && step.Save? && SchemaValid(step.document) && step.document.availability == av
  {
    var av: Availability := [("monday", Slots([TimeSlot("nine", "ten")]))];
    assert !IsTime("nine");
    assert !SlotValid(av[0].1.slots[0]);
  }

  /**
   * Creation requires a supervisor for a student, but an update that sends
   * supervisorId null clears it and still succeeds.
   */
  lemma UpdateCanDetachStudent(p: TherapistProfile, roles: map<UserId, Role>)
    requires p.isStudent && p.supervisorId.Some?
    ensures var body := UpdateProfileBody(None, None, None, None, None, None, Some(None));
      var step := UpdateProfileStep(Some(p), body, roles);
      step.Save? && step.document.isStudent && step.document.supervisorId.None?
  {
  }

  /** An update that sends no field saves the profile unchanged. */
  lemma EmptyUpdateIsIdentity(p: TherapistProfile, roles: map<UserId, Role>)
    ensures UpdateProfileStep(Some(p), UpdateProfileBody(None, None, None, None, None, None, None), roles) == Save(p)
  {
  }

  /** Verifying twice with the same verdict gives the same profile. */
  lemma VerifyIsIdempotent(p: TherapistProfile, requester: UserId, status: Option<string>)
    requires VerifyStep(Some(p), requester, status).Save?
    ensures var q := VerifyStep(Some(p), requester, status).document;
      VerifyStep(Some(q), requester, status) == Save(q)
  {
  }

  /** Only the student's own supervisor can judge a student profile. */
  lemma VerifyStudentNeedsOwnSupervisor(p: TherapistProfile, requester: UserId, status: Option<string>)
    requires p.isStudent && p.supervisorId != Some(requester) && ParseVerdict(status).Some?
    ensures VerifyStep(Some(p), requester, status) == Refuse(NewApiError(403, "You can only verify your own students"))
  {
  }

  /** Without verifiedOnly=true the listing shows profiles whatever their verification status. */
  lemma ListingIgnoresStatusByDefault(q: ListQuery, t: TherapistProfile, v: VerificationStatus)
    requires q.verifiedOnly != Some("true")
    ensures ListMatches(q, t) <==> ListMatches(q, t.(verificationStatus := v))
  {
  }

  /** verifiedOnly=true lists verified profiles only. */
  lemma VerifiedOnlyListsVerified(q: ListQuery, all: seq<TherapistProfile>, t: TherapistProfile)
    requires q.verifiedOnly == Some("true") && t in Filtered(q, all)
    ensures t.verificationStatus == Verified
  {
  }

  /** Specialization matches exactly: a different spelling of the same word is not found. */
  lemma SpecializationMatchIsExact()
    ensures var q := ListQuery(Some("anxiety"), None, None, None, None, None, None);
      var t := DefaultProfile(1, 10.0).(specializations := ["Anxiety"]);
      !ListMatches(q, t)
  {
    assert "anxiety"[0] != "Anxiety"[0];
  }

  /** Arranging keeps exactly the filtered profiles: none lost, none added. */
  lemma {:induction false} SortKeepsProfiles(o: SortOrder, s: seq<TherapistProfile>, t: TherapistProfile)
    ensures t in Arrange(o, s) <==> t in s
  {
    assert t in multiset(Arrange(o, s)) <==> t in multiset(s);
  }
}
