/**
 * The therapist-profile controllers: create, update, the availability,
 * qualification and specialization replacements, supervisor
 * verification, and the filter, sort and limit of the public listing.
 * Profiles are keyed by their owner's user id, which the schema makes
 * unique.
 */
module Therapists {
  import opened Common
  import opened Text
  import opened Envelopes
  import opened TherapistModel
  import opened TherapistValidation

  type Profiles = map<UserId, TherapistProfile>

  /** The create body; an absent or null field is None. */
  datatype CreateProfileBody = CreateProfileBody(
    bio: Option<string>,
    isStudent: Option<bool>,
    licenseNumber: Option<string>,
    specializations: Option<seq<string>>,
    yearsOfExperience: Option<int>,
    sessionRate: Option<real>,
    qualifications: Option<seq<Qualification>>,
    availability: Option<Availability>,
    supervisorId: Option<UserId>)

  /** userId names a user whose role is supervisor. */
  predicate IsSupervisor(roles: map<UserId, Role>, userId: UserId) {
    userId in roles && roles[userId] == Supervisor
  }

  /**
   * createTherapistProfile's decision. The body's availability is stored
   * as sent: this controller does not run the availability validator.
   */
  function CreateProfileStep(requester: Requester, body: CreateProfileBody, profiles: Profiles,
                             roles: map<UserId, Role>): (r: Step<TherapistProfile>)
    ensures r.Save? <==>
      && requester.role == Therapist && requester.id !in profiles
      && body.sessionRate.Some? && body.sessionRate.value > 0.0
      && (body.isStudent == Some(true) ==> body.supervisorId.Some?)
      && (body.supervisorId.Some? ==> IsSupervisor(roles, body.supervisorId.value))
    ensures r.Save? ==> r.document == TherapistProfile(
      requester.id, body.bio, body.isStudent == Some(true), body.qualifications.GetOr([]),
      body.licenseNumber, body.specializations.GetOr([]),
      if body.yearsOfExperience.Some? then body.yearsOfExperience.value else 0,
      body.sessionRate.value, body.availability.GetOr([]), body.supervisorId, Pending, 0.0)
    ensures r.Save? ==> r.document.verificationStatus == Pending && r.document.averageRating == 0.0
    ensures requester.role == Therapist && requester.id in profiles ==>
      r == Refuse(NewApiError(409, "Therapist profile already exists. Use update endpoint."))
  {
    if requester.role != Therapist then Refuse(NewApiError(403, "Only therapists can create therapist profiles"))
    else if requester.id in profiles then Refuse(NewApiError(409, "Therapist profile already exists. Use update endpoint."))
    else if body.sessionRate.None? || body.sessionRate.value <= 0.0 then
      Refuse(NewApiError(400, "Valid session rate is required"))
    else if body.isStudent == Some(true) && body.supervisorId.None? then
      Refuse(NewApiError(400, "Supervisor ID is required for student therapists"))
    else if body.supervisorId.Some? && !IsSupervisor(roles, body.supervisorId.value) then
      Refuse(NewApiError(400, "Invalid supervisor ID"))
    else
      Save(TherapistProfile(
        requester.id, body.bio, body.isStudent == Some(true), body.qualifications.GetOr([]),
        body.licenseNumber, body.specializations.GetOr([]),
        if body.yearsOfExperience.Some? then body.yearsOfExperience.value else 0,
        body.sessionRate.value, body.availability.GetOr([]), body.supervisorId, Pending, 0.0))
  }

  /** The update body: None when a field is left out, Some(None) when it is sent as null. */
  datatype UpdateProfileBody = UpdateProfileBody(
    bio: Option<Option<string>>,
    licenseNumber: Option<Option<string>>,
    specializations: Option<seq<string>>,
    yearsOfExperience: Option<int>,
    sessionRate: Option<real>,
    qualifications: Option<seq<Qualification>>,
    supervisorId: Option<Option<UserId>>)

  /**
   * updateTherapistProfile's decision: every field sent replaces the
   * stored one. isStudent and availability cannot be changed here, and a
   * null supervisorId clears the supervisor even of a student.
   */
  function UpdateProfileStep(found: Option<TherapistProfile>, body: UpdateProfileBody,
                             roles: map<UserId, Role>): (r: Step<TherapistProfile>)
    ensures r.Save? <==>
      && found.Some?
      && (body.sessionRate.Some? ==> body.sessionRate.value > 0.0)
      && (body.supervisorId.Some? && body.supervisorId.value.Some? ==> IsSupervisor(roles, body.supervisorId.value.value))
    ensures r.Save? ==> r.document == found.value.(
      bio := body.bio.GetOr(found.value.bio),
      licenseNumber := body.licenseNumber.GetOr(found.value.licenseNumber),
      specializations := body.specializations.GetOr(found.value.specializations),
      yearsOfExperience := body.yearsOfExperience.GetOr(found.value.yearsOfExperience),
      sessionRate := body.sessionRate.GetOr(found.value.sessionRate),
      qualifications := body.qualifications.GetOr(found.value.qualifications),
      supervisorId := body.supervisorId.GetOr(found.value.supervisorId))
    ensures r.Save? ==>
      r.document.userId == found.value.userId && r.document.isStudent == found.value.isStudent
      && r.document.availability == found.value.availability
      && r.document.verificationStatus == found.value.verificationStatus
      && r.document.averageRating == found.value.averageRating
  {
    if found.None? then Refuse(NewApiError(404, "Therapist profile not found. Please create one first."))
    else if body.sessionRate.Some? && body.sessionRate.value <= 0.0 then
      Refuse(NewApiError(400, "Session rate must be greater than 0"))
    else if body.supervisorId.Some? && body.supervisorId.value.Some?
            && !IsSupervisor(roles, body.supervisorId.value.value) then
      Refuse(NewApiError(400, "Invalid supervisor ID"))
    else
      Save(found.value.(
        bio := body.bio.GetOr(found.value.bio),
        licenseNumber := body.licenseNumber.GetOr(found.value.licenseNumber),
        specializations := body.specializations.GetOr(found.value.specializations),
        yearsOfExperience := body.yearsOfExperience.GetOr(found.value.yearsOfExperience),
        sessionRate := body.sessionRate.GetOr(found.value.sessionRate),
        qualifications := body.qualifications.GetOr(found.value.qualifications),
        supervisorId := body.supervisorId.GetOr(found.value.supervisorId)))
  }

  /** The verdict verifyTherapist accepts: "verified" or "rejected", never "pending". */
  function ParseVerdict(status: Option<string>): (v: Option<VerificationStatus>)
    ensures v.Some? <==> status == Some("verified") || status == Some("rejected")
    ensures v.Some? ==> v.value != Pending && VerificationStatusName(v.value) == status.value
  {
    if status == Some("verified") then Some(Verified)
    else if status == Some("rejected") then Some(Rejected)
    else None
  }

  /**
   * verifyTherapist's decision: a student's profile may be judged only by
   * its own supervisor; any supervisor may judge a non-student's.
   */
  function VerifyStep(found: Option<TherapistProfile>, requester: UserId, status: Option<string>): (r: Step<TherapistProfile>)
    ensures r.Save? <==>
      ParseVerdict(status).Some? && found.Some?
      && (found.value.isStudent ==> found.value.supervisorId == Some(requester))
    ensures r.Save? ==> r.document == found.value.(verificationStatus := ParseVerdict(status).value)
  {
    if ParseVerdict(status).None? then Refuse(NewApiError(400, "Status must be either 'verified' or 'rejected'"))
    else if found.None? then Refuse(NewApiError(404, "Therapist not found"))
    else if found.value.isStudent && (found.value.supervisorId.None? || found.value.supervisorId.value != requester) then
      Refuse(NewApiError(403, "You can only verify your own students"))
    else Save(found.value.(verificationStatus := ParseVerdict(status).value))
  }

  function VerifyMessage(v: VerificationStatus): string {
    if v == Verified then "Therapist verified successfully" else "Therapist rejected successfully"
  }

  datatype Outcome = Outcome(reply: Reply<TherapistProfile>, profiles: Profiles)

  /** therapistProfile.save(): a profile the validators refuse becomes a 500 and nothing is stored. */
  function Commit(profiles: Profiles, userId: UserId, status: int, step: Step<TherapistProfile>, message: string): (o: Outcome)
    ensures step.Refuse? ==> o == Outcome(Err(step.error), profiles)
    ensures step.Save? && !SchemaValid(step.document) ==> o == Outcome(Fail(500, ValidationFailedMessage), profiles)
    ensures step.Save? && SchemaValid(step.document) ==>
      o == Outcome(Succeed(status, step.document, message), profiles[userId := step.document])
  {
    match step
    case Refuse(e) => Outcome(Err(e), profiles)
    case Save(p) =>
      if !SchemaValid(p) then Outcome(Fail(500, ValidationFailedMessage), profiles)
      else Outcome(Succeed(status, p, message), profiles[userId := p])
  }

  function FindProfile(profiles: Profiles, userId: UserId): (r: Option<TherapistProfile>)
    ensures r.Some? <==> userId in profiles
    ensures r.Some? ==> r.value == profiles[userId]
  {
    if userId in profiles then Some(profiles[userId]) else None
  }

  /** The Therapist collection. */
  class TherapistStore {
    var profiles: Profiles

    /** Every stored profile passed the validators and is stored under its owner. */
    predicate Valid()
      reads this
    {
      forall u | u in profiles :: profiles[u].userId == u && SchemaValid(profiles[u])
    }

    constructor()
      ensures profiles == map[] && Valid()
    {
      profiles := map[];
    }

    method Apply(userId: UserId, status: int, step: Step<TherapistProfile>, message: string)
      returns (r: Reply<TherapistProfile>)
      requires Valid() && (step.Save? ==> step.document.userId == userId)
      modifies this
      ensures Valid()
      ensures Outcome(r, profiles) == Commit(old(profiles), userId, status, step, message)
    {
      var o := Commit(profiles, userId, status, step, message);
      r, profiles := o.reply, o.profiles;
    }

    method Create(requester: Requester, body: CreateProfileBody, roles: map<UserId, Role>)
      returns (r: Reply<TherapistProfile>)
      requires Valid()
      modifies this
      ensures Valid()
      ensures Outcome(r, profiles) == Commit(old(profiles), requester.id, 201,
        CreateProfileStep(requester, body, old(profiles), roles), "Therapist profile created successfully")
    {
      r := Apply(requester.id, 201, CreateProfileStep(requester, body, profiles, roles),
                 "Therapist profile created successfully");
    }

    method Update(requester: Requester, body: UpdateProfileBody, roles: map<UserId, Role>)
      returns (r: Reply<TherapistProfile>)
      requires Valid()
      modifies this
      ensures Valid()
      ensures Outcome(r, profiles) == Commit(old(profiles), requester.id, 200,
        UpdateProfileStep(FindProfile(old(profiles), requester.id), body, roles),
        "Therapist profile updated successfully")
    {
      r := Apply(requester.id, 200, UpdateProfileStep(FindProfile(profiles, requester.id), body, roles),
                 "Therapist profile updated successfully");
    }

    /** updateAvailability: validate the whole object, then replace the stored one. */
    method UpdateAvailability(requester: Requester, availability: Option<Availability>)
      returns (r: Reply<TherapistProfile>)
      requires Valid()
      modifies this
      ensures Valid()
      ensures availability.None? ==>
        r == Fail(400, "Valid availability object is required") && profiles == old(profiles)
      ensures availability.Some? && FirstAvailabilityError(availability.value).Some? ==>
        r == Err(FirstAvailabilityError(availability.value).value) && profiles == old(profiles)
      ensures availability.Some? && FirstAvailabilityError(availability.value).Some? <==>
        availability.Some? && !AvailabilityValid(availability.value)
      ensures availability.Some? && AvailabilityValid(availability.value) && requester.id !in old(profiles) ==>
        r == Fail(404, "Therapist profile not found") && profiles == old(profiles)
      ensures availability.Some? && AvailabilityValid(availability.value) && requester.id in old(profiles) ==>
        var p := old(profiles)[requester.id].(availability := availability.value);
        r == Succeed(200, p, "Availability updated successfully") && profiles == old(profiles)[requester.id := p]
    {
      if availability.None? {
        return Fail(400, "Valid availability object is required");
      }
      var err := ValidateAvailability(availability.value);
      if err.Some? {
        return Err(err.value);
      }
      if requester.id !in profiles {
        return Fail(404, "Therapist profile not found");
      }
      var p := profiles[requester.id].(availability := availability.value);
      profiles := profiles[requester.id := p];
      r := Succeed(200, p, "Availability updated successfully");
    }

    /** updateQualifications: validate every entry, then replace the list. */
    method UpdateQualifications(requester: Requester, qualifications: Option<seq<Qualification>>, currentYear: int)
      returns (r: Reply<TherapistProfile>)
      requires Valid()
      modifies this
      ensures Valid()
      ensures qualifications.None? ==> r == Fail(400, "Qualifications must be an array") && profiles == old(profiles)
      ensures qualifications.Some? && FirstQualificationError(qualifications.value, currentYear).Some? ==>
        r == Err(FirstQualificationError(qualifications.value, currentYear).value) && profiles == old(profiles)
      ensures qualifications.Some? && FirstQualificationError(qualifications.value, currentYear).None? ==>
        if requester.id !in old(profiles) then r == Fail(404, "Therapist profile not found") && profiles == old(profiles)
        else
          var p := old(profiles)[requester.id].(qualifications := qualifications.value);
          r == Succeed(200, p, "Qualifications updated successfully") && profiles == old(profiles)[requester.id := p]
    {
      if qualifications.None? {
        return Fail(400, "Qualifications must be an array");
      }
      var err := ValidateQualifications(qualifications.value, currentYear);
      if err.Some? {
        return Err(err.value);
      }
      if requester.id !in profiles {
        return Fail(404, "Therapist profile not found");
      }
      var p := profiles[requester.id].(qualifications := qualifications.value);
      assert forall q | q in p.qualifications :: q.degree != "" && q.institution != "" by {
        forall q | q in p.qualifications ensures q.degree != "" && q.institution != "" {
          var i :| 0 <= i < |qualifications.value| && qualifications.value[i] == q;
          assert QualificationError(qualifications.value[i], currentYear).None?;
        }
      }
      profiles := profiles[requester.id := p];
      r := Succeed(200, p, "Qualifications updated successfully");
    }

    /** updateSpecializations: every entry non-blank, then replace the list (untrimmed). */
    method UpdateSpecializations(requester: Requester, specializations: Option<seq<string>>)
      returns (r: Reply<TherapistProfile>)
      requires Valid()
      modifies this
      ensures Valid()
      ensures specializations.None? ==> r == Fail(400, "Specializations must be an array") && profiles == old(profiles)
      ensures specializations.Some? && (exists i | 0 <= i < |specializations.value| :: Trim(specializations.value[i]) == "") ==>
        r == Fail(400, BlankSpecialization) && profiles == old(profiles)
      ensures specializations.Some? && (forall i | 0 <= i < |specializations.value| :: Trim(specializations.value[i]) != "") ==>
        if requester.id !in old(profiles) then r == Fail(404, "Therapist profile not found") && profiles == old(profiles)
        else
          var p := old(profiles)[requester.id].(specializations := specializations.value);
          r == Succeed(200, p, "Specializations updated successfully") && profiles == old(profiles)[requester.id := p]
    {
      if specializations.None? {
        return Fail(400, "Specializations must be an array");
      }
      var err := ValidateSpecializations(specializations.value);
      if err.Some? {
        return Err(err.value);
      }
      if requester.id !in profiles {
        return Fail(404, "Therapist profile not found");
      }
      var p := profiles[requester.id].(specializations := specializations.value);
      profiles := profiles[requester.id := p];
      r := Succeed(200, p, "Specializations updated successfully");
    }

    /** verifyTherapist on the profile of therapistId. */
    method Verify(requester: Requester, therapistId: UserId, status: Option<string>)
      returns (r: Reply<TherapistProfile>)
      requires Valid()
      modifies this
      ensures Valid()
      ensures var step := VerifyStep(FindProfile(old(profiles), therapistId), requester.id, status);
        Outcome(r, profiles) == Commit(old(profiles), therapistId, 200, step,
          if step.Save? then VerifyMessage(step.document.verificationStatus) else "")
    {
      var step := VerifyStep(FindProfile(profiles, therapistId), requester.id, status);
      r := Apply(therapistId, 200, step, if step.Save? then VerifyMessage(step.document.verificationStatus) else "");
    }

    /** The rating refresh the feedback controller runs after a rating changes. */
    method SetAverageRating(userId: UserId, rating: real)
      requires Valid()
      modifies this
      ensures Valid()
      ensures profiles == WithAverageRating(old(profiles), userId, rating)
    {
      profiles := WithAverageRating(profiles, userId, rating);
    }
  }

  /**
   * Therapist.findOne({ userId }), averageRating assigned, save(): a
   * missing profile is skipped, and a rating the validators refuse is
   * caught and logged, leaving the profile as it was.
   */
  function WithAverageRating(profiles: Profiles, userId: UserId, rating: real): (r: Profiles)
    ensures userId in profiles && 0.0 <= rating <= MaxAverageRating ==>
      r == profiles[userId := profiles[userId].(averageRating := rating)]
    ensures !(userId in profiles && 0.0 <= rating <= MaxAverageRating) ==> r == profiles
  {
    if userId in profiles && 0.0 <= rating <= MaxAverageRating then
      profiles[userId := profiles[userId].(averageRating := rating)]
    else profiles
  }
}
