/**
 * The therapist profile document: its fields, their ranges and the defaults
 * Mongoose fills in when a field is not supplied.
 */
module TherapistModel {
  import opened Common

  datatype VerificationStatus = Pending | Verified | Rejected

  function VerificationStatusName(v: VerificationStatus): string {
    match v
    case Pending => "pending"
    case Verified => "verified"
    case Rejected => "rejected"
  }

  function ParseVerificationStatus(s: string): (r: Option<VerificationStatus>)
    ensures r.Some? ==> VerificationStatusName(r.value) == s
    ensures r.None? ==> forall v: VerificationStatus :: VerificationStatusName(v) != s
  {
    if s == "pending" then Some(Pending)
    else if s == "verified" then Some(Verified)
    else if s == "rejected" then Some(Rejected)
    else None
  }

  /**
   * One availability slot. A missing or empty start/end is the empty string
   * (both are falsy to the validator).
   */
  datatype TimeSlot = TimeSlot(start: string, end: string)

  /** The value stored under one availability key: an array of slots, or anything else. */
  datatype DayValue = Slots(slots: seq<TimeSlot>) | NotAnArray

  /** The availability object as its entries in key order ({} is []). */
  type Availability = seq<(string, DayValue)>

  /** A qualification sub-document; degree and institution are required, year is optional. */
  datatype Qualification = Qualification(degree: string, institution: string, year: Option<int>)

  datatype TherapistProfile = TherapistProfile(
    userId: UserId,
    bio: Option<string>,
    isStudent: bool,
    qualifications: seq<Qualification>,
    licenseNumber: Option<string>,
    specializations: seq<string>,
    yearsOfExperience: int,
    sessionRate: real,
    availability: Availability,
    supervisorId: Option<UserId>,
    verificationStatus: VerificationStatus,
    averageRating: real)

  const MaxBioLength: nat := 2000
  const MaxAverageRating: real := 5.0

  /** The validators Mongoose runs on save: required strings, maxlength, min and max. */
  predicate SchemaValid(p: TherapistProfile) {
    && (p.bio.Some? ==> |p.bio.value| <= MaxBioLength)
    && (forall q | q in p.qualifications :: q.degree != "" && q.institution != "")
    && p.yearsOfExperience >= 0
    && p.sessionRate >= 0.0
    && 0.0 <= p.averageRating <= MaxAverageRating
  }

  /**
   * A profile with every optional field at its schema default: not a student,
   * no qualifications, no license, no specializations, 0 years, empty
   * availability, no supervisor, "pending", rating 0.
   */
  function DefaultProfile(userId: UserId, sessionRate: real): (p: TherapistProfile)
    ensures p.userId == userId && p.sessionRate == sessionRate
    ensures p.bio.None? && !p.isStudent && p.qualifications == [] && p.licenseNumber.None?
    ensures p.specializations == [] && p.yearsOfExperience == 0 && p.availability == []
    ensures p.supervisorId.None? && p.verificationStatus == Pending && p.averageRating == 0.0
    ensures sessionRate >= 0.0 ==> SchemaValid(p)
  {
    TherapistProfile(userId, None, false, [], None, [], 0, sessionRate, [], None, Pending, 0.0)
  }
}
