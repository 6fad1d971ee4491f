/**
 * getAllSessions: the role-dependent query filter. A patient or therapist
 * is always pinned to their own sessions; only an admin may pick another
 * patient or therapist.
 */
module SessionListing {
  import opened Common
  import opened SessionModel

  /** The query string; empty strings are absent. Dates are milliseconds since the epoch. */
  datatype SessionQuery = SessionQuery(
    patientId: Option<UserId>, therapistId: Option<UserId>, status: Option<string>,
    paymentStatus: Option<string>, startDate: Option<int>, endDate: Option<int>)

  /** The Mongo filter object; an absent field does not constrain. */
  datatype SessionFilter = SessionFilter(
    patientId: Option<UserId>, therapistId: Option<UserId>, status: Option<string>,
    paymentStatus: Option<string>, from: Option<int>, to: Option<int>)

  /** The filter for the requester, or None for the 403 a supervisor receives. */
  function ListFilter(requester: Requester, q: SessionQuery): (f: Option<SessionFilter>)
    ensures f.None? <==> requester.role == Supervisor
    ensures f.Some? && requester.role == Patient ==>
      f.value.patientId == Some(requester.id) && f.value.therapistId.None?
    ensures f.Some? && requester.role == Therapist ==>
      f.value.therapistId == Some(requester.id) && f.value.patientId.None?
    ensures f.Some? && requester.role == Admin ==>
      f.value.patientId == q.patientId && f.value.therapistId == q.therapistId
    ensures f.Some? ==>
      f.value.status == q.status && f.value.paymentStatus == q.paymentStatus
      && f.value.from == q.startDate && f.value.to == q.endDate
  {
    var base := SessionFilter(None, None, q.status, q.paymentStatus, q.startDate, q.endDate);
    match requester.role
    case Patient => Some(base.(patientId := Some(requester.id)))
    case Therapist => Some(base.(therapistId := Some(requester.id)))
    case Admin => Some(base.(patientId := q.patientId, therapistId := q.therapistId))
    case Supervisor => None
  }

  /** Session.find(filter) selects s. */
  predicate Matches(f: SessionFilter, s: Session) {
    && (f.patientId.Some? ==> s.patientId == f.patientId.value)
    && (f.therapistId.Some? ==> s.therapistId == f.therapistId.value)
    && (f.status.Some? ==> StatusName(s.status) == f.status.value)
    && (f.paymentStatus.Some? ==> PaymentStatusName(s.paymentStatus) == f.paymentStatus.value)
    && (f.from.Some? ==> s.scheduledAt >= f.from.value)
    && (f.to.Some? ==> s.scheduledAt <= f.to.value)
  }

  /** Whatever query a patient or therapist sends, every listed session is one of theirs. */
  lemma ListingIsPrivate(requester: Requester, q: SessionQuery, s: Session)
    requires requester.role in {Patient, Therapist}
    ensures ListFilter(requester, q).Some?
    ensures Matches(ListFilter(requester, q).value, s) ==>
      (requester.role == Patient ==> s.patientId == requester.id)
      && (requester.role == Therapist ==> s.therapistId == requester.id)
  {
  }

  /** An admin's empty query lists every session. */
  lemma AdminSeesEverything(requester: Requester, s: Session)
    requires requester.role == Admin
    ensures Matches(ListFilter(requester, SessionQuery(None, None, None, None, None, None)).value, s)
  {
  }
}
