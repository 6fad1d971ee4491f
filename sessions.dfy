/**
 * The session lifecycle: creation with the free-trial fee rule and the
 * conflict window, and the status transitions accept, reject, cancel,
 * complete, no-show, update, payment update and therapist notes.
 *
 * Each controller is split as the source is: a decision on the document
 * findById returned (a Step: refuse with an ApiError, or save a new
 * document), then the save, where Mongoose's validators may still refuse.
 */
module Sessions {
  import opened Common
  import opened Text
  import opened Envelopes
  import opened SessionModel

  type Store = map<SessionId, Session>


  const MinuteMs: int := 60000

  const NotFound: string := "Session not found"
  const FutureRequired: string := "Scheduled time must be in the future"
  const ConflictMessage: string := "Therapist has a conflicting session at this time"
  const CannotAcceptPrefix: string := "Cannot accept session with status: "
  const CannotRejectPrefix: string := "Cannot reject session with status: "
  const SessionFieldsRequired: string := "Patient ID, Therapist ID, and scheduled time are required"
  const InvalidPatient: string := "Invalid patient ID"
  const InvalidTherapist: string := "Invalid therapist ID"
  const ProfileNotFound: string := "Therapist profile not found"
  const OwnSessionsOnly: string := "Patients can only book sessions for themselves"
  const MeetingLinkRequired: string := "Meeting link is required to accept session"
  const AcceptTherapistOnly: string := "Only the assigned therapist can accept this session"
  const RejectedByTherapist: string := "Therapist rejected the request"
  const RejectTherapistOnly: string := "Only the assigned therapist can reject this session"
  const NoReasonProvided: string := "No reason provided"
  const AlreadyCancelled: string := "Session is already cancelled"
  const CompletedNotCancellable: string := "Cannot cancel a completed session"
  const CancelNotAuthorized: string := "You are not authorized to cancel this session"
  const CompleteTherapistOnly: string := "Only the therapist can mark session as completed"
  const CompleteScheduledOnly: string := "Can only complete scheduled sessions"
  const NoShowTherapistOnly: string := "Only the therapist can mark session as no-show"
  const NoShowScheduledOnly: string := "Can only mark scheduled sessions as no-show"
  const UpdateScheduledOnly: string := "Can only update scheduled sessions"
  const UpdateNotAuthorized: string := "You are not authorized to update this session"
  const MinimumDuration: string := "Session duration must be at least 15 minutes"
  const NotesRequired: string := "Therapist notes are required"
  const NotesTherapistOnly: string := "Only the assigned therapist can add notes"
  const PaymentStatusRequired: string := "Valid payment status is required (pending, paid, refunded)"
  const PaymentNotAuthorized: string := "You are not authorized to update payment status"

  /** Session.findById(id). */
  function Find(store: Store, id: SessionId): (r: Option<Session>)
    ensures r.Some? <==> id in store
    ensures r.Some? ==> r.value == store[id]
  {
    if id in store then Some(store[id]) else None
  }

  /** value || fallback for an optional string: absent and "" are falsy. */
  function OrDefault(value: Option<string>, fallback: string): (r: string)
    ensures value.Some? && value.value != "" ==> r == value.value
    ensures value.None? || value.value == "" ==> r == fallback
  {
    if value.Some? && value.value != "" then value.value else fallback
  }

  // ---------- createSession

  datatype CreateBody = CreateBody(
    patientId: Option<UserId>, therapistId: Option<UserId>, scheduledAt: Option<int>,
    duration: Option<int>, sessionFee: Option<real>)

  /** duration || 60: an absent or zero duration becomes the default. */
  function EffectiveDuration(duration: Option<int>): (d: int)
    ensures duration.Some? && duration.value != 0 ==> d == duration.value
    ensures duration.None? || duration.value == 0 ==> d == DefaultDuration
  {
    if duration.Some? && duration.value != 0 then duration.value else DefaultDuration
  }

  /** The pair already has a confirmed or completed session, so the free trial is used up. */
  predicate HasPriorSession(store: Store, patientId: UserId, therapistId: UserId) {
    exists id | id in store ::
      store[id].patientId == patientId && store[id].therapistId == therapistId
      && store[id].status in {Confirmed, Completed}
  }

  /** at lies within duration minutes of start, both ends included. */
  predicate InWindow(at: int, start: int, duration: int) {
    start - duration * MinuteMs <= at <= start + duration * MinuteMs
  }

  /** Some session of the therapist (other than except) with a blocking status starts inside the window. */
  predicate Conflicts(store: Store, therapistId: UserId, start: int, duration: int,
                      blocking: set<SessionStatus>, except: Option<SessionId>) {
    exists id | id in store ::
      Some(id) != except && store[id].therapistId == therapistId
      && store[id].status in blocking && InWindow(store[id].scheduledAt, start, duration)
  }

  /** 0 for a free trial; otherwise sessionFee || the therapist's sessionRate. */
  function SessionFee(prior: bool, requested: Option<real>, sessionRate: real): (fee: real)
    ensures !prior ==> fee == 0.0
    ensures prior && requested.Some? && requested.value != 0.0 ==> fee == requested.value
    ensures prior && (requested.None? || requested.value == 0.0) ==> fee == sessionRate
  {
    if !prior then 0.0
    else if requested.Some? && requested.value != 0.0 then requested.value
    else sessionRate
  }

  /** The statuses that block a new booking. */
  const CreateBlocking: set<SessionStatus> := {Confirmed, Scheduled, Completed}

  /**
   * createSession's decision. roles is User.findById(..).role for every
   * user; sessionRates is the sessionRate of every therapist profile, by
   * owner; now is the clock.
   */
  function CreateStep(requester: Requester, body: CreateBody, roles: map<UserId, Role>,
                      sessionRates: map<UserId, real>, store: Store, now: int): (r: Step<Session>)
    ensures r.Save? <==>
      && body.patientId.Some? && body.therapistId.Some? && body.scheduledAt.Some?
      && body.patientId.value in roles && roles[body.patientId.value] == Patient
      && body.therapistId.value in roles && roles[body.therapistId.value] == Therapist
      && body.therapistId.value in sessionRates
      && (requester.role == Patient ==> requester.id == body.patientId.value)
      && body.scheduledAt.value > now
      && !Conflicts(store, body.therapistId.value, body.scheduledAt.value,
                    EffectiveDuration(body.duration), CreateBlocking, None)
    ensures r.Save? ==>
      && r.document.patientId == body.patientId.value && r.document.therapistId == body.therapistId.value
      && r.document.scheduledAt == body.scheduledAt.value
      && r.document.duration == EffectiveDuration(body.duration)
      && r.document.status == Pending && r.document.paymentStatus == Paid
      && r.document.sessionType == VideoSession
      && r.document.meetingLink.None? && r.document.therapistNotes.None?
      && r.document.cancellationReason.None? && r.document.cancelledBy.None?
      && r.document.sessionFee == SessionFee(HasPriorSession(store, r.document.patientId, r.document.therapistId),
                                            body.sessionFee, sessionRates[r.document.therapistId])
    ensures r.Refuse? ==> r.error.statusCode in {400, 403, 404, 409}
  {
    if body.patientId.None? || body.therapistId.None? || body.scheduledAt.None? then
      Refuse(NewApiError(400, SessionFieldsRequired))
    else
      var patientId, therapistId, start := body.patientId.value, body.therapistId.value, body.scheduledAt.value;
      if patientId !in roles || roles[patientId] != Patient then Refuse(NewApiError(400, InvalidPatient))
      else if therapistId !in roles || roles[therapistId] != Therapist then Refuse(NewApiError(400, InvalidTherapist))
      else if therapistId !in sessionRates then Refuse(NewApiError(404, ProfileNotFound))
      else if requester.role == Patient && requester.id != patientId then
        Refuse(NewApiError(403, OwnSessionsOnly))
      else if start <= now then Refuse(NewApiError(400, FutureRequired))
      else
        var fee := SessionFee(HasPriorSession(store, patientId, therapistId), body.sessionFee, sessionRates[therapistId]);
        var duration := EffectiveDuration(body.duration);
        if Conflicts(store, therapistId, start, duration, CreateBlocking, None) then
          Refuse(NewApiError(409, ConflictMessage))
        else
          Save(Session(patientId, therapistId, start, duration, Pending, VideoSession, None, None,
                       fee, Paid, None, None))
  }

  // ---------- acceptSession / rejectSession

  function AcceptStep(found: Option<Session>, requester: UserId, meetingLink: Option<string>,
                      therapistNotes: Option<string>): (r: Step<Session>)
    ensures r.Save? <==>
      meetingLink.Some? && Trim(meetingLink.value) != "" && found.Some?
      && found.value.therapistId == requester && found.value.status == Pending
    ensures r.Save? ==> r.document == found.value.(
      status := Confirmed,
      meetingLink := Some(Trim(meetingLink.value)),
      therapistNotes := if Truthy(therapistNotes) then therapistNotes else found.value.therapistNotes)
    ensures (meetingLink.Some? && Trim(meetingLink.value) != "" && found.Some?
             && found.value.therapistId == requester && found.value.status != Pending) ==>
      r == Refuse(NewApiError(400, CannotAcceptPrefix + StatusName(found.value.status)))
  {
    if meetingLink.None? || meetingLink.value == "" || Trim(meetingLink.value) == "" then
      Refuse(NewApiError(400, MeetingLinkRequired))
    else if found.None? then Refuse(NewApiError(404, NotFound))
    else if found.value.therapistId != requester then
      Refuse(NewApiError(403, AcceptTherapistOnly))
    else if found.value.status != Pending then
      Refuse(NewApiError(400, CannotAcceptPrefix + StatusName(found.value.status)))
    else
      Save(found.value.(
        status := Confirmed,
        meetingLink := Some(Trim(meetingLink.value)),
        therapistNotes := if Truthy(therapistNotes) then therapistNotes else found.value.therapistNotes))
  }

  function RejectStep(found: Option<Session>, requester: UserId, reason: Option<string>): (r: Step<Session>)
    ensures r.Save? <==> found.Some? && found.value.therapistId == requester && found.value.status == Pending
    ensures r.Save? ==> r.document == found.value.(
      status := Rejected,
      cancellationReason := Some(OrDefault(reason, RejectedByTherapist)),
      cancelledBy := Some(requester))
  {
    if found.None? then Refuse(NewApiError(404, NotFound))
    else if found.value.therapistId != requester then
      Refuse(NewApiError(403, RejectTherapistOnly))
    else if found.value.status != Pending then
      Refuse(NewApiError(400, CannotRejectPrefix + StatusName(found.value.status)))
    else
      Save(found.value.(
        status := Rejected,
        cancellationReason := Some(OrDefault(reason, RejectedByTherapist)),
        cancelledBy := Some(requester)))
  }

  // ---------- cancelSession

  /** The patient or the therapist of the session. */
  predicate IsParty(s: Session, user: UserId) {
    user == s.patientId || user == s.therapistId
  }

  /** An unpaid booking is refunded on cancellation; paid and refunded stay as they are. */
  function RefundOnCancel(p: PaymentStatus): (q: PaymentStatus)
    ensures q == (if p == PaymentPending then Refunded else p)
  {
    if p == PaymentPending then Refunded else p
  }

  function CancelStep(found: Option<Session>, requester: UserId, reason: Option<string>): (r: Step<Session>)
    ensures r.Save? <==>
      found.Some? && found.value.status !in {Cancelled, Completed} && IsParty(found.value, requester)
    ensures r.Save? ==> r.document == found.value.(
      status := Cancelled,
      cancellationReason := Some(OrDefault(reason, NoReasonProvided)),
      cancelledBy := Some(requester),
      paymentStatus := RefundOnCancel(found.value.paymentStatus))
  {
    if found.None? then Refuse(NewApiError(404, NotFound))
    else if found.value.status == Cancelled then Refuse(NewApiError(400, AlreadyCancelled))
    else if found.value.status == Completed then Refuse(NewApiError(400, CompletedNotCancellable))
    else if !IsParty(found.value, requester) then
      Refuse(NewApiError(403, CancelNotAuthorized))
    else
      Save(found.value.(
        status := Cancelled,
        cancellationReason := Some(OrDefault(reason, NoReasonProvided)),
        cancelledBy := Some(requester),
        paymentStatus := RefundOnCancel(found.value.paymentStatus)))
  }

  // ---------- completeSession / markNoShow

  function CompleteStep(found: Option<Session>, requester: UserId): (r: Step<Session>)
    ensures r.Save? <==> found.Some? && found.value.therapistId == requester && found.value.status == Scheduled
    ensures r.Save? ==> r.document == found.value.(status := Completed)
  {
    if found.None? then Refuse(NewApiError(404, NotFound))
    else if found.value.therapistId != requester then
      Refuse(NewApiError(403, CompleteTherapistOnly))
    else if found.value.status != Scheduled then Refuse(NewApiError(400, CompleteScheduledOnly))
    else Save(found.value.(status := Completed))
  }

  function NoShowStep(found: Option<Session>, requester: UserId): (r: Step<Session>)
    ensures r.Save? <==> found.Some? && found.value.therapistId == requester && found.value.status == Scheduled
    ensures r.Save? ==> r.document == found.value.(status := NoShow)
  {
    if found.None? then Refuse(NewApiError(404, NotFound))
    else if found.value.therapistId != requester then
      Refuse(NewApiError(403, NoShowTherapistOnly))
    else if found.value.status != Scheduled then
      Refuse(NewApiError(400, NoShowScheduledOnly))
    else Save(found.value.(status := NoShow))
  }

  // ---------- updateSession

  /** meetingLink is Some(None) when the body sends null, None when it leaves the field out. */
  datatype UpdateBody = UpdateBody(scheduledAt: Option<int>, duration: Option<int>, meetingLink: Option<Option<string>>)

  /** The statuses that block a rescheduling: only scheduled and completed. */
  const UpdateBlocking: set<SessionStatus> := {Scheduled, Completed}

  function UpdateStep(found: Option<Session>, id: SessionId, requester: UserId, body: UpdateBody,
                      store: Store, now: int): (r: Step<Session>)
    ensures r.Save? <==>
      && found.Some? && found.value.status == Scheduled && IsParty(found.value, requester)
      && (body.scheduledAt.Some? ==>
            body.scheduledAt.value > now
            && !Conflicts(store, found.value.therapistId, body.scheduledAt.value,
                          if body.duration.Some? && body.duration.value != 0 then body.duration.value else found.value.duration,
                          UpdateBlocking, Some(id)))
      && (body.duration.Some? ==> body.duration.value >= MinDuration)
    ensures r.Save? ==> r.document == found.value.(
      scheduledAt := if body.scheduledAt.Some? then body.scheduledAt.value else found.value.scheduledAt,
      duration := if body.duration.Some? then body.duration.value else found.value.duration,
      meetingLink := if body.meetingLink.Some? then body.meetingLink.value else found.value.meetingLink)
  {
    if found.None? then Refuse(NewApiError(404, NotFound))
    else
      var s := found.value;
      if s.status != Scheduled then Refuse(NewApiError(400, UpdateScheduledOnly))
      else if !IsParty(s, requester) then Refuse(NewApiError(403, UpdateNotAuthorized))
      else if body.scheduledAt.Some? && body.scheduledAt.value <= now then Refuse(NewApiError(400, FutureRequired))
      else if body.scheduledAt.Some?
              && Conflicts(store, s.therapistId, body.scheduledAt.value,
                           if body.duration.Some? && body.duration.value != 0 then body.duration.value else s.duration,
                           UpdateBlocking, Some(id)) then
        Refuse(NewApiError(409, ConflictMessage))
      else if body.duration.Some? && body.duration.value < MinDuration then
        Refuse(NewApiError(400, MinimumDuration))
      else
        Save(s.(
          scheduledAt := if body.scheduledAt.Some? then body.scheduledAt.value else s.scheduledAt,
          duration := if body.duration.Some? then body.duration.value else s.duration,
          meetingLink := if body.meetingLink.Some? then body.meetingLink.value else s.meetingLink))
  }

  // ---------- addTherapistNotes / updatePaymentStatus

  function NotesStep(found: Option<Session>, requester: UserId, therapistNotes: Option<string>): (r: Step<Session>)
    ensures r.Save? <==> Truthy(therapistNotes) && found.Some? && found.value.therapistId == requester
    ensures r.Save? ==> r.document == found.value.(therapistNotes := therapistNotes)
    ensures !Truthy(therapistNotes) ==> r == Refuse(NewApiError(400, NotesRequired))
  {
    if !Truthy(therapistNotes) then Refuse(NewApiError(400, NotesRequired))
    else if found.None? then Refuse(NewApiError(404, NotFound))
    else if found.value.therapistId != requester then Refuse(NewApiError(403, NotesTherapistOnly))
    else Save(found.value.(therapistNotes := therapistNotes))
  }

  function PaymentStep(found: Option<Session>, requester: Requester, paymentStatus: Option<string>): (r: Step<Session>)
    ensures r.Save? <==>
      paymentStatus.Some? && ParsePaymentStatus(paymentStatus.value).Some? && found.Some?
      && (requester.role == Admin || requester.id == found.value.patientId)
    ensures r.Save? ==> r.document == found.value.(paymentStatus := ParsePaymentStatus(paymentStatus.value).value)
  {
    if paymentStatus.None? || ParsePaymentStatus(paymentStatus.value).None? then
      Refuse(NewApiError(400, PaymentStatusRequired))
    else if found.None? then Refuse(NewApiError(404, NotFound))
    else if requester.role != Admin && requester.id != found.value.patientId then
      Refuse(NewApiError(403, PaymentNotAuthorized))
    else Save(found.value.(paymentStatus := ParsePaymentStatus(paymentStatus.value).value))
  }

  // ---------- saving

  datatype Outcome = Outcome(reply: Reply<Session>, store: Store)

  /** session.save(): a document the validators refuse becomes a 500 and nothing is stored. */
  function Commit(store: Store, id: SessionId, step: Step<Session>, message: string): (o: Outcome)
    ensures step.Refuse? ==> o == Outcome(Err(step.error), store)
    ensures step.Save? && !SchemaValid(step.document) ==> o == Outcome(Fail(500, ValidationFailedMessage), store)
    ensures step.Save? && SchemaValid(step.document) ==>
      o == Outcome(Succeed(200, step.document, message), store[id := step.document])
    ensures forall k | k in o.store :: SchemaValid(o.store[k]) || (k in store && o.store[k] == store[k])
  {
    match step
    case Refuse(e) => Outcome(Err(e), store)
    case Save(s) =>
      if !SchemaValid(s) then Outcome(Fail(500, ValidationFailedMessage), store)
      else Outcome(Succeed(200, s, message), store[id := s])
  }

  /** The Session collection. */
  class SessionStore {
    var sessions: Store
    var nextId: SessionId

    /** Every stored document passed the validators and has an id below nextId. */
    predicate Valid()
      reads this
    {
      forall id | id in sessions :: id < nextId && SchemaValid(sessions[id])
    }

    constructor()
      ensures sessions == map[] && nextId == 0 && Valid()
    {
      sessions := map[];
      nextId := 0;
    }

    /** Saves the step's document under an existing id. */
    method Apply(id: SessionId, step: Step<Session>, message: string) returns (r: Reply<Session>)
      requires Valid() && (step.Save? ==> id in sessions)
      modifies this
      ensures Valid() && nextId == old(nextId)
      ensures Outcome(r, sessions) == Commit(old(sessions), id, step, message)
    {
      var o := Commit(sessions, id, step, message);
      r, sessions := o.reply, o.store;
    }

    method Create(requester: Requester, body: CreateBody, roles: map<UserId, Role>,
                  sessionRates: map<UserId, real>, now: int) returns (r: Reply<Session>)
      requires Valid()
      modifies this
      ensures Valid()
      ensures var step := CreateStep(requester, body, roles, sessionRates, old(sessions), now);
        && (step.Refuse? ==> r == Err(step.error) && sessions == old(sessions) && nextId == old(nextId))
        && (step.Save? && !SchemaValid(step.document) ==>
              r == Fail(500, ValidationFailedMessage) && sessions == old(sessions) && nextId == old(nextId))
        && (step.Save? && SchemaValid(step.document) ==>
              old(nextId) !in old(sessions)
              && r == Succeed(201, step.document, "Session created successfully")
              && sessions == old(sessions)[old(nextId) := step.document] && nextId == old(nextId) + 1)
    {
      var step := CreateStep(requester, body, roles, sessionRates, sessions, now);
      if step.Refuse? {
        return Err(step.error);
      }
      if !SchemaValid(step.document) {
        return Fail(500, ValidationFailedMessage);
      }
      sessions := sessions[nextId := step.document];
      nextId := nextId + 1;
      r := Succeed(201, step.document, "Session created successfully");
    }

    method Accept(requester: Requester, id: SessionId, meetingLink: Option<string>, therapistNotes: Option<string>)
      returns (r: Reply<Session>)
      requires Valid()
      modifies this
      ensures Valid() && nextId == old(nextId)
      ensures Outcome(r, sessions) == Commit(old(sessions), id,
        AcceptStep(Find(old(sessions), id), requester.id, meetingLink, therapistNotes), "Session accepted successfully")
    {
      r := Apply(id, AcceptStep(Find(sessions, id), requester.id, meetingLink, therapistNotes),
                 "Session accepted successfully");
    }

    method Reject(requester: Requester, id: SessionId, reason: Option<string>) returns (r: Reply<Session>)
      requires Valid()
      modifies this
      ensures Valid() && nextId == old(nextId)
      ensures Outcome(r, sessions) == Commit(old(sessions), id,
        RejectStep(Find(old(sessions), id), requester.id, reason), "Session rejected successfully")
    {
      r := Apply(id, RejectStep(Find(sessions, id), requester.id, reason), "Session rejected successfully");
    }

    method Cancel(requester: Requester, id: SessionId, reason: Option<string>) returns (r: Reply<Session>)
      requires Valid()
      modifies this
      ensures Valid() && nextId == old(nextId)
      ensures Outcome(r, sessions) == Commit(old(sessions), id,
        CancelStep(Find(old(sessions), id), requester.id, reason), "Session cancelled successfully")
    {
      r := Apply(id, CancelStep(Find(sessions, id), requester.id, reason), "Session cancelled successfully");
    }

    method Complete(requester: Requester, id: SessionId) returns (r: Reply<Session>)
      requires Valid()
      modifies this
      ensures Valid() && nextId == old(nextId)
      ensures Outcome(r, sessions) == Commit(old(sessions), id,
        CompleteStep(Find(old(sessions), id), requester.id), "Session marked as completed")
    {
      r := Apply(id, CompleteStep(Find(sessions, id), requester.id), "Session marked as completed");
    }

    method MarkNoShow(requester: Requester, id: SessionId) returns (r: Reply<Session>)
      requires Valid()
      modifies this
      ensures Valid() && nextId == old(nextId)
      ensures Outcome(r, sessions) == Commit(old(sessions), id,
        NoShowStep(Find(old(sessions), id), requester.id), "Session marked as no-show")
    {
      r := Apply(id, NoShowStep(Find(sessions, id), requester.id), "Session marked as no-show");
    }

    method Update(requester: Requester, id: SessionId, body: UpdateBody, now: int) returns (r: Reply<Session>)
      requires Valid()
      modifies this
      ensures Valid() && nextId == old(nextId)
      ensures Outcome(r, sessions) == Commit(old(sessions), id,
        UpdateStep(Find(old(sessions), id), id, requester.id, body, old(sessions), now), "Session updated successfully")
    {
      r := Apply(id, UpdateStep(Find(sessions, id), id, requester.id, body, sessions, now),
                 "Session updated successfully");
    }

    method AddTherapistNotes(requester: Requester, id: SessionId, therapistNotes: Option<string>)
      returns (r: Reply<Session>)
      requires Valid()
      modifies this
      ensures Valid() && nextId == old(nextId)
      ensures Outcome(r, sessions) == Commit(old(sessions), id,
        NotesStep(Find(old(sessions), id), requester.id, therapistNotes), "Therapist notes added successfully")
    {
      r := Apply(id, NotesStep(Find(sessions, id), requester.id, therapistNotes),
                 "Therapist notes added successfully");
    }

    method UpdatePaymentStatus(requester: Requester, id: SessionId, paymentStatus: Option<string>)
      returns (r: Reply<Session>)
      requires Valid()
      modifies this
      ensures Valid() && nextId == old(nextId)
      ensures Outcome(r, sessions) == Commit(old(sessions), id,
        PaymentStep(Find(old(sessions), id), requester, paymentStatus), "Payment status updated successfully")
    {
      r := Apply(id, PaymentStep(Find(sessions, id), requester, paymentStatus),
                 "Payment status updated successfully");
    }
  }
}
