/** The session document: lifecycle status, payment status, ranges and defaults. */
module SessionModel {
  import opened Common

  /**
   * pending: awaiting the therapist; confirmed: accepted; scheduled;
   * completed; cancelled; rejected: refused by the therapist; no-show.
   */
  datatype SessionStatus = Pending | Confirmed | Scheduled | Completed | Cancelled | Rejected | NoShow

  function StatusName(s: SessionStatus): string {
    match s
    case Pending => "pending"
    case Confirmed => "confirmed"
    case Scheduled => "scheduled"
    case Completed => "completed"
    case Cancelled => "cancelled"
    case Rejected => "rejected"
    case NoShow => "no-show"
  }

  function ParseStatus(s: string): (r: Option<SessionStatus>)
    ensures r.Some? ==> StatusName(r.value) == s
    ensures r.None? ==> forall x: SessionStatus :: StatusName(x) != s
  {
    if s == "pending" then Some(Pending)
    else if s == "confirmed" then Some(Confirmed)
    else if s == "scheduled" then Some(Scheduled)
    else if s == "completed" then Some(Completed)
    else if s == "cancelled" then Some(Cancelled)
    else if s == "rejected" then Some(Rejected)
    else if s == "no-show" then Some(NoShow)
    else None
  }

  datatype PaymentStatus = PaymentPending | Paid | Refunded

  function PaymentStatusName(p: PaymentStatus): string {
    match p
    case PaymentPending => "pending"
    case Paid => "paid"
    case Refunded => "refunded"
  }

  function ParsePaymentStatus(s: string): (r: Option<PaymentStatus>)
    ensures r.Some? ==> PaymentStatusName(r.value) == s
    ensures r.None? ==> forall x: PaymentStatus :: PaymentStatusName(x) != s
  {
    if s == "pending" then Some(PaymentPending)
    else if s == "paid" then Some(Paid)
    else if s == "refunded" then Some(Refunded)
    else None
  }

  /** scheduledAt is in milliseconds since the epoch; duration is in minutes. */
  datatype Session = Session(
    patientId: UserId,
    therapistId: UserId,
    scheduledAt: int,
    duration: int,
    status: SessionStatus,
    sessionType: string,
    meetingLink: Option<string>,
    therapistNotes: Option<string>,
    sessionFee: real,
    paymentStatus: PaymentStatus,
    cancellationReason: Option<string>,
    cancelledBy: Option<UserId>)

  const DefaultDuration: int := 60
  const MinDuration: int := 15
  const MaxNotesLength: nat := 5000
  const MaxReasonLength: nat := 500
  const VideoSession: string := "video"

  /** The validators Mongoose runs on save: duration min 15, fee min 0, the two maxlengths. */
  predicate SchemaValid(s: Session) {
    && s.duration >= MinDuration
    && s.sessionFee >= 0.0
    && (s.therapistNotes.Some? ==> |s.therapistNotes.value| <= MaxNotesLength)
    && (s.cancellationReason.Some? ==> |s.cancellationReason.value| <= MaxReasonLength)
  }

  /** A session with every schema default: duration 60, pending, video, unpaid, no link, notes or reason. */
  function DefaultSession(patientId: UserId, therapistId: UserId, scheduledAt: int, sessionFee: real): (s: Session)
    ensures s.duration == DefaultDuration && s.status == Pending && s.sessionType == VideoSession
    ensures s.paymentStatus == PaymentPending
    ensures s.meetingLink.None? && s.therapistNotes.None? && s.cancellationReason.None? && s.cancelledBy.None?
    ensures SchemaValid(s) <==> sessionFee >= 0.0
  {
    Session(patientId, therapistId, scheduledAt, DefaultDuration, Pending, VideoSession, None, None,
            sessionFee, PaymentPending, None, None)
  }
}
