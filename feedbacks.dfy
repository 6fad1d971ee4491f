/**
 * The feedback controllers: the create-time decision table by feedback
 * type, update with its range check and category merge, delete, respond
 * and flag, the authorisation and anonymisation rules, and the refresh of
 * a therapist's average rating from visible patient feedback.
 */
module Feedbacks {
  import opened Common
  import opened Envelopes
  import opened Text
  import opened Scoring
  import opened ScoringProperties
  import TherapistModel
  import SessionModel
  import opened FeedbackModel
  import Sessions
  import Therapists

  /** The create body; truthiness decides absence, so "" and 0 count as absent where the source tests !x. */
  datatype CreateFeedbackBody = CreateFeedbackBody(
    feedbackType: Option<string>,
    toUserId: Option<UserId>,
    sessionId: Option<SessionId>,
    overallRating: Option<real>,
    categoryRatings: Option<CategoryRatings>,
    comment: Option<string>,
    strengths: Option<seq<string>>,
    areasForImprovement: Option<seq<string>>,
    recommendations: Option<string>,
    isAnonymous: Option<bool>,
    reviewPeriod: Option<string>)

  /** x || null on a string: the empty string is falsy. */
  function OrNull(s: Option<string>): (r: Option<string>)
    ensures r.Some? <==> s.Some? && s.value != ""
    ensures r.Some? ==> r.value == s.value
  {
    if s.Some? && s.value != "" then s else None
  }

  /** The comment as stored: the schema's trim setter runs on every string assigned. */
  function StoredComment(c: Option<string>): Option<string> {
    if c.Some? then Some(Trim(c.value)) else None
  }

  /** A completed session whose patient and therapist are the two given users. */
  predicate CompletedSessionBetween(sessions: Sessions.Store, id: SessionId, patient: UserId, therapist: UserId) {
    id in sessions && sessions[id].patientId == patient && sessions[id].therapistId == therapist
    && sessions[id].status == SessionModel.Completed
  }

  /** The sender already left patient-to-therapist feedback on this session. */
  predicate AlreadyReviewed(feedbacks: seq<Feedback>, sessionId: SessionId, fromUser: UserId) {
    exists i | 0 <= i < |feedbacks| ::
      feedbacks[i].sessionId == Some(sessionId) && feedbacks[i].fromUser == fromUser
      && feedbacks[i].feedbackType == PatientToTherapist
  }

  predicate HasRole(users: map<UserId, Role>, u: UserId, role: Role) {
    u in users && users[u] == role
  }

  const OnlyPatientsMessage: string := "Only patients can provide therapist feedback"
  const TherapistRecipientMessage: string := "Recipient must be a therapist"
  const PatientSessionRequiredMessage: string := "Session ID is required for patient-to-therapist feedback"
  const CompletedSessionNotFoundMessage: string := "Completed session not found or you are not part of this session"
  const AlreadyReviewedMessage: string := "Feedback already exists for this session"
  const OnlyTherapistsMessage: string := "Only therapists can provide patient feedback"
  const PatientRecipientMessage: string := "Recipient must be a patient"
  const TherapistSessionRequiredMessage: string := "Session ID is required for therapist-to-patient feedback"
  const OnlySupervisorsMessage: string := "Only supervisors can provide therapist performance feedback"
  const SessionNotTherapistsMessage: string := "Session not found or does not belong to the therapist"
  const FeedbackNotFoundMessage: string := "Feedback not found"
  const OwnFeedbackOnlyMessage: string := "You can only update your own feedback"
  const RatingRangeMessage: string := "Overall rating must be between 1 and 5"
  const ResponseRequiredMessage: string := "Response text is required"
  const RecipientOnlyMessage: string := "Only the feedback recipient can respond"
  const AdminsOnlyMessage: string := "Only admins can flag feedback"
  const NotAuthorizedViewMessage: string := "You are not authorized to view this feedback"
  const NotAuthorizedDeleteMessage: string := "You are not authorized to delete this feedback"

  /** The patient-to-therapist rules: a completed session of the pair, reviewed at most once. */
  function PatientRuleError(requester: Requester, to: UserId, sessionId: Option<SessionId>,
                            users: map<UserId, Role>, sessions: Sessions.Store, feedbacks: seq<Feedback>): (e: Option<ApiError>)
    ensures e.None? <==>
      requester.role == Patient && HasRole(users, to, Therapist) && sessionId.Some?
      && CompletedSessionBetween(sessions, sessionId.value, requester.id, to)
      && !AlreadyReviewed(feedbacks, sessionId.value, requester.id)
  {
    if requester.role != Patient then Some(NewApiError(403, OnlyPatientsMessage))
    else if !HasRole(users, to, Therapist) then Some(NewApiError(400, TherapistRecipientMessage))
    else if sessionId.None? then Some(NewApiError(400, PatientSessionRequiredMessage))
    else if !CompletedSessionBetween(sessions, sessionId.value, requester.id, to) then
      Some(NewApiError(404, CompletedSessionNotFoundMessage))
    else if AlreadyReviewed(feedbacks, sessionId.value, requester.id) then
      Some(NewApiError(409, AlreadyReviewedMessage))
    else None
  }

  /** The therapist-to-patient rules: a completed session of the pair; repeats are allowed. */
  function TherapistRuleError(requester: Requester, to: UserId, sessionId: Option<SessionId>,
                              users: map<UserId, Role>, sessions: Sessions.Store): (e: Option<ApiError>)
    ensures e.None? <==>
      requester.role == Therapist && HasRole(users, to, Patient) && sessionId.Some?
      && CompletedSessionBetween(sessions, sessionId.value, to, requester.id)
  {
    if requester.role != Therapist then Some(NewApiError(403, OnlyTherapistsMessage))
    else if !HasRole(users, to, Patient) then Some(NewApiError(400, PatientRecipientMessage))
    else if sessionId.None? then Some(NewApiError(400, TherapistSessionRequiredMessage))
    else if !CompletedSessionBetween(sessions, sessionId.value, to, requester.id) then
      Some(NewApiError(404, CompletedSessionNotFoundMessage))
    else None
  }

  /** The supervisor-to-therapist rules: a session is optional but must be the therapist's. */
  function SupervisorRuleError(requester: Requester, to: UserId, sessionId: Option<SessionId>,
                               users: map<UserId, Role>, sessions: Sessions.Store): (e: Option<ApiError>)
    ensures e.None? <==>
      requester.role == Supervisor && HasRole(users, to, Therapist)
      && (sessionId.Some? ==> sessionId.value in sessions && sessions[sessionId.value].therapistId == to)
  {
    if requester.role != Supervisor then Some(NewApiError(403, OnlySupervisorsMessage))
    else if !HasRole(users, to, Therapist) then Some(NewApiError(400, TherapistRecipientMessage))
    else if sessionId.Some? && (sessionId.value !in sessions || sessions[sessionId.value].therapistId != to) then
      Some(NewApiError(404, SessionNotTherapistsMessage))
    else None
  }

  /** The decision table's verdict for a known type: None when the type's own rules all pass. */
  function TypeRuleError(t: FeedbackType, requester: Requester, to: UserId, sessionId: Option<SessionId>,
                         users: map<UserId, Role>, sessions: Sessions.Store, feedbacks: seq<Feedback>): Option<ApiError>
  {
    match t
    case PatientToTherapist => PatientRuleError(requester, to, sessionId, users, sessions, feedbacks)
    case TherapistToPatient => TherapistRuleError(requester, to, sessionId, users, sessions)
    case SupervisorToTherapist => SupervisorRuleError(requester, to, sessionId, users, sessions)
  }

  /** Feedback.create's document, with the defaults the controller and the schema supply. */
  function NewFeedback(id: FeedbackId, t: FeedbackType, requester: Requester, body: CreateFeedbackBody): Feedback
    requires body.toUserId.Some? && body.overallRating.Some?
  {
    Feedback(id, t, requester.id, body.toUserId.value, body.sessionId, body.overallRating.value,
      body.categoryRatings.GetOr(map[]), StoredComment(OrNull(body.comment)),
      body.strengths.GetOr([]), body.areasForImprovement.GetOr([]), OrNull(body.recommendations),
      body.isAnonymous == Some(true), true, false, None, OrNull(body.reviewPeriod))
  }

  const FieldsRequiredMessage: string := "Feedback type, recipient, and overall rating are required"
  const RecipientNotFoundMessage: string := "Recipient user not found"
  const InvalidTypeMessage: string := "Invalid feedback type"

  /** createFeedback's decision. */
  function CreateStep(requester: Requester, body: CreateFeedbackBody, users: map<UserId, Role>,
                      sessions: Sessions.Store, feedbacks: seq<Feedback>, id: FeedbackId): (r: Step<Feedback>)
    ensures (body.feedbackType.None? || body.feedbackType.value == "" || body.toUserId.None?
             || body.overallRating.None? || body.overallRating.value == 0.0) ==>
      r == Refuse(NewApiError(400, FieldsRequiredMessage))
    ensures r.Save? <==>
      && body.feedbackType.Some? && body.toUserId.Some? && body.overallRating.Some? && body.overallRating.value != 0.0
      && body.toUserId.value in users && ParseFeedbackType(body.feedbackType.value).Some?
      && TypeRuleError(ParseFeedbackType(body.feedbackType.value).value, requester, body.toUserId.value,
                       body.sessionId, users, sessions, feedbacks).None?
    ensures r.Save? ==> r.document == NewFeedback(id, ParseFeedbackType(body.feedbackType.value).value, requester, body)
  {
    if body.feedbackType.None? || body.feedbackType.value == "" || body.toUserId.None?
       || body.overallRating.None? || body.overallRating.value == 0.0 then
      Refuse(NewApiError(400, FieldsRequiredMessage))
    else if body.toUserId.value !in users then Refuse(NewApiError(404, RecipientNotFoundMessage))
    else
      match ParseFeedbackType(body.feedbackType.value)
      case None => Refuse(NewApiError(400, InvalidTypeMessage))
      case Some(t) =>
        var e := TypeRuleError(t, requester, body.toUserId.value, body.sessionId, users, sessions, feedbacks);
        if e.Some? then Refuse(e.value) else Save(NewFeedback(id, t, requester, body))
  }

  /** The update body: None when a field is left out, Some(None) when it is sent as null. */
  datatype UpdateFeedbackBody = UpdateFeedbackBody(
    overallRating: Option<real>,
    categoryRatings: Option<CategoryRatings>,
    comment: Option<Option<string>>,
    strengths: Option<seq<string>>,
    areasForImprovement: Option<seq<string>>,
    recommendations: Option<Option<string>>,
    isVisible: Option<bool>)

  /** { ...old, ...new }: every category the update names takes its new value, the rest keep theirs. */
  function MergeRatings(old_: CategoryRatings, new_: CategoryRatings): (r: CategoryRatings)
    ensures forall c :: RatingOf(r, c) == if c in new_ then new_[c] else RatingOf(old_, c)
  {
    old_ + new_
  }

  /** updateFeedback's decision: only the sender may edit, and only the fields sent change. */
  function UpdateStep(found: Option<Feedback>, requester: Requester, body: UpdateFeedbackBody): (r: Step<Feedback>)
    ensures r.Save? <==>
      found.Some? && requester.id == found.value.fromUser
      && (body.overallRating.Some? ==> InRatingRange(body.overallRating.value))
    ensures r.Save? ==>
      var f := found.value;
      r.document == f.(
        overallRating := body.overallRating.GetOr(f.overallRating),
        categoryRatings := if body.categoryRatings.Some? then MergeRatings(f.categoryRatings, body.categoryRatings.value)
                           else f.categoryRatings,
        comment := if body.comment.Some? then StoredComment(body.comment.value) else f.comment,
        strengths := body.strengths.GetOr(f.strengths),
        areasForImprovement := body.areasForImprovement.GetOr(f.areasForImprovement),
        recommendations := body.recommendations.GetOr(f.recommendations),
        isVisible := body.isVisible.GetOr(f.isVisible))
    ensures r.Save? ==>
      && r.document.id == found.value.id && r.document.feedbackType == found.value.feedbackType
      && r.document.fromUser == found.value.fromUser && r.document.toUser == found.value.toUser
      && r.document.sessionId == found.value.sessionId
  {
    if found.None? then Refuse(NewApiError(404, FeedbackNotFoundMessage))
    else if requester.id != found.value.fromUser then Refuse(NewApiError(403, OwnFeedbackOnlyMessage))
    else if body.overallRating.Some? && !InRatingRange(body.overallRating.value) then
      Refuse(NewApiError(400, RatingRangeMessage))
    else
      var f := found.value;
      Save(f.(
        overallRating := body.overallRating.GetOr(f.overallRating),
        categoryRatings := if body.categoryRatings.Some? then MergeRatings(f.categoryRatings, body.categoryRatings.value)
                           else f.categoryRatings,
        comment := if body.comment.Some? then StoredComment(body.comment.value) else f.comment,
        strengths := body.strengths.GetOr(f.strengths),
        areasForImprovement := body.areasForImprovement.GetOr(f.areasForImprovement),
        recommendations := body.recommendations.GetOr(f.recommendations),
        isVisible := body.isVisible.GetOr(f.isVisible)))
  }

  /** The authorisation rules. */
  predicate CanView(requester: Requester, f: Feedback) {
    requester.id == f.fromUser || requester.id == f.toUser || requester.role == Admin
  }

  predicate CanDelete(requester: Requester, f: Feedback) {
    requester.id == f.fromUser || requester.role == Admin
  }

  /** addResponseToFeedback's decision. */
  function RespondStep(found: Option<Feedback>, requester: Requester, text: Option<string>, now: int): (r: Step<Feedback>)
    ensures r.Save? <==> text.Some? && text.value != "" && found.Some? && requester.id == found.value.toUser
    ensures r.Save? ==> r.document == found.value.(response := Some((text.value, now)))
  {
    if text.None? || text.value == "" then Refuse(NewApiError(400, ResponseRequiredMessage))
    else if found.None? then Refuse(NewApiError(404, FeedbackNotFoundMessage))
    else if requester.id != found.value.toUser then Refuse(NewApiError(403, RecipientOnlyMessage))
    else Save(found.value.(response := Some((text.value, now))))
  }

  /** flagFeedback's decision: admins only, and the flag defaults to true. */
  function FlagStep(found: Option<Feedback>, requester: Requester, isFlagged: Option<bool>): (r: Step<Feedback>)
    ensures r.Save? <==> requester.role == Admin && found.Some?
    ensures r.Save? ==> r.document == found.value.(isFlagged := isFlagged.GetOr(true))
  {
    if requester.role != Admin then Refuse(NewApiError(403, AdminsOnlyMessage))
    else if found.None? then Refuse(NewApiError(404, FeedbackNotFoundMessage))
    else Save(found.value.(isFlagged := isFlagged.GetOr(true)))
  }

  /** How the sender appears to a viewer. */
  datatype SenderView = Named(userId: UserId) | Anonymous(fullName: string, email: string, role: Role)

  const AnonymousName: string := "Anonymous"
  const AnonymousEmail: string := "anonymous@example.com"

  /** Anonymous feedback hides its sender from everyone but the sender and admins, keeping the sender's role. */
  function SenderAsSeen(viewer: Requester, f: Feedback, senderRole: Role): (v: SenderView)
    ensures v.Anonymous? <==> f.isAnonymous && viewer.id != f.fromUser && viewer.role != Admin
    ensures v.Named? ==> v.userId == f.fromUser
    ensures v.Anonymous? ==> v == Anonymous(AnonymousName, AnonymousEmail, senderRole)
  {
    if f.isAnonymous && viewer.id != f.fromUser && viewer.role != Admin then
      Anonymous(AnonymousName, AnonymousEmail, senderRole)
    else Named(f.fromUser)
  }

  /** getFeedbackById's decision and the sender shown. */
  function ViewFeedback(found: Option<Feedback>, viewer: Requester, senderRole: Role): (r: Reply<(Feedback, SenderView)>)
    ensures r.Ok? <==> found.Some? && CanView(viewer, found.value)
    ensures r.Ok? ==> r.response.data == (found.value, SenderAsSeen(viewer, found.value, senderRole))
  {
    if found.None? then Fail(404, FeedbackNotFoundMessage)
    else if !CanView(viewer, found.value) then Fail(403, NotAuthorizedViewMessage)
    else Succeed(200, (found.value, SenderAsSeen(viewer, found.value, senderRole)), "Feedback retrieved successfully")
  }

  /** The role-based scope of getAllFeedbacks. */
  predicate InListScope(requester: Requester, f: Feedback) {
    match requester.role
    case Patient => f.fromUser == requester.id || f.toUser == requester.id
    case Therapist => f.fromUser == requester.id || f.toUser == requester.id
    case Supervisor => f.fromUser == requester.id || f.feedbackType in {PatientToTherapist, TherapistToPatient}
    case Admin => true
  }

  // ---------- the therapist's average rating

  /** The feedback updateTherapistAverageRating averages: visible patient feedback to the therapist. */
  predicate Rated(f: Feedback, therapist: UserId) {
    f.toUser == therapist && f.feedbackType == PatientToTherapist && f.isVisible
  }

  /**
   * The overall ratings of the visible patient feedback a therapist received,
   * one per such feedback and in collection order.
   */
  function TherapistRatings(feedbacks: seq<Feedback>, therapist: UserId): (r: seq<real>)
    ensures |r| <= |feedbacks|
  {
    var rated := Filter(feedbacks, RatedBy(therapist));
    seq(|rated|, k requires 0 <= k < |rated| => rated[k].overallRating)
  }

  /** The test updateTherapistAverageRating's query applies, as a function value. */
  function RatedBy(therapist: UserId): Feedback -> bool {
    f => Rated(f, therapist)
  }

  /**
   * Every qualifying feedback contributes its rating once, in collection
   * order: the k-th rating is that of the k-th qualifying position.
   */
  lemma TherapistRatingsComplete(feedbacks: seq<Feedback>, therapist: UserId)
    ensures var r := TherapistRatings(feedbacks, therapist);
      var idx := Positions(feedbacks, RatedBy(therapist));
      |r| == |idx| && forall k | 0 <= k < |r| :: r[k] == feedbacks[idx[k]].overallRating
  {
    var rated := Filter(feedbacks, RatedBy(therapist));
    assert forall k | 0 <= k < |rated| :: TherapistRatings(feedbacks, therapist)[k] == rated[k].overallRating;
  }

  /** Every averaged rating comes from a visible patient feedback to the therapist. */
  lemma TherapistRatingsSound(feedbacks: seq<Feedback>, therapist: UserId)
    ensures forall x | x in TherapistRatings(feedbacks, therapist) :: exists i | 0 <= i < |feedbacks| ::
      feedbacks[i].overallRating == x && Rated(feedbacks[i], therapist)
  {
    var r := TherapistRatings(feedbacks, therapist);
    var idx := Positions(feedbacks, RatedBy(therapist));
    TherapistRatingsComplete(feedbacks, therapist);
    forall x | x in r ensures exists i | 0 <= i < |feedbacks| ::
      feedbacks[i].overallRating == x && Rated(feedbacks[i], therapist) {
      var k :| 0 <= k < |r| && r[k] == x;
      assert feedbacks[idx[k]].overallRating == x;
    }
  }

  /** parseFloat((sum / n).toFixed(2)), or 0 for no ratings. */
  function MeanOrZero(xs: seq<real>): (m: real)
    ensures xs == [] ==> m == 0.0
    ensures (xs != [] && forall x | x in xs :: InRatingRange(x)) ==> MinRating <= m <= MaxRating
    ensures xs != [] ==> m - 0.005 <= Sum(xs) / |xs| as real < m + 0.005
    ensures (100.0 * m).Floor as real == 100.0 * m
  {
    if xs == [] then 0.0
    else
      RoundedMeanInRange(xs);
      Round2(Sum(xs) / |xs| as real)
  }

  /** The average updateTherapistAverageRating computes for a therapist. */
  function TherapistAverage(feedbacks: seq<Feedback>, therapist: UserId): real {
    MeanOrZero(TherapistRatings(feedbacks, therapist))
  }

  /**
   * The stored average is 0 when no visible patient feedback rates the
   * therapist, and otherwise within 0.005 of the mean of those ratings.
   */
  lemma TherapistAverageIsMean(feedbacks: seq<Feedback>, therapist: UserId)
    ensures var rs := TherapistRatings(feedbacks, therapist);
      var a := TherapistAverage(feedbacks, therapist);
      (rs == [] ==> a == 0.0)
      && (rs != [] ==> a - 0.005 <= Sum(rs) / |rs| as real < a + 0.005)
  {
  }

  // ---------- the collection

  /** The position of the feedback with this id, or -1. */
  function IndexOfId(feedbacks: seq<Feedback>, id: FeedbackId): (i: int)
    ensures i == -1 <==> forall k | 0 <= k < |feedbacks| :: feedbacks[k].id != id
    ensures i != -1 ==> 0 <= i < |feedbacks| && feedbacks[i].id == id
  {
    if feedbacks == [] then -1
    else if feedbacks[0].id == id then 0
    else
      var k := IndexOfId(feedbacks[1..], id);
      if k == -1 then -1 else k + 1
  }

  function FindFeedback(feedbacks: seq<Feedback>, id: FeedbackId): (r: Option<Feedback>)
    ensures r.Some? <==> exists k | 0 <= k < |feedbacks| :: feedbacks[k].id == id
    ensures r.Some? ==> r.value.id == id && r.value in feedbacks
  {
    var i := IndexOfId(feedbacks, id);
    if i == -1 then None else Some(feedbacks[i])
  }

  /** save(): a document whose id is stored replaces it in place; a new one is appended. */
  function Stored(feedbacks: seq<Feedback>, f: Feedback): (r: seq<Feedback>)
    ensures IndexOfId(feedbacks, f.id) == -1 ==> r == feedbacks + [f]
    ensures IndexOfId(feedbacks, f.id) != -1 ==> r == feedbacks[IndexOfId(feedbacks, f.id) := f]
  {
    var i := IndexOfId(feedbacks, f.id);
    if i == -1 then feedbacks + [f] else feedbacks[i := f]
  }

  /** findByIdAndDelete: the document with this id leaves the collection; the others keep their order. */
  function Deleted(feedbacks: seq<Feedback>, id: FeedbackId): (r: seq<Feedback>)
    requires IndexOfId(feedbacks, id) != -1
    ensures |r| == |feedbacks| - 1
    ensures var i := IndexOfId(feedbacks, id); r == feedbacks[..i] + feedbacks[i + 1..]
  {
    var i := IndexOfId(feedbacks, id);
    feedbacks[..i] + feedbacks[i + 1..]
  }

  datatype Outcome = Outcome(reply: Reply<Feedback>, feedbacks: seq<Feedback>)

  /** save() with the schema validators and then the pre-save session hook; either failure is a 500. */
  function Commit(feedbacks: seq<Feedback>, step: Step<Feedback>, status: int, message: string): (o: Outcome)
    ensures step.Refuse? ==> o == Outcome(Err(step.error), feedbacks)
    ensures step.Save? && !SchemaValid(step.document) ==> o == Outcome(Fail(500, ValidationFailedMessage), feedbacks)
    ensures step.Save? && SchemaValid(step.document) && !SessionRequirementMet(step.document) ==>
      o == Outcome(Fail(500, SessionRequiredMessage), feedbacks)
    ensures step.Save? && SchemaValid(step.document) && SessionRequirementMet(step.document) ==>
      o == Outcome(Succeed(status, step.document, message), Stored(feedbacks, step.document))
  {
    match step
    case Refuse(e) => Outcome(Err(e), feedbacks)
    case Save(f) =>
      if !SchemaValid(f) then Outcome(Fail(500, ValidationFailedMessage), feedbacks)
      else if !SessionRequirementMet(f) then Outcome(Fail(500, SessionRequiredMessage), feedbacks)
      else Outcome(Succeed(status, f, message), Stored(feedbacks, f))
  }

  /** Every stored feedback passed the validators and the hook; ids are distinct and below nextId. */
  predicate ValidFeedbacks(feedbacks: seq<Feedback>, nextId: FeedbackId) {
    && (forall i | 0 <= i < |feedbacks| ::
          SchemaValid(feedbacks[i]) && SessionRequirementMet(feedbacks[i]) && feedbacks[i].id < nextId)
    && (forall i, j | 0 <= i < j < |feedbacks| :: feedbacks[i].id != feedbacks[j].id)
  }

  lemma StoredKeepsValid(feedbacks: seq<Feedback>, nextId: FeedbackId, f: Feedback)
    requires ValidFeedbacks(feedbacks, nextId) && SchemaValid(f) && SessionRequirementMet(f) && f.id < nextId
    ensures ValidFeedbacks(Stored(feedbacks, f), nextId)
  {
    var r := Stored(feedbacks, f);
    var i := IndexOfId(feedbacks, f.id);
    forall a, b | 0 <= a < b < |r| ensures r[a].id != r[b].id {
      if i == -1 {
        if b == |feedbacks| {
          assert r[a] == feedbacks[a];
        } else {
          assert r[a] == feedbacks[a] && r[b] == feedbacks[b];
        }
      } else if a == i {
        assert r[b] == feedbacks[b];
      } else if b == i {
        assert r[a] == feedbacks[a];
      } else {
        assert r[a] == feedbacks[a] && r[b] == feedbacks[b];
      }
    }
  }

  lemma DeletedKeepsValid(feedbacks: seq<Feedback>, nextId: FeedbackId, id: FeedbackId)
    requires ValidFeedbacks(feedbacks, nextId) && IndexOfId(feedbacks, id) != -1
    ensures ValidFeedbacks(Deleted(feedbacks, id), nextId)
  {
    var i := IndexOfId(feedbacks, id);
    var r := Deleted(feedbacks, id);
    forall a | 0 <= a < |r| ensures r[a] == feedbacks[if a < i then a else a + 1] {
      if a < i {
        assert r[a] == feedbacks[..i][a];
      } else {
        assert r[a] == feedbacks[i + 1..][a - i];
      }
    }
    forall a, b | 0 <= a < b < |r| ensures r[a].id != r[b].id {
      assert r[a] == feedbacks[if a < i then a else a + 1];
      assert r[b] == feedbacks[if b < i then b else b + 1];
    }
  }

  /** Stored ratings are in [1,5], so the refreshed average is 0 or in [1,5] and the save that stores it succeeds. */
  lemma AverageInRange(feedbacks: seq<Feedback>, nextId: FeedbackId, therapist: UserId)
    requires ValidFeedbacks(feedbacks, nextId)
    ensures var a := TherapistAverage(feedbacks, therapist);
      a == 0.0 || MinRating <= a <= MaxRating
  {
    var rs := TherapistRatings(feedbacks, therapist);
    TherapistRatingsSound(feedbacks, therapist);
    forall x | x in rs ensures InRatingRange(x) {
      var i :| 0 <= i < |feedbacks| && feedbacks[i].overallRating == x && Rated(feedbacks[i], therapist);
    }
  }

  /** The Feedback collection. */
  class FeedbackStore {
    var feedbacks: seq<Feedback>
    var nextId: FeedbackId

    predicate Valid()
      reads this
    {
      ValidFeedbacks(feedbacks, nextId)
    }

    constructor()
      ensures feedbacks == [] && nextId == 0 && Valid()
    {
      feedbacks, nextId := [], 0;
    }

    /** Saves the step's document, then refreshes the recipient's average when refresh is set. */
    method SaveAndRefresh(step: Step<Feedback>, status: int, message: string, refresh: bool,
                          therapists: Therapists.TherapistStore) returns (r: Reply<Feedback>)
      requires Valid() && therapists.Valid()
      requires step.Save? ==> step.document.id < nextId
      modifies this, therapists
      ensures Valid() && therapists.Valid() && nextId == old(nextId)
      ensures Outcome(r, feedbacks) == Commit(old(feedbacks), step, status, message)
      ensures therapists.profiles ==
        if r.Ok? && refresh then Therapists.WithAverageRating(old(therapists.profiles), r.response.data.toUser,
                                                               TherapistAverage(feedbacks, r.response.data.toUser))
        else old(therapists.profiles)
    {
      var o := Commit(feedbacks, step, status, message);
      if o.reply.Ok? {
        StoredKeepsValid(feedbacks, nextId, step.document);
      }
      r, feedbacks := o.reply, o.feedbacks;
      if r.Ok? && refresh {
        therapists.SetAverageRating(r.response.data.toUser, TherapistAverage(feedbacks, r.response.data.toUser));
      }
    }

    /** createFeedback; patient feedback refreshes the therapist's average. */
    method Create(requester: Requester, body: CreateFeedbackBody, users: map<UserId, Role>,
                  sessions: Sessions.Store, therapists: Therapists.TherapistStore) returns (r: Reply<Feedback>)
      requires Valid() && therapists.Valid()
      modifies this, therapists
      ensures Valid() && therapists.Valid()
      ensures Outcome(r, feedbacks) == Commit(old(feedbacks),
        CreateStep(requester, body, users, sessions, old(feedbacks), old(nextId)), 201, "Feedback created successfully")
      ensures therapists.profiles ==
        if r.Ok? && r.response.data.feedbackType == PatientToTherapist then
          Therapists.WithAverageRating(old(therapists.profiles), r.response.data.toUser,
                                       TherapistAverage(feedbacks, r.response.data.toUser))
        else old(therapists.profiles)
    {
      var step := CreateStep(requester, body, users, sessions, feedbacks, nextId);
      nextId := nextId + 1;
      assert ValidFeedbacks(feedbacks, nextId);
      r := SaveAndRefresh(step, 201, "Feedback created successfully",
                          step.Save? && step.document.feedbackType == PatientToTherapist, therapists);
    }

    /** updateFeedback; the average is refreshed only when an overall rating was sent. */
    method Update(requester: Requester, id: FeedbackId, body: UpdateFeedbackBody,
                  therapists: Therapists.TherapistStore) returns (r: Reply<Feedback>)
      requires Valid() && therapists.Valid()
      modifies this, therapists
      ensures Valid() && therapists.Valid()
      ensures Outcome(r, feedbacks) == Commit(old(feedbacks),
        UpdateStep(FindFeedback(old(feedbacks), id), requester, body), 200, "Feedback updated successfully")
      ensures therapists.profiles ==
        if r.Ok? && r.response.data.feedbackType == PatientToTherapist && body.overallRating.Some? then
          Therapists.WithAverageRating(old(therapists.profiles), r.response.data.toUser,
                                       TherapistAverage(feedbacks, r.response.data.toUser))
        else old(therapists.profiles)
    {
      var found := FindFeedback(feedbacks, id);
      var step := UpdateStep(found, requester, body);
      if step.Save? {
        var k :| 0 <= k < |feedbacks| && feedbacks[k] == found.value;
      }
      r := SaveAndRefresh(step, 200, "Feedback updated successfully",
                          step.Save? && step.document.feedbackType == PatientToTherapist && body.overallRating.Some?,
                          therapists);
    }

    /** addResponseToFeedback. */
    method Respond(requester: Requester, id: FeedbackId, text: Option<string>, now: int,
                   therapists: Therapists.TherapistStore) returns (r: Reply<Feedback>)
      requires Valid() && therapists.Valid()
      modifies this, therapists
      ensures Valid() && therapists.profiles == old(therapists.profiles)
      ensures Outcome(r, feedbacks) == Commit(old(feedbacks),
        RespondStep(FindFeedback(old(feedbacks), id), requester, text, now), 200, "Response added successfully")
    {
      var found := FindFeedback(feedbacks, id);
      var step := RespondStep(found, requester, text, now);
      if step.Save? {
        var k :| 0 <= k < |feedbacks| && feedbacks[k] == found.value;
      }
      r := SaveAndRefresh(step, 200, "Response added successfully", false, therapists);
    }

    /** flagFeedback. */
    method Flag(requester: Requester, id: FeedbackId, isFlagged: Option<bool>,
                therapists: Therapists.TherapistStore) returns (r: Reply<Feedback>)
      requires Valid() && therapists.Valid()
      modifies this, therapists
      ensures Valid() && therapists.profiles == old(therapists.profiles)
      ensures Outcome(r, feedbacks) == Commit(old(feedbacks),
        FlagStep(FindFeedback(old(feedbacks), id), requester, isFlagged), 200, "Feedback flag status updated")
    {
      var found := FindFeedback(feedbacks, id);
      var step := FlagStep(found, requester, isFlagged);
      if step.Save? {
        var k :| 0 <= k < |feedbacks| && feedbacks[k] == found.value;
      }
      r := SaveAndRefresh(step, 200, "Feedback flag status updated", false, therapists);
    }

    /** deleteFeedback: the sender or an admin; deleting patient feedback refreshes the average. */
    method Delete(requester: Requester, id: FeedbackId, therapists: Therapists.TherapistStore) returns (r: Reply<()>)
      requires Valid() && therapists.Valid()
      modifies this, therapists
      ensures Valid() && therapists.Valid()
      ensures FindFeedback(old(feedbacks), id).None? ==>
        r == Fail(404, FeedbackNotFoundMessage) && feedbacks == old(feedbacks) && therapists.profiles == old(therapists.profiles)
      ensures FindFeedback(old(feedbacks), id).Some? && !CanDelete(requester, FindFeedback(old(feedbacks), id).value) ==>
        r == Fail(403, NotAuthorizedDeleteMessage)
        && feedbacks == old(feedbacks) && therapists.profiles == old(therapists.profiles)
      ensures FindFeedback(old(feedbacks), id).Some? && CanDelete(requester, FindFeedback(old(feedbacks), id).value) ==>
        var f := FindFeedback(old(feedbacks), id).value;
        && r == Succeed(200, (), "Feedback deleted successfully")
        && feedbacks == Deleted(old(feedbacks), id)
        && therapists.profiles == if f.feedbackType == PatientToTherapist then
             Therapists.WithAverageRating(old(therapists.profiles), f.toUser, TherapistAverage(feedbacks, f.toUser))
           else old(therapists.profiles)
    {
      var found := FindFeedback(feedbacks, id);
      if found.None? {
        return Fail(404, FeedbackNotFoundMessage);
      }
      if !CanDelete(requester, found.value) {
        return Fail(403, NotAuthorizedDeleteMessage);
      }
      assert IndexOfId(feedbacks, id) != -1;
      DeletedKeepsValid(feedbacks, nextId, id);
      feedbacks := Deleted(feedbacks, id);
      if found.value.feedbackType == PatientToTherapist {
        therapists.SetAverageRating(found.value.toUser, TherapistAverage(feedbacks, found.value.toUser));
      }
      r := Succeed(200, (), "Feedback deleted successfully");
    }
  }
}
