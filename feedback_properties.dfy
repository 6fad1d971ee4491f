/** Properties of the feedback rules that relate several operations. */
module FeedbackProperties {
  import opened Common
  import opened Envelopes
  import opened FeedbackModel
  import opened Feedbacks
  import Sessions
  import opened Scoring

  /** The controller's own checks give every session-related feedback a session, so the pre-save hook never fires on create. */
  lemma CreateNeverTripsSessionHook(requester: Requester, body: CreateFeedbackBody, users: map<UserId, Role>,
                                    sessions: Sessions.Store, feedbacks: seq<Feedback>, id: FeedbackId)
    requires CreateStep(requester, body, users, sessions, feedbacks, id).Save?
    ensures SessionRequirementMet(CreateStep(requester, body, users, sessions, feedbacks, id).document)
  {
    var t := ParseFeedbackType(body.feedbackType.value).value;
    var e := TypeRuleError(t, requester, body.toUserId.value, body.sessionId, users, sessions, feedbacks);
    assert e.None?;
  }

  /** An update cannot change the type or the session, so a stored feedback keeps meeting the hook. */
  lemma UpdateNeverTripsSessionHook(f: Feedback, requester: Requester, body: UpdateFeedbackBody)
    requires SessionRequirementMet(f) && UpdateStep(Some(f), requester, body).Save?
    ensures SessionRequirementMet(UpdateStep(Some(f), requester, body).document)
  {
  }

  /** Supervisor feedback needs no session. */
  lemma SupervisorFeedbackNeedsNoSession(f: Feedback)
    requires f.feedbackType == SupervisorToTherapist
    ensures SessionRequirementMet(f.(sessionId := None))
  {
  }

  /** Once a patient's feedback on a session is stored, a second one on the same session is a 409. */
  lemma PatientFeedbackOncePerSession(requester: Requester, body: CreateFeedbackBody, again: CreateFeedbackBody,
                                      users: map<UserId, Role>, sessions: Sessions.Store, feedbacks: seq<Feedback>,
                                      id: FeedbackId, id2: FeedbackId)
    requires Commit(feedbacks, CreateStep(requester, body, users, sessions, feedbacks, id), 201, "").reply.Ok?
    requires body.feedbackType == Some("patient-to-therapist")
    requires again.feedbackType == body.feedbackType && again.toUserId == body.toUserId
    requires again.sessionId == body.sessionId && again.overallRating.Some? && again.overallRating.value != 0.0
    ensures var after := Commit(feedbacks, CreateStep(requester, body, users, sessions, feedbacks, id), 201, "").feedbacks;
      CreateStep(requester, again, users, sessions, after, id2) == Refuse(NewApiError(409, AlreadyReviewedMessage))
  {
    var f := CreateStep(requester, body, users, sessions, feedbacks, id).document;
    var after := Commit(feedbacks, CreateStep(requester, body, users, sessions, feedbacks, id), 201, "").feedbacks;
    assert after == Stored(feedbacks, f);
    var k := IndexOfId(feedbacks, f.id);
    var j := if k == -1 then |feedbacks| else k;
    assert after[j] == f;
    assert AlreadyReviewed(after, body.sessionId.value, requester.id);
  }

  /** Therapists face no duplicate check: a second note on the same session is accepted like the first. */
  lemma TherapistNotesAreNotDeduplicated(requester: Requester, body: CreateFeedbackBody, users: map<UserId, Role>,
                                         sessions: Sessions.Store, feedbacks: seq<Feedback>, id: FeedbackId, id2: FeedbackId)
    requires body.feedbackType == Some("therapist-to-patient")
    requires CreateStep(requester, body, users, sessions, feedbacks, id).Save?
    ensures var after := Stored(feedbacks, CreateStep(requester, body, users, sessions, feedbacks, id).document);
      CreateStep(requester, body, users, sessions, after, id2).Save?
  {
  }

  /** Anyone other than the sender is refused an update, whatever the body. */
  lemma OnlySenderUpdates(f: Feedback, requester: Requester, body: UpdateFeedbackBody)
    requires requester.id != f.fromUser
    ensures UpdateStep(Some(f), requester, body) == Refuse(NewApiError(403, OwnFeedbackOnlyMessage))
  {
  }

  /** An update that adds one category keeps every other category's rating. */
  lemma MergeKeepsOtherCategories(f: Feedback, requester: Requester, c: Category, v: real, other: Category)
    requires requester.id == f.fromUser && other != c
    ensures var body := UpdateFeedbackBody(None, Some(map[c := Some(v)]), None, None, None, None, None);
      var step := UpdateStep(Some(f), requester, body);
      step.Save? && RatingOf(step.document.categoryRatings, c) == Some(v)
      && RatingOf(step.document.categoryRatings, other) == RatingOf(f.categoryRatings, other)
  {
  }

  /**
   * Hiding a patient's feedback changes the average it should contribute
   * to, but the controller refreshes the average only when a rating is
   * sent, so the stored average keeps counting the hidden feedback.
   */
  lemma HidingLeavesAverageStale()
    ensures var f := Feedback(0, PatientToTherapist, 1, 2, Some(7), 5.0, map[], None, [], [], None,
                              false, true, false, None, None);
      var body := UpdateFeedbackBody(None, None, None, None, None, None, Some(false));
      var step := UpdateStep(Some(f), Requester(1, Patient), body);
      && step.Save? && body.overallRating.None?
      && TherapistAverage([f], 2) == 5.0
      && TherapistAverage(Stored([f], step.document), 2) == 0.0
  {
    var f := Feedback(0, PatientToTherapist, 1, 2, Some(7), 5.0, map[], None, [], [], None,
                      false, true, false, None, None);
    var rs := TherapistRatings([f], 2);
    assert rs == [5.0];
    assert Sum(rs) == 5.0;
    assert Round2(5.0) == 5.0 by {
      assert RoundHalfUp(500.0) == 500;
    }
  }

  /** Anonymity hides the sender from the recipient but never from an admin. */
  lemma AnonymousFeedbackHidesSenderFromRecipient(f: Feedback, role: Role, admin: UserId)
    requires f.isAnonymous && f.toUser != f.fromUser
    ensures SenderAsSeen(Requester(f.toUser, Patient), f, role) == Anonymous(AnonymousName, AnonymousEmail, role)
    ensures SenderAsSeen(Requester(admin, Admin), f, role) == Named(f.fromUser)
  {
  }

  /** A patient's list holds only feedback the patient gave or received. */
  lemma PatientListIsOwn(requester: Requester, f: Feedback)
    requires requester.role == Patient && InListScope(requester, f)
    ensures f.fromUser == requester.id || f.toUser == requester.id
  {
  }

  /** A supervisor's list never holds another supervisor's reviews. */
  lemma SupervisorListExcludesOtherReviews(requester: Requester, f: Feedback)
    requires requester.role == Supervisor && f.feedbackType == SupervisorToTherapist && f.fromUser != requester.id
    ensures !InListScope(requester, f)
  {
  }
}
