/** Lifecycle properties of the session controllers. */
module SessionProperties {
  import opened Common
  import opened Text
  import opened Envelopes
  import opened SessionModel
  import opened Sessions

  /** No stored session is in the "scheduled" status. */
  predicate NoneScheduled(store: Store) {
    forall id | id in store :: store[id].status != Scheduled
  }

  /** A step whose saved document is scheduled only ever starts from a scheduled one. */
  predicate KeepsUnscheduled(store: Store, id: SessionId, step: Step<Session>) {
    step.Save? && step.document.status == Scheduled ==> id in store && store[id].status == Scheduled
  }

  /**
   * No controller moves a session into "scheduled": creation yields
   * pending, and every transition either leaves the status alone on a
   * scheduled session (update) or sets another one.
   */
  lemma {:induction false} NoStepSchedules(store: Store, id: SessionId, requester: Requester,
                                           link: Option<string>, text: Option<string>,
                                           body: UpdateBody, now: int)
    ensures KeepsUnscheduled(store, id, AcceptStep(Find(store, id), requester.id, link, text))
    ensures KeepsUnscheduled(store, id, RejectStep(Find(store, id), requester.id, text))
    ensures KeepsUnscheduled(store, id, CancelStep(Find(store, id), requester.id, text))
    ensures KeepsUnscheduled(store, id, CompleteStep(Find(store, id), requester.id))
    ensures KeepsUnscheduled(store, id, NoShowStep(Find(store, id), requester.id))
    ensures KeepsUnscheduled(store, id, UpdateStep(Find(store, id), id, requester.id, body, store, now))
    ensures KeepsUnscheduled(store, id, NotesStep(Find(store, id), requester.id, text))
    ensures KeepsUnscheduled(store, id, PaymentStep(Find(store, id), requester, text))
  {
  }

  lemma CreateNeverSchedules(requester: Requester, body: CreateBody, roles: map<UserId, Role>,
                             sessionRates: map<UserId, real>, store: Store, now: int)
    ensures var step := CreateStep(requester, body, roles, sessionRates, store, now);
      step.Save? ==> step.document.status == Pending
  {
  }

  /** Saving such a step keeps a store free of scheduled sessions. */
  lemma {:induction false} CommitKeepsNoneScheduled(store: Store, id: SessionId, step: Step<Session>, message: string)
    requires NoneScheduled(store) && KeepsUnscheduled(store, id, step)
    ensures NoneScheduled(Commit(store, id, step, message).store)
  {
    var after := Commit(store, id, step, message).store;
    forall k | k in after ensures after[k].status != Scheduled {
      if step.Save? && SchemaValid(step.document) && k == id {
        assert after[k] == step.document;
      } else {
        assert after[k] == store[k];
      }
    }
  }

  /**
   * Consequently, on any collection built through these controllers,
   * complete, no-show and update always refuse: the status they demand is
   * never reached.
   */
  lemma ScheduledOnlyOperationsRefuse(store: Store, id: SessionId, requester: Requester, body: UpdateBody, now: int)
    requires NoneScheduled(store)
    ensures CompleteStep(Find(store, id), requester.id).Refuse?
    ensures NoShowStep(Find(store, id), requester.id).Refuse?
    ensures UpdateStep(Find(store, id), id, requester.id, body, store, now).Refuse?
  {
    if id in store {
      assert store[id].status != Scheduled;
    }
  }

  /** A second cancellation of the same session is refused as already cancelled. */
  lemma CancelTwiceRefused(store: Store, id: SessionId, first: UserId, second: UserId,
                           reason: Option<string>, again: Option<string>)
    requires CancelStep(Find(store, id), first, reason).Save?
    ensures var after := Commit(store, id, CancelStep(Find(store, id), first, reason), "").store;
      after[id].status == Cancelled || after == store
    ensures var after := Commit(store, id, CancelStep(Find(store, id), first, reason), "").store;
      after != store ==> CancelStep(Find(after, id), second, again) == Refuse(NewApiError(400, AlreadyCancelled))
  {
  }

  /** After cancellation the payment is never left pending, and the canceller and a reason are recorded. */
  lemma CancelRecordsOutcome(found: Option<Session>, requester: UserId, reason: Option<string>)
    requires CancelStep(found, requester, reason).Save?
    ensures var s := CancelStep(found, requester, reason).document;
      s.paymentStatus != PaymentPending && s.cancelledBy == Some(requester)
      && s.cancellationReason.Some? && s.cancellationReason.value != ""
      && (found.value.paymentStatus == Paid ==> s.paymentStatus == Paid)
  {
  }

  /**
   * Cancellation is refused only for cancelled and completed sessions, so
   * a session the therapist rejected can still be cancelled by its patient.
   */
  lemma RejectedSessionCanBeCancelled(s: Session, reason: Option<string>)
    requires s.status == Rejected
    ensures CancelStep(Some(s), s.patientId, reason).Save?
    ensures CancelStep(Some(s), s.patientId, reason).document.status == Cancelled
  {
  }

  /** Accept and reject act only on pending sessions, so at most one of them succeeds. */
  lemma AcceptThenRejectRefused(store: Store, id: SessionId, therapist: UserId, link: Option<string>,
                                notes: Option<string>, reason: Option<string>)
    requires AcceptStep(Find(store, id), therapist, link, notes).Save?
    ensures var o := Commit(store, id, AcceptStep(Find(store, id), therapist, link, notes), "");
      o.reply.Ok? ==> o.store[id].status == Confirmed && RejectStep(Find(o.store, id), therapist, reason).Refuse?
  {
  }

  /** The stored meeting link of an accepted session is non-blank and already trimmed. */
  lemma AcceptedLinkIsTrimmed(found: Option<Session>, therapist: UserId, link: Option<string>, notes: Option<string>)
    requires AcceptStep(found, therapist, link, notes).Save?
    ensures var l := AcceptStep(found, therapist, link, notes).document.meetingLink;
      l.Some? && l.value != "" && Trim(l.value) == l.value
  {
    TrimIdempotent(link.value);
  }

  /** A payment update changes the payment status and nothing else. */
  lemma PaymentUpdateChangesOnlyPayment(found: Option<Session>, requester: Requester, status: Option<string>)
    requires PaymentStep(found, requester, status).Save?
    ensures var s := PaymentStep(found, requester, status).document;
      s.(paymentStatus := found.value.paymentStatus) == found.value
      && PaymentStatusName(s.paymentStatus) == status.value
  {
  }

  /** The first booking of a pair is free; once a confirmed session exists, the requested fee or the rate applies. */
  lemma FreeTrialRule(store: Store, patientId: UserId, therapistId: UserId, requested: Option<real>, rate: real,
                      earlier: SessionId)
    ensures (forall id | id in store :: store[id].patientId != patientId || store[id].therapistId != therapistId) ==>
      SessionFee(HasPriorSession(store, patientId, therapistId), requested, rate) == 0.0
    ensures (earlier in store && store[earlier].patientId == patientId && store[earlier].therapistId == therapistId
             && store[earlier].status == Confirmed) ==>
      SessionFee(HasPriorSession(store, patientId, therapistId), requested, rate)
        == (if requested.Some? && requested.value != 0.0 then requested.value else rate)
  {
  }

  /**
   * The conflict window is inclusive at both ends: a confirmed session of
   * the therapist exactly duration minutes away blocks a booking that one
   * millisecond later would not.
   */
  lemma ConflictWindowIsInclusive(start: int, duration: nat)
    ensures InWindow(start + duration * MinuteMs, start, duration)
    ensures InWindow(start - duration * MinuteMs, start, duration)
    ensures !InWindow(start + duration * MinuteMs + 1, start, duration)
  {
  }

  /** Pending, rejected, cancelled and no-show sessions never block a booking. */
  lemma OnlyBlockingStatusesConflict(store: Store, therapistId: UserId, start: int, duration: int)
    requires forall id | id in store :: store[id].status in {Pending, Rejected, Cancelled, NoShow}
    ensures !Conflicts(store, therapistId, start, duration, CreateBlocking, None)
  {
  }
}
