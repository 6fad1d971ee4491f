/**
 * submitAssessment and getRecommendedTherapists: each patient's stored
 * answers (one assessment per patient) and the recommendation reply built
 * from them.
 */
module Assessments {
  import opened Common
  import opened Text
  import opened Envelopes
  import opened AssessmentModel
  import opened TherapistModel
  import opened Scoring
  import opened Ranking
  import opened Reasons

  /** The request body as sent; an absent field is None. */
  datatype SubmitBody = SubmitBody(
    ageGroup: Option<string>,
    occupation: Option<string>,
    lifestyle: Option<string>,
    activityLevel: Option<string>,
    concerns: Option<seq<string>>,
    otherConcern: Option<string>,
    duration: Option<string>,
    impactLevel: Option<int>)

  const PatientsOnlySubmit: string := "Only patients can submit assessments"
  const ConcernRequired: string := "At least one mental health concern is required"
  const ImpactOutOfRange: string := "Impact level must be between 1 and 5"
  const AssessmentUpdated: string := "Assessment updated successfully"
  const AssessmentSubmitted: string := "Assessment submitted successfully"
  const PatientsOnlyRecommend: string := "Only patients can get therapist recommendations"
  const NoAssessment: string := "Please complete an assessment first to get therapist recommendations"
  const NoTherapistsFound: string := "No therapists found matching your criteria"
  const RecommendationsGenerated: string := "Therapist recommendations generated successfully"

  /** The controller's three guards, in order; None when the body gets past all of them. */
  function SubmitGuard(role: Role, body: SubmitBody): (e: Option<ApiError>)
    ensures e.None? <==> role == Patient && body.concerns.Some? && |body.concerns.value| > 0
                         && body.impactLevel.Some? && 1 <= body.impactLevel.value <= 5
    ensures role != Patient ==> e == Some(NewApiError(403, PatientsOnlySubmit))
    ensures role == Patient && (body.concerns.None? || body.concerns.value == []) ==>
      e == Some(NewApiError(400, ConcernRequired))
    ensures e.Some? ==> e.value.statusCode in {400, 403}
    ensures e.Some? && e.value.statusCode == 400 && e.value.message != ConcernRequired ==>
      e.value.message == ImpactOutOfRange
  {
    if role != Patient then Some(NewApiError(403, PatientsOnlySubmit))
    else if body.concerns.None? || |body.concerns.value| == 0 then Some(NewApiError(400, ConcernRequired))
    else if body.impactLevel.None? || body.impactLevel.value < 1 || body.impactLevel.value > 5 then
      Some(NewApiError(400, ImpactOutOfRange))
    else None
  }

  /** Mongoose's enum check on an optional field: Some(None) when absent, None when invalid. */
  function ParseOptional<T>(s: Option<string>, parse: string -> Option<T>): (r: Option<Option<T>>)
    ensures s.None? ==> r == Some(None)
    ensures s.Some? ==> (r.Some? <==> parse(s.value).Some?)
    ensures s.Some? && r.Some? ==> r.value == parse(s.value)
  {
    if s.None? then Some(None)
    else if parse(s.value).None? then None
    else Some(parse(s.value))
  }

  /** The enum check on every element of the concerns array. */
  function ParseConcerns(ss: seq<string>): (r: Option<seq<Concern>>)
    ensures r.Some? <==> forall i | 0 <= i < |ss| :: ParseConcern(ss[i]).Some?
    ensures r.Some? ==> |r.value| == |ss| && forall i | 0 <= i < |ss| :: ConcernName(r.value[i]) == ss[i]
  {
    if forall i | 0 <= i < |ss| :: ParseConcern(ss[i]).Some? then
      Some(seq(|ss|, i requires 0 <= i < |ss| => ParseConcern(ss[i]).value))
    else None
  }

  /** otherConcern || null, then the schema's trim setter: a stored value is always trimmed. */
  function StoredOtherConcern(o: Option<string>): (r: Option<string>)
    ensures o.None? || o == Some("") ==> r.None?
    ensures o.Some? && o.value != "" ==> r.Some? && Trim(r.value) == r.value
    ensures r.Some? ==> o.Some? && r.value == Trim(o.value)
  {
    if o.None? || o.value == "" then None
    else
      TrimIdempotent(o.value);
      Some(Trim(o.value))
  }

  /** An optional enum field holds the value whose name was sent, and is absent when nothing was sent. */
  predicate StoredAs<T>(stored: Option<T>, sent: Option<string>, name: T -> string) {
    (stored.Some? <==> sent.Some?) && (stored.Some? ==> name(stored.value) == sent.value)
  }

  /** The answers saved for a body that passed the guards, or None when schema validation fails. */
  function ParseAnswers(body: SubmitBody): (r: Option<Answers>)
    requires body.concerns.Some?
    ensures r.Some? <==>
      && ParseOptional(body.ageGroup, ParseAgeGroup).Some?
      && ParseOptional(body.occupation, ParseOccupation).Some?
      && ParseOptional(body.lifestyle, ParseLifestyle).Some?
      && ParseOptional(body.activityLevel, ParseActivityLevel).Some?
      && ParseConcerns(body.concerns.value).Some?
      && ParseOptional(body.duration, ParseDuration).Some?
    ensures r.Some? ==> |r.value.concerns| == |body.concerns.value|
    ensures r.Some? ==> forall i | 0 <= i < |body.concerns.value| :: ConcernName(r.value.concerns[i]) == body.concerns.value[i]
    ensures r.Some? ==>
      && StoredAs(r.value.ageGroup, body.ageGroup, AgeGroupName)
      && StoredAs(r.value.occupation, body.occupation, OccupationName)
      && StoredAs(r.value.lifestyle, body.lifestyle, LifestyleName)
      && StoredAs(r.value.activityLevel, body.activityLevel, ActivityLevelName)
      && StoredAs(r.value.duration, body.duration, DurationName)
    ensures r.Some? ==> r.value.impactLevel == body.impactLevel
    ensures r.Some? ==> r.value.otherConcern == StoredOtherConcern(body.otherConcern)
  {
    var ageGroup := ParseOptional(body.ageGroup, ParseAgeGroup);
    var occupation := ParseOptional(body.occupation, ParseOccupation);
    var lifestyle := ParseOptional(body.lifestyle, ParseLifestyle);
    var activityLevel := ParseOptional(body.activityLevel, ParseActivityLevel);
    var concerns := ParseConcerns(body.concerns.value);
    var duration := ParseOptional(body.duration, ParseDuration);
    if ageGroup.None? || occupation.None? || lifestyle.None? || activityLevel.None?
       || concerns.None? || duration.None? then None
    else Some(Answers(ageGroup.value, occupation.value, lifestyle.value, activityLevel.value,
                      concerns.value, StoredOtherConcern(body.otherConcern), duration.value,
                      body.impactLevel))
  }

  /** The assessmentSummary of the reply; lifestyle is included only when there were candidates. */
  datatype AssessmentSummary = AssessmentSummary(
    concerns: seq<Concern>, impactLevel: Option<int>, duration: Option<Duration>, lifestyle: Option<Lifestyle>)

  function SummaryOf(a: Answers, withLifestyle: bool): (s: AssessmentSummary)
    ensures s.concerns == a.concerns && s.impactLevel == a.impactLevel && s.duration == a.duration
    ensures s.lifestyle == (if withLifestyle then a.lifestyle else None)
  {
    AssessmentSummary(a.concerns, a.impactLevel, a.duration, if withLifestyle then a.lifestyle else None)
  }

  /** A scored therapist with its match reasons. */
  datatype Recommendation = Recommendation(scored: ScoredTherapist, matchReasons: seq<MatchReason>)

  /** The reply's data; totalFound is absent when no therapist passed the filter. */
  datatype RecommendationData = RecommendationData(
    recommendations: seq<Recommendation>, totalFound: Option<nat>, summary: AssessmentSummary)

  /** ranked is the sorted arrangement of all scored candidates. */
  predicate RankedArrangement(a: Answers, candidates: seq<TherapistProfile>, ranked: seq<ScoredTherapist>) {
    |ranked| == |candidates| && Ranked(ranked) && multiset(ranked) == multiset(ScoredCandidates(a, candidates))
  }

  /**
   * The reply for a patient with answers a: an empty list with its own
   * message when nothing passes the filter; otherwise the first limitNum
   * entries of the ranking, each with its checklist of reasons.
   */
  predicate IsRecommendationReply(a: Answers, candidates: seq<TherapistProfile>, q: RecommendationQuery,
                                  ranked: seq<ScoredTherapist>, r: Reply<RecommendationData>) {
    if candidates == [] then
      r == Succeed(200, RecommendationData([], None, SummaryOf(a, false)), NoTherapistsFound)
    else
      && r.Ok? && r.response.statusCode == 200 && r.response.message == RecommendationsGenerated
      && r.response.data.totalFound == Some(|candidates|)
      && r.response.data.summary == SummaryOf(a, true)
      && RankedArrangement(a, candidates, ranked)
      && |r.response.data.recommendations| == SliceEnd(|candidates|, LimitNum(q))
      && forall i | 0 <= i < |r.response.data.recommendations| ::
           r.response.data.recommendations[i].scored == ranked[i]
           && IsReasonList(a, ranked[i].therapist, r.response.data.recommendations[i].matchReasons)
  }

  /** recommendations pairs the first |recommendations| entries of top with their match reasons. */
  predicate Attached(a: Answers, top: seq<ScoredTherapist>, recommendations: seq<Recommendation>) {
    |recommendations| <= |top|
    && forall k | 0 <= k < |recommendations| ::
         recommendations[k].scored == top[k] && IsReasonList(a, top[k].therapist, recommendations[k].matchReasons)
  }

  lemma AttachedGrows(a: Answers, top: seq<ScoredTherapist>, recommendations: seq<Recommendation>, x: Recommendation)
    requires Attached(a, top, recommendations) && |recommendations| < |top|
    requires x.scored == top[|recommendations|] && IsReasonList(a, x.scored.therapist, x.matchReasons)
    ensures Attached(a, top, recommendations + [x])
  {
    var grown := recommendations + [x];
    forall k | 0 <= k < |grown|
      ensures grown[k].scored == top[k] && IsReasonList(a, top[k].therapist, grown[k].matchReasons)
    {
      if k < |recommendations| {
        assert grown[k] == recommendations[k];
      }
    }
  }

  /** topTherapists.map(...): each ranked entry with its match reasons, in the same order. */
  method AttachReasons(a: Answers, top: seq<ScoredTherapist>) returns (recommendations: seq<Recommendation>)
    ensures |recommendations| == |top|
    ensures forall k | 0 <= k < |top| ::
      recommendations[k].scored == top[k] && IsReasonList(a, top[k].therapist, recommendations[k].matchReasons)
  {
    recommendations := [];
    var i := 0;
    while i < |top|
      invariant 0 <= i <= |top|
      invariant |recommendations| == i
      invariant Attached(a, top, recommendations)
    {
      var reasons := BuildMatchReasons(a, top[i].therapist);
      AttachedGrows(a, top, recommendations, Recommendation(top[i], reasons));
      recommendations := recommendations + [Recommendation(top[i], reasons)];
      i := i + 1;
    }
  }

  /** The Assessment collection, keyed by patient (findOne({ patientId }) finds at most one). */
  class AssessmentStore {
    var byPatient: map<UserId, Answers>

    /** Every stored assessment got past the submit guards. */
    predicate Valid()
      reads this
    {
      forall p | p in byPatient ::
        byPatient[p].concerns != [] && byPatient[p].impactLevel.Some?
        && 1 <= byPatient[p].impactLevel.value <= 5
    }

    constructor()
      ensures byPatient == map[] && Valid()
    {
      byPatient := map[];
    }

    /** submitAssessment: guards, then an upsert of the patient's answers (201 either way). */
    method Submit(requester: Requester, body: SubmitBody) returns (r: Reply<Assessment>)
      requires Valid()
      modifies this
      ensures Valid()
      ensures SubmitGuard(requester.role, body).Some? ==>
        r == Err(SubmitGuard(requester.role, body).value) && byPatient == old(byPatient)
      ensures SubmitGuard(requester.role, body).None? && ParseAnswers(body).None? ==>
        r == Fail(500, ValidationFailedMessage) && byPatient == old(byPatient)
      ensures SubmitGuard(requester.role, body).None? && ParseAnswers(body).Some? ==>
        && byPatient == old(byPatient)[requester.id := ParseAnswers(body).value]
        && r == Succeed(201, Assessment(requester.id, ParseAnswers(body).value),
                        if requester.id in old(byPatient) then AssessmentUpdated else AssessmentSubmitted)
    {
      var guard := SubmitGuard(requester.role, body);
      if guard.Some? {
        return Err(guard.value);
      }
      var answers := ParseAnswers(body);
      if answers.None? {
        return Fail(500, ValidationFailedMessage);
      }
      var existed := requester.id in byPatient;
      byPatient := byPatient[requester.id := answers.value];
      r := Succeed(201, Assessment(requester.id, answers.value),
                   if existed then AssessmentUpdated else AssessmentSubmitted);
    }

    /** getRecommendedTherapists over the therapist collection pool. */
    method Recommend(requester: Requester, pool: seq<TherapistProfile>, q: RecommendationQuery)
      returns (r: Reply<RecommendationData>, ghost ranked: seq<ScoredTherapist>)
      ensures requester.role != Patient ==> r == Fail(403, PatientsOnlyRecommend)
      ensures requester.role == Patient && requester.id !in byPatient ==> r == Fail(404, NoAssessment)
      ensures requester.role == Patient && requester.id in byPatient ==>
        IsRecommendationReply(byPatient[requester.id], Candidates(pool, q), q, ranked, r)
    {
      ranked := [];
      if requester.role != Patient {
        return Fail(403, PatientsOnlyRecommend), ranked;
      }
      if requester.id !in byPatient {
        return Fail(404, NoAssessment), ranked;
      }
      var a := byPatient[requester.id];
      var candidates := Candidates(pool, q);
      if |candidates| == 0 {
        return Succeed(200, RecommendationData([], None, SummaryOf(a, false)), NoTherapistsFound), ranked;
      }
      var top;
      top, ranked := RankCandidates(a, candidates, LimitNum(q));
      var recommendations := AttachReasons(a, top);
      r := Succeed(200, RecommendationData(recommendations, Some(|candidates|), SummaryOf(a, true)),
                   RecommendationsGenerated);
    }
  }
}
