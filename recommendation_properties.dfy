/** What a patient receives from getRecommendedTherapists, stated on the reply itself. */
module RecommendationProperties {
  import opened Common
  import opened Envelopes
  import opened AssessmentModel
  import opened TherapistModel
  import opened Scoring
  import opened Ranking
  import opened Reasons
  import opened Assessments
  import RankingProperties
  import Pagination

  /**
   * Every reply to a patient with an assessment succeeds with 200; the
   * list holds min(n, 20, |candidates|) entries for a limit n >= 0; each
   * entry is a therapist of the collection that passes the filter, scored
   * by the scorer, with at most five reasons; and the list is in
   * non-increasing score order.
   */
  lemma ReplyFacts(a: Answers, pool: seq<TherapistProfile>, q: RecommendationQuery,
                   ranked: seq<ScoredTherapist>, r: Reply<RecommendationData>)
    requires IsRecommendationReply(a, Candidates(pool, q), q, ranked, r)
    ensures r.Ok? && r.response.statusCode == 200 && r.response.success
    ensures q.limit.Some? && q.limit.value >= 0 ==>
      |r.response.data.recommendations| ==
        Pagination.Min(Pagination.Min(q.limit.value, MaxLimit), |Candidates(pool, q)|)
    ensures forall rec | rec in r.response.data.recommendations ::
      && rec.scored.therapist in pool && PassesFilter(q, rec.scored.therapist)
      && rec.scored.matchScore == Score(a, rec.scored.therapist)
      && |rec.matchReasons| <= 5
    ensures forall i, j | 0 <= i < j < |r.response.data.recommendations| ::
      r.response.data.recommendations[i].scored.matchScore >= r.response.data.recommendations[j].scored.matchScore
  {
    var candidates := Candidates(pool, q);
    if candidates != [] {
      var top := ranked[..SliceEnd(|candidates|, LimitNum(q))];
      RankingProperties.RecommendationsArePrefix(candidates, q, ranked, top);
      ReplyEntriesAreScoredCandidates(a, pool, q, ranked, r);
      ReplyIsInScoreOrder(a, pool, q, ranked, r);
    }
  }

  /** Every recommended entry is a scored candidate from the pool with at most five reasons. */
  lemma ReplyEntriesAreScoredCandidates(a: Answers, pool: seq<TherapistProfile>, q: RecommendationQuery,
                                        ranked: seq<ScoredTherapist>, r: Reply<RecommendationData>)
    requires IsRecommendationReply(a, Candidates(pool, q), q, ranked, r) && Candidates(pool, q) != []
    ensures forall rec | rec in r.response.data.recommendations ::
      && rec.scored.therapist in pool && PassesFilter(q, rec.scored.therapist)
      && rec.scored.matchScore == Score(a, rec.scored.therapist)
      && |rec.matchReasons| <= 5
  {
    var candidates := Candidates(pool, q);
    var recs := r.response.data.recommendations;
    RankingProperties.RankedEntriesAreScoredCandidates(a, candidates, ranked);
    forall rec | rec in recs
      ensures rec.scored.therapist in pool && PassesFilter(q, rec.scored.therapist)
      ensures rec.scored.matchScore == Score(a, rec.scored.therapist)
      ensures |rec.matchReasons| <= 5
    {
      var i :| 0 <= i < |recs| && recs[i] == rec;
      assert ranked[i] in ranked;
      assert rec.scored.therapist in candidates;
      AtMostFiveReasons(a, ranked[i].therapist, rec.matchReasons);
    }
  }

  /** The recommended entries are in non-increasing score order. */
  lemma ReplyIsInScoreOrder(a: Answers, pool: seq<TherapistProfile>, q: RecommendationQuery,
                            ranked: seq<ScoredTherapist>, r: Reply<RecommendationData>)
    requires IsRecommendationReply(a, Candidates(pool, q), q, ranked, r) && Candidates(pool, q) != []
    ensures forall i, j | 0 <= i < j < |r.response.data.recommendations| ::
      r.response.data.recommendations[i].scored.matchScore >= r.response.data.recommendations[j].scored.matchScore
  {
    var candidates := Candidates(pool, q);
    var recs := r.response.data.recommendations;
    forall i, j | 0 <= i < j < |recs|
      ensures recs[i].scored.matchScore >= recs[j].scored.matchScore
    {
      assert RankedBefore(ranked[i], ranked[j]);
    }
  }

  /** A patient whose filter excludes every therapist gets an empty list, not an error. */
  lemma NoCandidatesIsNotAnError(a: Answers, pool: seq<TherapistProfile>, q: RecommendationQuery,
                                 ranked: seq<ScoredTherapist>, r: Reply<RecommendationData>)
    requires IsRecommendationReply(a, Candidates(pool, q), q, ranked, r)
    requires forall t | t in pool :: !PassesFilter(q, t)
    ensures r.Ok? && r.response.data.recommendations == [] && r.response.data.totalFound.None?
    ensures r.response.message == NoTherapistsFound
  {
    if Candidates(pool, q) != [] {
      assert Candidates(pool, q)[0] in Candidates(pool, q);
    }
  }
}
