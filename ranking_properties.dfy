/** What the ranking step guarantees about the list it returns. */
module RankingProperties {
  import opened Common
  import opened AssessmentModel
  import opened TherapistModel
  import opened Scoring
  import opened Ranking
  import opened Pagination

  /** RankedBefore is a strict order: never both ways. */
  lemma RankedBeforeAsymmetric(x: ScoredTherapist, y: ScoredTherapist)
    ensures !(RankedBefore(x, y) && RankedBefore(y, x))
    ensures !RankedBefore(x, x)
  {
  }

  /** The tail of a ranked list is ranked. */
  lemma RankedTail(s: seq<ScoredTherapist>)
    requires Ranked(s) && s != []
    ensures Ranked(s[1..])
  {
    forall i, j | 0 <= i < j < |s| - 1 ensures RankedBefore(s[1..][i], s[1..][j]) {
      assert s[1..][i] == s[i + 1] && s[1..][j] == s[j + 1];
    }
  }

  /** Two ranked lists over the same entries start with the same entry. */
  lemma RankedSameHead(s: seq<ScoredTherapist>, t: seq<ScoredTherapist>)
    requires Ranked(s) && Ranked(t) && multiset(s) == multiset(t) && s != []
    ensures t != [] && s[0] == t[0]
  {
    assert s[0] in multiset(t);
    var x := s[0];
    var k :| 0 <= k < |t| && t[k] == x;
    var y := t[0];
    assert y in multiset(s);
    var m :| 0 <= m < |s| && s[m] == y;
    if k != 0 && m != 0 {
      assert RankedBefore(y, x);
      assert RankedBefore(x, y);
      RankedBeforeAsymmetric(x, y);
    }
  }

  /**
   * The ranked arrangement of a collection of scored entries is unique, so
   * the stable sort's output is fully determined by the scores and the
   * original order.
   */
  lemma {:induction false} RankedIsUnique(s: seq<ScoredTherapist>, t: seq<ScoredTherapist>)
    requires Ranked(s) && Ranked(t) && multiset(s) == multiset(t)
    ensures s == t
  {
    if s == [] {
      assert |multiset(t)| == |t|;
    } else {
      RankedSameHead(s, t);
      var x := s[0];
      assert s == [x] + s[1..] && t == [x] + t[1..];
      assert multiset(s[1..]) == multiset(t[1..]) by {
        assert multiset(s) == multiset([x]) + multiset(s[1..]);
        assert multiset(t) == multiset([x]) + multiset(t[1..]);
        assert multiset(s[1..]) == multiset(s) - multiset([x]);
        assert multiset(t[1..]) == multiset(t) - multiset([x]);
      }
      RankedTail(s);
      RankedTail(t);
      RankedIsUnique(s[1..], t[1..]);
    }
  }

  /**
   * Every ranked entry is a candidate scored by the scorer, with the
   * percentage Math.round(score) (not capped at 100), and every candidate
   * appears exactly once.
   */
  lemma RankedEntriesAreScoredCandidates(a: Answers, candidates: seq<TherapistProfile>,
                                         ranked: seq<ScoredTherapist>)
    requires multiset(ranked) == multiset(ScoredCandidates(a, candidates))
    ensures |ranked| == |candidates|
    ensures forall r | r in ranked ::
      r.inputIndex < |candidates| && r.therapist == candidates[r.inputIndex]
      && r.matchScore == Score(a, r.therapist) && r.matchPercentage == RoundHalfUp(r.matchScore)
    ensures forall k | 0 <= k < |candidates| :: ScoreEntry(a, candidates[k], k) in ranked
  {
    var all := ScoredCandidates(a, candidates);
    assert |multiset(ranked)| == |ranked| && |multiset(all)| == |all|;
    forall r | r in ranked
      ensures r.inputIndex < |candidates| && r.therapist == candidates[r.inputIndex]
      ensures r.matchScore == Score(a, r.therapist) && r.matchPercentage == RoundHalfUp(r.matchScore)
    {
      assert r in multiset(all);
      var k :| 0 <= k < |all| && all[k] == r;
    }
    forall k | 0 <= k < |candidates| ensures ScoreEntry(a, candidates[k], k) in ranked {
      assert all[k] in multiset(ranked);
    }
  }

  /**
   * The returned list: for a parsed limit n >= 0 it holds min(n, 20,
   * |candidates|) entries, sorted by score with ties in collection order,
   * and no left-out candidate scores higher than any returned one.
   */
  lemma RecommendationsArePrefix(candidates: seq<TherapistProfile>, q: RecommendationQuery,
                                 ranked: seq<ScoredTherapist>, recommendations: seq<ScoredTherapist>)
    requires |ranked| == |candidates| && Ranked(ranked)
    requires recommendations == ranked[..SliceEnd(|candidates|, LimitNum(q))]
    ensures q.limit.Some? && q.limit.value >= 0 ==>
      |recommendations| == Min(Min(q.limit.value, MaxLimit), |candidates|)
    ensures q.limit.None? ==> |recommendations| == Min(DefaultLimit, |candidates|)
    ensures q.limit.None? || q.limit.value >= 0 ==> |recommendations| <= MaxLimit
    ensures Ranked(recommendations)
    ensures forall i, j | 0 <= i < |recommendations| <= j < |ranked| ::
      recommendations[i].matchScore >= ranked[j].matchScore
  {
    var e := SliceEnd(|candidates|, LimitNum(q));
    assert |recommendations| == e;
    forall i, j | 0 <= i < j < |recommendations| ensures RankedBefore(recommendations[i], recommendations[j]) {
      assert recommendations[i] == ranked[i] && recommendations[j] == ranked[j];
    }
    forall i, j | 0 <= i < |recommendations| <= j < |ranked|
      ensures recommendations[i].matchScore >= ranked[j].matchScore
    {
      assert recommendations[i] == ranked[i];
      assert RankedBefore(ranked[i], ranked[j]);
    }
  }

  /** A limit of 1000 still yields at most 20 recommendations. */
  lemma LimitIsCapped(candidates: seq<TherapistProfile>)
    ensures SliceEnd(|candidates|, LimitNum(RecommendationQuery(Some(1000), None, None, None))) <= 20
  {
  }

  /**
   * A negative limit is not caught by the cap: slice(0, -1) keeps all but
   * the last entry, so 30 candidates with limit -1 yield 29 recommendations.
   */
  lemma NegativeLimitEscapesCap()
    ensures SliceEnd(30, LimitNum(RecommendationQuery(Some(-1), None, None, None))) == 29
  {
  }

  /** With verifiedOnly "true" only verified profiles remain; otherwise pending ones remain too. */
  lemma VerificationFilter(pool: seq<TherapistProfile>, q: RecommendationQuery)
    ensures q.verifiedOnly == Some("true") ==>
      forall t | t in Candidates(pool, q) :: t.verificationStatus == Verified
    ensures forall t | t in Candidates(pool, q) :: t.verificationStatus != Rejected
    ensures q == RecommendationQuery(None, None, None, None) ==>
      forall t | t in pool && t.verificationStatus == Pending :: t in Candidates(pool, q)
  {
  }
}
