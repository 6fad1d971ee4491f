/**
 * The ranking step of getRecommendedTherapists: pre-filter the therapist
 * collection by the query, score every candidate, sort by score (highest
 * first, ties in collection order) and keep the first limitNum entries.
 */
module Ranking {
  import opened Common
  import opened AssessmentModel
  import opened TherapistModel
  import opened Scoring

  /**
   * The query string after parsing: limit is parseInt(limit) (10 when
   * absent); minRating and maxRate are present only when the raw string is
   * non-empty (truthy) and hold parseFloat of it.
   */
  datatype RecommendationQuery = RecommendationQuery(
    limit: Option<int>, minRating: Option<real>, maxRate: Option<real>, verifiedOnly: Option<string>)

  const DefaultLimit: int := 10
  const MaxLimit: int := 20

  /** The database filter: verified only, or anything but rejected; then rating and rate bounds. */
  predicate PassesFilter(q: RecommendationQuery, t: TherapistProfile) {
    && (if q.verifiedOnly == Some("true") then t.verificationStatus == Verified
        else t.verificationStatus != Rejected)
    && (q.minRating.Some? ==> t.averageRating >= q.minRating.value)
    && (q.maxRate.Some? ==> t.sessionRate <= q.maxRate.value)
  }

  /** Therapist.find(filter): the profiles that pass, in collection order. */
  function Candidates(pool: seq<TherapistProfile>, q: RecommendationQuery): (r: seq<TherapistProfile>)
    ensures |r| <= |pool|
    ensures forall t :: t in r <==> t in pool && PassesFilter(q, t)
  {
    if pool == [] then []
    else
      var rest := Candidates(pool[..|pool| - 1], q);
      var last := pool[|pool| - 1];
      assert forall t :: t in pool <==> t in pool[..|pool| - 1] || t == last;
      if PassesFilter(q, last) then rest + [last] else rest
  }

  /** parseInt(limit) > 20 ? 20 : parseInt(limit). */
  function LimitNum(q: RecommendationQuery): (n: int)
    ensures n <= MaxLimit
    ensures q.limit.None? ==> n == DefaultLimit
    ensures q.limit.Some? && q.limit.value <= MaxLimit ==> n == q.limit.value
  {
    var requested := q.limit.GetOr(DefaultLimit);
    if requested > MaxLimit then MaxLimit else requested
  }

  /** Where Array.prototype.slice(0, end) stops: a negative end counts back from the length. */
  function SliceEnd(length: nat, end: int): (e: nat)
    ensures e <= length
    ensures end >= 0 ==> e == if end < length then end else length
    ensures end < 0 ==> e == if length + end > 0 then length + end else 0
  {
    if end >= 0 then (if end < length then end else length)
    else if length + end > 0 then length + end else 0
  }

  /**
   * One scored candidate. inputIndex is the candidate's position in the
   * database result; it is not part of the response and serves to state
   * that the sort keeps ties in their original order.
   */
  datatype ScoredTherapist = ScoredTherapist(
    therapist: TherapistProfile, matchScore: real, matchPercentage: int, inputIndex: nat)

  /** { therapist, matchScore: score, matchPercentage: Math.round((score / 100) * 100) }. */
  function ScoreEntry(a: Answers, t: TherapistProfile, index: nat): ScoredTherapist {
    var score := Score(a, t);
    ScoredTherapist(t, score, RoundHalfUp(score), index)
  }

  /** The candidates scored, in collection order. */
  function ScoredCandidates(a: Answers, candidates: seq<TherapistProfile>): (r: seq<ScoredTherapist>)
    ensures |r| == |candidates|
    ensures forall k | 0 <= k < |candidates| :: r[k] == ScoreEntry(a, candidates[k], k)
  {
    seq(|candidates|, k requires 0 <= k < |candidates| => ScoreEntry(a, candidates[k], k))
  }

  /** x comes before y in the ranking: a higher score, or an equal score and an earlier position. */
  predicate RankedBefore(x: ScoredTherapist, y: ScoredTherapist) {
    x.matchScore > y.matchScore || (x.matchScore == y.matchScore && x.inputIndex < y.inputIndex)
  }

  /** Sorted by matchScore, highest first, equal scores in their original order. */
  predicate Ranked(s: seq<ScoredTherapist>) {
    forall i, j | 0 <= i < j < |s| :: RankedBefore(s[i], s[j])
  }

  /**
   * scoredTherapists.sort((a, b) => b.matchScore - a.matchScore), a stable
   * sort: insertion by adjacent swaps that moves an entry only past entries
   * with a strictly lower score.
   */
  method SortByScore(a: array<ScoredTherapist>)
    modifies a
    requires forall k | 0 <= k < a.Length :: a[k].inputIndex == k
    ensures Ranked(a[..])
    ensures multiset(a[..]) == multiset(old(a[..]))
  {
    var i := 0;
    while i < a.Length
      invariant 0 <= i <= a.Length
      invariant forall k, l | 0 <= k < l < i :: RankedBefore(a[k], a[l])
      invariant forall k | 0 <= k < i :: a[k].inputIndex < i
      invariant forall k | i <= k < a.Length :: a[k].inputIndex == k
      invariant multiset(a[..]) == multiset(old(a[..]))
    {
      InsertEntry(a, i);
      i := i + 1;
    }
  }

  /**
   * The state of one insertion pass over s[..i + 1]: the entry x being
   * inserted sits at j, the other entries are ranked among themselves, and
   * x ranks before every entry it has already passed.
   */
  predicate Inserting(s: seq<ScoredTherapist>, j: int, i: int, x: ScoredTherapist)
    requires 0 <= j <= i < |s|
  {
    && s[j] == x && x.inputIndex == i
    && (forall k, l | 0 <= k < l <= i && k != j && l != j :: RankedBefore(s[k], s[l]))
    && (forall l | j < l <= i :: RankedBefore(x, s[l]))
    && (forall k | 0 <= k <= i && k != j :: s[k].inputIndex < i)
  }

  /** Swapping x with a lower-scored left neighbour keeps the pass state, one position further left. */
  lemma SwapKeepsInserting(s: seq<ScoredTherapist>, t: seq<ScoredTherapist>, j: int, i: int, x: ScoredTherapist)
    requires 0 < j <= i < |s| && Inserting(s, j, i, x)
    requires s[j - 1].matchScore < s[j].matchScore
    requires t == s[j - 1 := s[j]][j := s[j - 1]]
    ensures Inserting(t, j - 1, i, x)
  {
    var y := s[j - 1];
    forall k, l | 0 <= k < l <= i && k != j - 1 && l != j - 1
      ensures RankedBefore(t[k], t[l])
    {
      var k' := if k == j then j - 1 else k;
      var l' := if l == j then j - 1 else l;
      assert t[k] == s[k'] && t[l] == s[l'];
    }
    forall l | j - 1 < l <= i
      ensures RankedBefore(x, t[l])
    {
      if l == j {
        assert t[l] == y;
      } else {
        assert t[l] == s[l];
      }
    }
  }

  /** Swapping two neighbours at or below i keeps the entries and everything after i. */
  lemma SwapKeepsEntries(s: seq<ScoredTherapist>, t: seq<ScoredTherapist>, j: int, i: int)
    requires 0 < j <= i < |s| && t == s[j - 1 := s[j]][j := s[j - 1]]
    ensures multiset(t) == multiset(s)
    ensures t[i + 1..] == s[i + 1..]
  {
    assert s == s[..j - 1] + [s[j - 1], s[j]] + s[j + 1..];
    assert t == s[..j - 1] + [s[j], s[j - 1]] + s[j + 1..];
  }

  /** When x stops (at the front, or behind an entry scoring at least as much), s[..i + 1] is ranked. */
  lemma StoppedIsRanked(s: seq<ScoredTherapist>, j: int, i: int, x: ScoredTherapist)
    requires 0 <= j <= i < |s| && Inserting(s, j, i, x)
    requires j == 0 || s[j - 1].matchScore >= x.matchScore
    ensures forall k, l | 0 <= k < l <= i :: RankedBefore(s[k], s[l])
    ensures forall k | 0 <= k <= i :: s[k].inputIndex <= i
  {
    forall k | 0 <= k < j
      ensures RankedBefore(s[k], x)
    {
      if k < j - 1 {
        assert RankedBefore(s[k], s[j - 1]);
      }
      assert s[k].matchScore >= x.matchScore && s[k].inputIndex < x.inputIndex;
    }
  }

  /**
   * One pass of the insertion sort: moves a[i] left past the entries with a
   * strictly lower score, so that a[..i + 1] is ranked; a[i + 1..] is left
   * alone.
   */
  method InsertEntry(a: array<ScoredTherapist>, i: nat)
    modifies a
    requires i < a.Length
    requires forall k, l | 0 <= k < l < i :: RankedBefore(a[k], a[l])
    requires forall k | 0 <= k < i :: a[k].inputIndex < i
    requires a[i].inputIndex == i
    ensures forall k, l | 0 <= k < l <= i :: RankedBefore(a[k], a[l])
    ensures forall k | 0 <= k <= i :: a[k].inputIndex <= i
    ensures forall k | i < k < a.Length :: a[k] == old(a[k])
    ensures multiset(a[..]) == multiset(old(a[..]))
  {
    ghost var x := a[i];
    ghost var start := a[..];
    var j := i;
    assert Inserting(a[..], j, i, x);
    while j > 0 && a[j - 1].matchScore < a[j].matchScore
      invariant 0 <= j <= i
      invariant Inserting(a[..], j, i, x)
      invariant a[i + 1..] == start[i + 1..]
      invariant multiset(a[..]) == multiset(start)
    {
      ghost var before := a[..];
      a[j - 1], a[j] := a[j], a[j - 1];
      ghost var after := a[..];
      assert after == before[j - 1 := before[j]][j := before[j - 1]];
      SwapKeepsInserting(before, after, j, i, x);
      SwapKeepsEntries(before, after, j, i);
      j := j - 1;
    }
    StoppedIsRanked(a[..], j, i, x);
    SuffixKept(a[..], start, i);
  }

  /** Equal suffixes agree position by position. */
  lemma SuffixKept(s: seq<ScoredTherapist>, t: seq<ScoredTherapist>, i: nat)
    requires i < |s| == |t| && s[i + 1..] == t[i + 1..]
    ensures forall k | i < k < |s| :: s[k] == t[k]
  {
    forall k | i < k < |s| ensures s[k] == t[k] {
      assert s[k] == s[i + 1..][k - i - 1];
    }
  }

  /**
   * Scores every candidate, sorts, and keeps the first limitNum. The result
   * is a prefix of the ranked arrangement of all scored candidates.
   */
  method RankCandidates(a: Answers, candidates: seq<TherapistProfile>, limitNum: int)
    returns (recommendations: seq<ScoredTherapist>, ranked: seq<ScoredTherapist>)
    ensures |ranked| == |candidates|
    ensures multiset(ranked) == multiset(ScoredCandidates(a, candidates))
    ensures Ranked(ranked)
    ensures recommendations == ranked[..SliceEnd(|candidates|, limitNum)]
  {
    var scored: seq<ScoredTherapist> := [];
    var i := 0;
    while i < |candidates|
      invariant 0 <= i <= |candidates|
      invariant scored == ScoredCandidates(a, candidates[..i])
    {
      var score := CalculateTherapistScore(a, candidates[i]);
      scored := scored + [ScoredTherapist(candidates[i], score, RoundHalfUp(score), i)];
      i := i + 1;
    }
    assert candidates[..i] == candidates;
    var arr := new ScoredTherapist[|scored|](k requires 0 <= k < |scored| => scored[k]);
    assert arr[..] == scored;
    SortByScore(arr);
    ranked := arr[..];
    recommendations := arr[..SliceEnd(|candidates|, limitNum)];
  }
}
