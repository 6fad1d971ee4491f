/**
 * getFeedbackStats and getTherapistRating: counts, the rating
 * distribution, per-type counts, category averages and the overall
 * average over the visible feedback a user received.
 */
module FeedbackStats {
  import opened Common
  import opened Envelopes
  import opened Scoring
  import opened FeedbackModel
  import opened Feedbacks

  /** Feedback.find({ toUser, isVisible: true }), in stored order. */
  function ReceivedVisible(feedbacks: seq<Feedback>, user: UserId): (r: seq<Feedback>)
    ensures forall f | f in r :: f in feedbacks && f.toUser == user && f.isVisible
    ensures forall f | f in feedbacks && f.toUser == user && f.isVisible :: f in r
  {
    if feedbacks == [] then []
    else (if feedbacks[0].toUser == user && feedbacks[0].isVisible then [feedbacks[0]] else [])
         + ReceivedVisible(feedbacks[1..], user)
  }

  /** The number of entries whose overall rating is exactly k. */
  function CountRating(fs: seq<Feedback>, k: real): (n: nat)
    ensures n <= |fs|
  {
    if fs == [] then 0 else (if fs[0].overallRating == k then 1 else 0) + CountRating(fs[1..], k)
  }

  /** The count is the number of positions whose overall rating is k: filter(...).length. */
  lemma {:induction false} CountRatingIsMatchingPositions(fs: seq<Feedback>, k: real)
    ensures CountRating(fs, k) == |Positions(fs, (f: Feedback) => f.overallRating == k)|
  {
    if fs != [] {
      assert fs == [fs[0]] + fs[1..];
      PositionsCons(fs[0], fs[1..], (f: Feedback) => f.overallRating == k);
      CountRatingIsMatchingPositions(fs[1..], k);
    }
  }

  /** The number of entries of type t. */
  function CountType(fs: seq<Feedback>, t: FeedbackType): (n: nat)
    ensures n <= |fs|
  {
    if fs == [] then 0 else (if fs[0].feedbackType == t then 1 else 0) + CountType(fs[1..], t)
  }

  /** The count is the number of positions holding feedback of type t. */
  lemma {:induction false} CountTypeIsMatchingPositions(fs: seq<Feedback>, t: FeedbackType)
    ensures CountType(fs, t) == |Positions(fs, (f: Feedback) => f.feedbackType == t)|
  {
    if fs != [] {
      assert fs == [fs[0]] + fs[1..];
      PositionsCons(fs[0], fs[1..], (f: Feedback) => f.feedbackType == t);
      CountTypeIsMatchingPositions(fs[1..], t);
    }
  }

  /** The ratings distribution 1..5. */
  function Distribution(fs: seq<Feedback>): (d: seq<nat>)
    ensures |d| == 5 && forall j | 0 <= j < 5 :: d[j] == CountRating(fs, (j + 1) as real)
  {
    var d := [CountRating(fs, 1.0), CountRating(fs, 2.0), CountRating(fs, 3.0), CountRating(fs, 4.0), CountRating(fs, 5.0)];
    assert forall j | 0 <= j < 5 :: d[j] == CountRating(fs, (j + 1) as real) by {
      forall j | 0 <= j < 5 ensures d[j] == CountRating(fs, (j + 1) as real) {
        assert j == 0 || j == 1 || j == 2 || j == 3 || j == 4;
      }
    }
    d
  }

  predicate WholeRating(r: real) {
    r == 1.0 || r == 2.0 || r == 3.0 || r == 4.0 || r == 5.0
  }

  /** With whole-number ratings the five buckets together count every feedback exactly once. */
  lemma {:induction false} DistributionCoversAll(fs: seq<Feedback>)
    requires forall i | 0 <= i < |fs| :: WholeRating(fs[i].overallRating)
    ensures var d := Distribution(fs); d[0] + d[1] + d[2] + d[3] + d[4] == |fs|
  {
    if fs != [] {
      assert forall i | 0 <= i < |fs[1..]| :: fs[1..][i] == fs[i + 1];
      DistributionCoversAll(fs[1..]);
    }
  }

  /** A rating strictly between two whole numbers (2.5 after an update, say) falls in no bucket. */
  lemma {:induction false} FractionalRatingUncounted(fs: seq<Feedback>, k: nat)
    requires k < |fs| && !WholeRating(fs[k].overallRating)
    ensures var d := Distribution(fs); d[0] + d[1] + d[2] + d[3] + d[4] < |fs|
  {
    BucketsAtMostLength(fs);
    if k == 0 {
      BucketsAtMostLength(fs[1..]);
    } else {
      FractionalRatingUncounted(fs[1..], k - 1);
    }
  }

  lemma {:induction false} BucketsAtMostLength(fs: seq<Feedback>)
    ensures var d := Distribution(fs); d[0] + d[1] + d[2] + d[3] + d[4] <= |fs|
  {
    if fs != [] {
      BucketsAtMostLength(fs[1..]);
    }
  }

  /** Every feedback has one of the three types, so the per-type counts add up to the total. */
  lemma {:induction false} TypeCountsCoverAll(fs: seq<Feedback>)
    ensures CountType(fs, PatientToTherapist) + CountType(fs, TherapistToPatient) + CountType(fs, SupervisorToTherapist) == |fs|
  {
    if fs != [] {
      TypeCountsCoverAll(fs[1..]);
    }
  }

  /** The non-null values of one category across the feedback, in collection order. */
  function CategoryValues(fs: seq<Feedback>, c: Category): (r: seq<real>)
    ensures r == [] <==> forall i | 0 <= i < |fs| :: RatingOf(fs[i].categoryRatings, c).None?
    ensures var idx := Positions(fs, RatesCategory(c));
      |r| == |idx| && forall k | 0 <= k < |r| :: r[k] == RatingOf(fs[idx[k]].categoryRatings, c).value
  {
    var rated := Filter(fs, RatesCategory(c));
    var idx := Positions(fs, RatesCategory(c));
    var r := seq(|rated|, k requires 0 <= k < |rated| => RatingOf(rated[k].categoryRatings, c).value);
    assert r != [] ==> RatingOf(fs[idx[0]].categoryRatings, c).Some?;
    forall i | 0 <= i < |fs| && r == [] ensures RatingOf(fs[i].categoryRatings, c).None? {
      assert RatesCategory(c)(fs[i]) == RatingOf(fs[i].categoryRatings, c).Some?;
    }
    r
  }

  /** The filter the statistics apply to one category's values, as a function value. */
  function RatesCategory(c: Category): Feedback -> bool {
    (f: Feedback) => RatingOf(f.categoryRatings, c).Some?
  }

  /** A category's average appears only when some feedback rated it. */
  function CategoryAverage(fs: seq<Feedback>, c: Category): (r: Option<real>)
    ensures r.Some? <==> exists i | 0 <= i < |fs| :: RatingOf(fs[i].categoryRatings, c).Some?
  {
    var vs := CategoryValues(fs, c);
    if vs == [] then None else Some(Round2(Sum(vs) / |vs| as real))
  }

  /** A category's average is the mean of its values, to two decimals. */
  lemma CategoryAverageIsMean(fs: seq<Feedback>, c: Category)
    ensures var r := CategoryAverage(fs, c);
      r.Some? ==> var vs := CategoryValues(fs, c);
      vs != [] && r.value - 0.005 <= Sum(vs) / |vs| as real < r.value + 0.005
      && WholeHundredths(r.value)
  {
    var vs := CategoryValues(fs, c);
    if vs != [] {
      var x := Sum(vs) / |vs| as real;
      assert CategoryAverage(fs, c) == Some(Round2(x));
    }
  }

  datatype Stats = Stats(
    userId: UserId,
    totalFeedbackReceived: nat,
    averageRating: real,
    ratingDistribution: seq<nat>,
    categoryAverages: map<Category, real>,
    feedbackByType: (nat, nat, nat))

  function AllOverall(fs: seq<Feedback>): (r: seq<real>)
    ensures |r| == |fs| && forall i | 0 <= i < |fs| :: r[i] == fs[i].overallRating
  {
    if fs == [] then [] else [fs[0].overallRating] + AllOverall(fs[1..])
  }

  /** categoryAverages: an entry for exactly the categories some feedback rated. */
  function CategoryAverages(rs: seq<Feedback>): (m: map<Category, real>)
    ensures forall c :: c in m <==> CategoryAverage(rs, c).Some?
    ensures forall c | c in m :: m[c] == CategoryAverage(rs, c).value
  {
    forall c: Category ensures c in AllCategories {
      AllCategoriesComplete(c);
    }
    map c | c in AllCategories && CategoryAverage(rs, c).Some? :: CategoryAverage(rs, c).value
  }

  /** The statistics over the visible feedback the user received. */
  function StatsOf(feedbacks: seq<Feedback>, user: UserId): (s: Stats)
    ensures var rs := ReceivedVisible(feedbacks, user);
      && s.userId == user
      && s.totalFeedbackReceived == |rs|
      && (rs == [] ==> s.averageRating == 0.0)
      && (rs != [] ==> s.averageRating - 0.005 <= Sum(AllOverall(rs)) / |rs| as real < s.averageRating + 0.005)
      && |s.ratingDistribution| == 5
      && (forall j | 0 <= j < 5 :: s.ratingDistribution[j] == CountRating(rs, (j + 1) as real))
      && (forall c :: c in s.categoryAverages <==> CategoryAverage(rs, c).Some?)
      && (forall c | c in s.categoryAverages :: s.categoryAverages[c] == CategoryAverage(rs, c).value)
      && s.feedbackByType == (CountType(rs, PatientToTherapist), CountType(rs, TherapistToPatient),
                              CountType(rs, SupervisorToTherapist))
  {
    var rs := ReceivedVisible(feedbacks, user);
    var overall := AllOverall(rs);
    var average := MeanOrZero(overall);
    assert rs != [] ==> average - 0.005 <= Sum(overall) / |rs| as real < average + 0.005;
    Stats(user, |rs|, average, Distribution(rs),
      CategoryAverages(rs),
      (CountType(rs, PatientToTherapist), CountType(rs, TherapistToPatient), CountType(rs, SupervisorToTherapist)))
  }

  /**
   * The per-type counts of the statistics add up to the total received, and
   * so do the five buckets when every received rating is a whole number.
   */
  lemma StatsCountsCoverTotal(feedbacks: seq<Feedback>, user: UserId)
    ensures var s := StatsOf(feedbacks, user);
      s.feedbackByType.0 + s.feedbackByType.1 + s.feedbackByType.2 == s.totalFeedbackReceived
    ensures (forall f | f in feedbacks && f.toUser == user && f.isVisible :: WholeRating(f.overallRating)) ==>
      var d := StatsOf(feedbacks, user).ratingDistribution;
      d[0] + d[1] + d[2] + d[3] + d[4] == StatsOf(feedbacks, user).totalFeedbackReceived
  {
    var rs := ReceivedVisible(feedbacks, user);
    TypeCountsCoverAll(rs);
    if forall f | f in feedbacks && f.toUser == user && f.isVisible :: WholeRating(f.overallRating) {
      assert forall i | 0 <= i < |rs| :: rs[i] in rs;
      DistributionCoversAll(rs);
    }
  }

  /** getFeedbackStats: a user's own statistics, or anyone's for an admin. */
  function StatsStep(requester: Requester, user: UserId, userExists: bool, feedbacks: seq<Feedback>): (r: Reply<Stats>)
    ensures r.Ok? <==> (requester.id == user || requester.role == Admin) && userExists
    ensures r.Ok? ==> r.response.data == StatsOf(feedbacks, user)
  {
    if requester.id != user && requester.role != Admin then Fail(403, "You can only view your own feedback statistics")
    else if !userExists then Fail(404, "User not found")
    else Succeed(200, StatsOf(feedbacks, user), "Feedback statistics retrieved successfully")
  }

  /** getTherapistRating: the public average the matching uses, the same as the stored refresh. */
  function TherapistRating(therapist: UserId, isTherapist: bool, feedbacks: seq<Feedback>): (r: Reply<(nat, real)>)
    ensures r.Ok? <==> isTherapist
    ensures r.Ok? ==> r.response.data == (|TherapistRatings(feedbacks, therapist)|, TherapistAverage(feedbacks, therapist))
  {
    if !isTherapist then Fail(404, "Therapist not found")
    else Succeed(200, (|TherapistRatings(feedbacks, therapist)|, TherapistAverage(feedbacks, therapist)),
                 "Therapist rating retrieved successfully")
  }
}
