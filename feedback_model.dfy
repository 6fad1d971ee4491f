/**
 * The Feedback document: its three types, overall and per-category
 * ratings, the validators Mongoose runs on save, the pre-save session
 * requirement and the averageCategoryRating virtual.
 */
module FeedbackModel {
  import opened Common
  import opened Text
  import opened Scoring
  import opened ScoringProperties

  datatype FeedbackType = PatientToTherapist | TherapistToPatient | SupervisorToTherapist

  function FeedbackTypeName(t: FeedbackType): string {
    match t
    case PatientToTherapist => "patient-to-therapist"
    case TherapistToPatient => "therapist-to-patient"
    case SupervisorToTherapist => "supervisor-to-therapist"
  }

  function ParseFeedbackType(s: string): (r: Option<FeedbackType>)
    ensures r.Some? ==> FeedbackTypeName(r.value) == s
    ensures r.None? ==> forall t: FeedbackType :: FeedbackTypeName(t) != s
  {
    if s == "patient-to-therapist" then Some(PatientToTherapist)
    else if s == "therapist-to-patient" then Some(TherapistToPatient)
    else if s == "supervisor-to-therapist" then Some(SupervisorToTherapist)
    else None
  }

  /** The twelve category ratings; four apply to each feedback type. */
  datatype Category =
    | Professionalism | Communication | Effectiveness | Empathy
    | Engagement | Progress | HomeworkCompletion | Openness
    | ClinicalSkills | Documentation | EthicalPractice | ProfessionalDevelopment

  const AllCategories: seq<Category> := [
    Professionalism, Communication, Effectiveness, Empathy,
    Engagement, Progress, HomeworkCompletion, Openness,
    ClinicalSkills, Documentation, EthicalPractice, ProfessionalDevelopment]

  lemma AllCategoriesComplete(c: Category)
    ensures c in AllCategories
  {
  }

  /** A category missing from the map, or mapped to None, is null. */
  type CategoryRatings = map<Category, Option<real>>

  function RatingOf(ratings: CategoryRatings, c: Category): Option<real> {
    if c in ratings then ratings[c] else None
  }

  datatype Feedback = Feedback(
    id: FeedbackId,
    feedbackType: FeedbackType,
    fromUser: UserId,
    toUser: UserId,
    sessionId: Option<SessionId>,
    overallRating: real,
    categoryRatings: CategoryRatings,
    comment: Option<string>,
    strengths: seq<string>,
    areasForImprovement: seq<string>,
    recommendations: Option<string>,
    isAnonymous: bool,
    isVisible: bool,
    isFlagged: bool,
    response: Option<(string, int)>,
    reviewPeriod: Option<string>)

  const MinRating: real := 1.0
  const MaxRating: real := 5.0
  const MaxCommentLength: nat := 2000
  const MaxRecommendationsLength: nat := 1000
  const MaxResponseLength: nat := 1000

  predicate InRatingRange(r: real) {
    MinRating <= r <= MaxRating
  }

  /** The schema validators: ratings in [1,5], length limits, and the comment stored trimmed. */
  predicate SchemaValid(f: Feedback) {
    && InRatingRange(f.overallRating)
    && (forall c | c in f.categoryRatings && f.categoryRatings[c].Some? :: InRatingRange(f.categoryRatings[c].value))
    && (f.comment.Some? ==> |f.comment.value| <= MaxCommentLength)
    && (f.recommendations.Some? ==> |f.recommendations.value| <= MaxRecommendationsLength)
    && (f.response.Some? ==> |f.response.value.0| <= MaxResponseLength)
  }

  /** The pre-save hook: session-related feedback must name a session. */
  predicate NeedsSession(t: FeedbackType) {
    t == PatientToTherapist || t == TherapistToPatient
  }

  predicate SessionRequirementMet(f: Feedback) {
    NeedsSession(f.feedbackType) ==> f.sessionId.Some?
  }

  const SessionRequiredMessage: string := "Session ID is required for session-related feedback"

  /** The non-null category ratings, in the order of the category list. */
  function PresentRatings(ratings: CategoryRatings, cs: seq<Category>): (r: seq<real>)
    ensures |r| <= |cs|
    ensures forall x | x in r :: exists c | c in cs :: RatingOf(ratings, c) == Some(x)
    ensures r == [] <==> forall c | c in cs :: RatingOf(ratings, c).None?
    ensures var idx := Positions(cs, IsRated(ratings));
      |r| == |idx| && forall k | 0 <= k < |r| :: r[k] == RatingOf(ratings, cs[idx[k]]).value
  {
    var rated := Filter(cs, IsRated(ratings));
    var r := seq(|rated|, k requires 0 <= k < |rated| => RatingOf(ratings, rated[k]).value);
    var idx := Positions(cs, IsRated(ratings));
    forall x | x in r ensures exists c | c in cs :: RatingOf(ratings, c) == Some(x) {
      var k :| 0 <= k < |r| && r[k] == x;
      assert RatingOf(ratings, cs[idx[k]]) == Some(x);
    }
    forall c | c in cs && r == [] ensures RatingOf(ratings, c).None? {
      FilterMembers(cs, IsRated(ratings), c);
    }
    assert r != [] ==> cs[idx[0]] in cs && RatingOf(ratings, cs[idx[0]]).Some?;
    r
  }

  /** The filter the virtual applies to the category values, as a function value. */
  function IsRated(ratings: CategoryRatings): Category -> bool {
    c => RatingOf(ratings, c).Some?
  }

  function Sum(xs: seq<real>): real {
    if xs == [] then 0.0 else xs[0] + Sum(xs[1..])
  }

  /** A sum of values in [lo, hi] lies between |xs| * lo and |xs| * hi. */
  lemma {:induction false} SumBounds(xs: seq<real>, lo: real, hi: real)
    requires forall x | x in xs :: lo <= x <= hi
    ensures |xs| as real * lo <= Sum(xs) <= |xs| as real * hi
  {
    if xs != [] {
      var rest := xs[1..];
      forall x | x in rest ensures lo <= x <= hi {
        assert x in xs;
      }
      SumBounds(rest, lo, hi);
      assert xs[0] in xs;
      BoundsGrowByOne(|rest| as real, lo, hi, xs[0], Sum(rest));
      assert |xs| as real == |rest| as real + 1.0;
    }
  }

  /** Adding one value in [lo, hi] to a sum of n such values gives a sum of n + 1. */
  lemma BoundsGrowByOne(n: real, lo: real, hi: real, x: real, s: real)
    requires lo <= x <= hi && n * lo <= s <= n * hi
    ensures (n + 1.0) * lo <= x + s <= (n + 1.0) * hi
  {
    assert (n + 1.0) * lo == n * lo + lo;
    assert (n + 1.0) * hi == n * hi + hi;
  }

  /** The mean of a non-empty list of ratings in [lo, hi] is in [lo, hi]. */
  lemma MeanBounds(xs: seq<real>, lo: real, hi: real)
    requires xs != [] && forall x | x in xs :: lo <= x <= hi
    ensures lo <= Sum(xs) / |xs| as real <= hi
  {
    SumBounds(xs, lo, hi);
    DivisionBounds(Sum(xs), |xs| as real, lo, hi);
  }

  lemma DivisionBounds(s: real, n: real, lo: real, hi: real)
    requires n > 0.0 && n * lo <= s <= n * hi
    ensures lo <= s / n <= hi
  {
    assert s / n - lo == (s - n * lo) / n;
    assert hi - s / n == (n * hi - s) / n;
  }

  /**
   * The averageCategoryRating virtual: null when no category is rated,
   * otherwise the mean of the rated ones to two decimals.
   */
  function AverageCategoryRating(f: Feedback): (r: Option<real>)
    ensures r.None? <==> forall c: Category :: RatingOf(f.categoryRatings, c).None?
    ensures SchemaValid(f) && r.Some? ==> MinRating <= r.value <= MaxRating
  {
    var r := RatedMean(f.categoryRatings, AllCategories);
    forall c: Category ensures c in AllCategories {
      AllCategoriesComplete(c);
    }
    if r.Some? then
      PresentRatingsInRange(f, PresentRatings(f.categoryRatings, AllCategories));
      r
    else r
  }

  /** A non-null virtual is the mean of the rated categories, to two decimals. */
  lemma AverageCategoryRatingIsMean(f: Feedback)
    ensures var r := AverageCategoryRating(f);
      r.Some? ==> var present := PresentRatings(f.categoryRatings, AllCategories);
      present != [] && r.value - 0.005 <= Sum(present) / |present| as real < r.value + 0.005
      && WholeHundredths(r.value)
  {
    AverageIsRatedMean(f);
  }

  /** The virtual takes the rated mean over the full category list. */
  lemma AverageIsRatedMean(f: Feedback)
    ensures AverageCategoryRating(f) == RatedMean(f.categoryRatings, AllCategories)
  {
  }

  /** The mean of the rated categories among cs, to two decimals, or null when none is rated. */
  function RatedMean(ratings: CategoryRatings, cs: seq<Category>): (r: Option<real>)
    ensures r.None? <==> forall c | c in cs :: RatingOf(ratings, c).None?
    ensures r.Some? ==> var present := PresentRatings(ratings, cs);
      present != [] && r.value == Round2(Sum(present) / |present| as real)
      && r.value - 0.005 <= Sum(present) / |present| as real < r.value + 0.005
      && WholeHundredths(r.value)
  {
    var present := PresentRatings(ratings, cs);
    if present == [] then None else Some(Round2(Sum(present) / |present| as real))
  }

  /** On a valid document the mean of the rated categories, rounded, stays in [1,5]. */
  lemma PresentRatingsInRange(f: Feedback, present: seq<real>)
    requires present == PresentRatings(f.categoryRatings, AllCategories) && present != []
    ensures SchemaValid(f) ==> MinRating <= Round2(Sum(present) / |present| as real) <= MaxRating
  {
    if SchemaValid(f) {
      PresentRatingsAreRatings(f, present);
      RoundedMeanInRange(present);
    }
  }

  /** On a valid document every present rating is between 1 and 5. */
  lemma PresentRatingsAreRatings(f: Feedback, present: seq<real>)
    requires present == PresentRatings(f.categoryRatings, AllCategories) && SchemaValid(f)
    ensures forall x | x in present :: InRatingRange(x)
  {
    forall x | x in present ensures InRatingRange(x) {
      var c :| c in AllCategories && RatingOf(f.categoryRatings, c) == Some(x);
    }
  }

  /** The mean of ratings in [1,5], rounded to hundredths, is in [1,5]. */
  lemma RoundedMeanInRange(xs: seq<real>)
    requires xs != []
    ensures (forall x | x in xs :: InRatingRange(x)) ==> MinRating <= Round2(Sum(xs) / |xs| as real) <= MaxRating
  {
    if forall x | x in xs :: InRatingRange(x) {
      MeanBounds(xs, MinRating, MaxRating);
      Round2Bounds(Sum(xs) / |xs| as real, 1, 5);
    }
  }
}
