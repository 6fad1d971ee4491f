/**
 * The assessment document: seven questionnaire answers, each a closed
 * enumeration except the free-text "other concern" and the 1..5 impact level.
 */
module AssessmentModel {
  import opened Common

  datatype AgeGroup = Age18To24 | Age25To34 | Age35To44 | Age45To54 | Age55To64 | Age65Plus

  datatype Occupation = Student | EmployedFullTime | EmployedPartTime | SelfEmployed | Unemployed | Retired

  datatype Lifestyle = HighStressFastPaced | ModeratelyBusy | Balanced | RelaxedLowStress

  datatype ActivityLevel = Sedentary | LightlyActive | ModeratelyActive | VeryActive

  datatype Concern =
    | Anxiety | Depression | Overthinking | Stress | LowSelfEsteem | SelfImprovement
    | AngerIssues | GriefLoss | SleepDisturbances | OCD | SexualDysfunction
    | BipolarDisorder | Addiction | AutismSpectrumDisorder | NoneOfTheAbove

  datatype Duration = LessThanAMonth | OneToSixMonths | SixMonthsToAYear | MoreThanAYear

  function AgeGroupName(a: AgeGroup): string {
    match a
    case Age18To24 => "18-24"
    case Age25To34 => "25-34"
    case Age35To44 => "35-44"
    case Age45To54 => "45-54"
    case Age55To64 => "55-64"
    case Age65Plus => "65+"
  }

  function OccupationName(o: Occupation): string {
    match o
    case Student => "Student"
    case EmployedFullTime => "Employed (Full-time)"
    case EmployedPartTime => "Employed (Part-time)"
    case SelfEmployed => "Self-employed"
    case Unemployed => "Unemployed"
    case Retired => "Retired"
  }

  function LifestyleName(l: Lifestyle): string {
    match l
    case HighStressFastPaced => "High-stress, fast-paced"
    case ModeratelyBusy => "Moderately busy, some downtime"
    case Balanced => "Balanced between work and personal life"
    case RelaxedLowStress => "Relaxed, low-stress"
  }

  function ActivityLevelName(a: ActivityLevel): string {
    match a
    case Sedentary => "Sedentary (little to no exercise)"
    case LightlyActive => "Lightly active (walking, yoga, stretching)"
    case ModeratelyActive => "Moderately active (exercise 3-4 days a week)"
    case VeryActive => "Very active (intense workouts, sports, daily exercise)"
  }

  function ConcernName(c: Concern): string {
    match c
    case Anxiety => "Anxiety"
    case Depression => "Depression"
    case Overthinking => "Overthinking"
    case Stress => "Stress"
    case LowSelfEsteem => "Low self-esteem"
    case SelfImprovement => "Self-improvement"
    case AngerIssues => "Anger issues"
    case GriefLoss => "Grief/loss"
    case SleepDisturbances => "Sleep disturbances"
    case OCD => "OCD"
    case SexualDysfunction => "Sexual dysfunction"
    case BipolarDisorder => "Bipolar disorder"
    case Addiction => "Addiction"
    case AutismSpectrumDisorder => "Autism spectrum disorder"
    case NoneOfTheAbove => "None of the above"
  }

  function DurationName(d: Duration): string {
    match d
    case LessThanAMonth => "Less than a month"
    case OneToSixMonths => "1-6 months"
    case SixMonthsToAYear => "6 months - 1 year"
    case MoreThanAYear => "More than 1 year"
  }

  function ParseAgeGroup(s: string): (r: Option<AgeGroup>)
    ensures r.Some? ==> AgeGroupName(r.value) == s
    ensures r.None? ==> forall g: AgeGroup :: AgeGroupName(g) != s
  {
    if s == "18-24" then Some(Age18To24)
    else if s == "25-34" then Some(Age25To34)
    else if s == "35-44" then Some(Age35To44)
    else if s == "45-54" then Some(Age45To54)
    else if s == "55-64" then Some(Age55To64)
    else if s == "65+" then Some(Age65Plus)
    else None
  }

  function ParseOccupation(s: string): (r: Option<Occupation>)
    ensures r.Some? ==> OccupationName(r.value) == s
    ensures r.None? ==> forall o: Occupation :: OccupationName(o) != s
  {
    if s == "Student" then Some(Student)
    else if s == "Employed (Full-time)" then Some(EmployedFullTime)
    else if s == "Employed (Part-time)" then Some(EmployedPartTime)
    else if s == "Self-employed" then Some(SelfEmployed)
    else if s == "Unemployed" then Some(Unemployed)
    else if s == "Retired" then Some(Retired)
    else None
  }

  function ParseActivityLevel(s: string): (r: Option<ActivityLevel>)
    ensures r.Some? ==> ActivityLevelName(r.value) == s
    ensures r.None? ==> forall a: ActivityLevel :: ActivityLevelName(a) != s
  {
    if s == "Sedentary (little to no exercise)" then Some(Sedentary)
    else if s == "Lightly active (walking, yoga, stretching)" then Some(LightlyActive)
    else if s == "Moderately active (exercise 3-4 days a week)" then Some(ModeratelyActive)
    else if s == "Very active (intense workouts, sports, daily exercise)" then Some(VeryActive)
    else None
  }

  /** The schema's concern enum, in its declared order. */
  const AllConcerns: seq<Concern> := [
    Anxiety, Depression, Overthinking, Stress, LowSelfEsteem, SelfImprovement,
    AngerIssues, GriefLoss, SleepDisturbances, OCD, SexualDysfunction,
    BipolarDisorder, Addiction, AutismSpectrumDisorder, NoneOfTheAbove]

  const AllLifestyles: seq<Lifestyle> := [HighStressFastPaced, ModeratelyBusy, Balanced, RelaxedLowStress]

  const AllDurations: seq<Duration> := [LessThanAMonth, OneToSixMonths, SixMonthsToAYear, MoreThanAYear]

  /** The Mongoose enum check on a concern tag: the tag whose name is s, if any. */
  function ParseConcern(s: string): (r: Option<Concern>)
    ensures r.Some? ==> ConcernName(r.value) == s
    ensures r.None? ==> forall c: Concern :: ConcernName(c) != s
  {
    if s == "Anxiety" then Some(Anxiety)
    else if s == "Depression" then Some(Depression)
    else if s == "Overthinking" then Some(Overthinking)
    else if s == "Stress" then Some(Stress)
    else if s == "Low self-esteem" then Some(LowSelfEsteem)
    else if s == "Self-improvement" then Some(SelfImprovement)
    else if s == "Anger issues" then Some(AngerIssues)
    else if s == "Grief/loss" then Some(GriefLoss)
    else if s == "Sleep disturbances" then Some(SleepDisturbances)
    else if s == "OCD" then Some(OCD)
    else if s == "Sexual dysfunction" then Some(SexualDysfunction)
    else if s == "Bipolar disorder" then Some(BipolarDisorder)
    else if s == "Addiction" then Some(Addiction)
    else if s == "Autism spectrum disorder" then Some(AutismSpectrumDisorder)
    else if s == "None of the above" then Some(NoneOfTheAbove)
    else None
  }

  function ParseLifestyle(s: string): (r: Option<Lifestyle>)
    ensures r.Some? ==> LifestyleName(r.value) == s
    ensures r.None? ==> forall l: Lifestyle :: LifestyleName(l) != s
  {
    if s == "High-stress, fast-paced" then Some(HighStressFastPaced)
    else if s == "Moderately busy, some downtime" then Some(ModeratelyBusy)
    else if s == "Balanced between work and personal life" then Some(Balanced)
    else if s == "Relaxed, low-stress" then Some(RelaxedLowStress)
    else None
  }

  function ParseDuration(s: string): (r: Option<Duration>)
    ensures r.Some? ==> DurationName(r.value) == s
    ensures r.None? ==> forall d: Duration :: DurationName(d) != s
  {
    if s == "Less than a month" then Some(LessThanAMonth)
    else if s == "1-6 months" then Some(OneToSixMonths)
    else if s == "6 months - 1 year" then Some(SixMonthsToAYear)
    else if s == "More than 1 year" then Some(MoreThanAYear)
    else None
  }

  /** The concern enum has exactly the 15 listed tags, and no two tags share a name. */
  lemma ConcernsAreClosed()
    ensures |AllConcerns| == 15 && forall c: Concern :: c in AllConcerns
    ensures forall c1: Concern, c2: Concern :: ConcernName(c1) == ConcernName(c2) ==> c1 == c2
  {
    EveryConcernListed();
    forall c1: Concern, c2: Concern | ConcernName(c1) == ConcernName(c2) ensures c1 == c2 {
      ConcernNamesDiffer(c1, c2);
    }
  }

  /** Every concern tag is in the schema's enum list. */
  lemma EveryConcernListed()
    ensures forall c: Concern :: c in AllConcerns
  {
    forall c: Concern ensures c in AllConcerns {
      match c
      case Anxiety => assert AllConcerns[0] == c;
      case Depression => assert AllConcerns[1] == c;
      case Overthinking => assert AllConcerns[2] == c;
      case Stress => assert AllConcerns[3] == c;
      case LowSelfEsteem => assert AllConcerns[4] == c;
      case SelfImprovement => assert AllConcerns[5] == c;
      case AngerIssues => assert AllConcerns[6] == c;
      case GriefLoss => assert AllConcerns[7] == c;
      case SleepDisturbances => assert AllConcerns[8] == c;
      case OCD => assert AllConcerns[9] == c;
      case SexualDysfunction => assert AllConcerns[10] == c;
      case BipolarDisorder => assert AllConcerns[11] == c;
      case Addiction => assert AllConcerns[12] == c;
      case AutismSpectrumDisorder => assert AllConcerns[13] == c;
      case NoneOfTheAbove => assert AllConcerns[14] == c;
    }
  }

  /** No two concern tags agree on the length and the first two characters of their names. */
  lemma ConcernNamesDiffer(c1: Concern, c2: Concern)
    ensures ConcernName(c1) == ConcernName(c2) ==> c1 == c2
  {
    var n1, n2 := ConcernName(c1), ConcernName(c2);
    if n1 == n2 {
      assert |n1| == |n2| && n1[0] == n2[0] && n1[1] == n2[1];
    }
  }

  /** Parsing a concern tag's own name gives the tag back. */
  lemma ConcernNameRoundTrip(c: Concern)
    ensures ParseConcern(ConcernName(c)) == Some(c)
  {
    var r := ParseConcern(ConcernName(c));
    assert r.Some?;
    ConcernNamesDiffer(r.value, c);
  }

  /** The lifestyle enum has exactly the 4 listed tags, and no two tags share a name. */
  lemma LifestylesAreClosed()
    ensures |AllLifestyles| == 4 && forall l: Lifestyle :: l in AllLifestyles
    ensures forall l1: Lifestyle, l2: Lifestyle :: LifestyleName(l1) == LifestyleName(l2) ==> l1 == l2
  {
    forall l: Lifestyle ensures l in AllLifestyles {
      match l
      case HighStressFastPaced => assert AllLifestyles[0] == l;
      case ModeratelyBusy => assert AllLifestyles[1] == l;
      case Balanced => assert AllLifestyles[2] == l;
      case RelaxedLowStress => assert AllLifestyles[3] == l;
    }
    forall l1: Lifestyle, l2: Lifestyle | LifestyleName(l1) == LifestyleName(l2) ensures l1 == l2 {
      LifestyleNameRoundTrip(l1);
      LifestyleNameRoundTrip(l2);
    }
  }

  /** Parsing a lifestyle tag's own name gives the tag back. */
  lemma LifestyleNameRoundTrip(l: Lifestyle)
    ensures ParseLifestyle(LifestyleName(l)) == Some(l)
  {
    match l
    case HighStressFastPaced =>
    case ModeratelyBusy =>
    case Balanced =>
    case RelaxedLowStress =>
  }

  /** The duration enum has exactly the 4 listed tags, and no two tags share a name. */
  lemma DurationsAreClosed()
    ensures |AllDurations| == 4 && forall d: Duration :: d in AllDurations
    ensures forall d1: Duration, d2: Duration :: DurationName(d1) == DurationName(d2) ==> d1 == d2
  {
    forall d: Duration ensures d in AllDurations {
      match d
      case LessThanAMonth => assert AllDurations[0] == d;
      case OneToSixMonths => assert AllDurations[1] == d;
      case SixMonthsToAYear => assert AllDurations[2] == d;
      case MoreThanAYear => assert AllDurations[3] == d;
    }
    forall d1: Duration, d2: Duration | DurationName(d1) == DurationName(d2) ensures d1 == d2 {
      DurationNameRoundTrip(d1);
      DurationNameRoundTrip(d2);
    }
  }

  /** Parsing a duration tag's own name gives the tag back. */
  lemma DurationNameRoundTrip(d: Duration)
    ensures ParseDuration(DurationName(d)) == Some(d)
  {
    match d
    case LessThanAMonth =>
    case OneToSixMonths =>
    case SixMonthsToAYear =>
    case MoreThanAYear =>
  }

  /** The answers sub-document; absent answers are None. */
  datatype Answers = Answers(
    ageGroup: Option<AgeGroup>,
    occupation: Option<Occupation>,
    lifestyle: Option<Lifestyle>,
    activityLevel: Option<ActivityLevel>,
    concerns: seq<Concern>,
    otherConcern: Option<string>,
    duration: Option<Duration>,
    impactLevel: Option<int>)

  datatype Assessment = Assessment(patientId: UserId, answers: Answers)

  /** The schema's range on impactLevel (min 1, max 5). */
  predicate SchemaValid(a: Answers) {
    a.impactLevel.Some? ==> 1 <= a.impactLevel.value <= 5
  }
}
