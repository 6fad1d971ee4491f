/**
 * calculateTherapistScore: the weighted sum of seven factors that rates how
 * well a therapist profile suits a patient's assessment answers, rounded to
 * two decimals. The factors are specification functions; the method computes
 * the same value the way the controller does, with an accumulator and loops.
 */
module Scoring {
  import opened Common
  import opened Text
  import opened AssessmentModel
  import opened TherapistModel

  /** The concern-to-keyword table; "None of the above" has no entry. */
  const ConcernKeywords: map<Concern, seq<string>> := map[
    Anxiety := ["anxiety", "stress", "panic", "worry", "cognitive behavioral therapy", "cbt"],
    Depression := ["depression", "mood", "sadness", "bipolar", "major depressive disorder"],
    Overthinking := ["anxiety", "cognitive behavioral therapy", "cbt", "mindfulness"],
    Stress := ["stress", "anxiety", "burnout", "work-life balance"],
    LowSelfEsteem := ["self-esteem", "confidence", "self-worth", "identity"],
    SelfImprovement := ["personal growth", "self-improvement", "coaching", "positive psychology"],
    AngerIssues := ["anger management", "emotional regulation", "impulse control"],
    GriefLoss := ["grief", "loss", "bereavement", "trauma"],
    SleepDisturbances := ["sleep", "insomnia", "sleep disorders"],
    OCD := ["ocd", "obsessive compulsive", "anxiety", "exposure therapy"],
    SexualDysfunction := ["sexual health", "intimacy", "relationships", "sex therapy"],
    BipolarDisorder := ["bipolar", "mood disorders", "depression", "mania"],
    Addiction := ["addiction", "substance abuse", "recovery", "12-step"],
    AutismSpectrumDisorder := ["autism", "asd", "developmental", "neurodevelopmental"]
  ]

  /** concernKeywords[concern] || []. */
  function KeywordsOf(c: Concern): seq<string> {
    if c in ConcernKeywords then ConcernKeywords[c] else []
  }

  // Factor weights.
  const SpecializationWeight: real := 40.0
  const ExperienceWeight: real := 20.0
  const RatingWeight: real := 20.0
  const VerificationWeight: real := 10.0
  const AvailabilityWeight: real := 10.0
  const MultiMatchBonus: real := 5.0
  const TopRatingBonus: real := 3.0
  const FastPacedBonus: real := 3.0
  const RelaxedStudentBonus: real := 2.0
  const ChronicBonus: real := 5.0

  /** The largest score any profile with a rating in [0,5] can reach. */
  const MaxScore: real := 116.0

  /** specializations.map(s => s.toLowerCase()). */
  function LowerAll(specs: seq<string>): (r: seq<string>)
    ensures |r| == |specs| && forall i | 0 <= i < |specs| :: r[i] == Lower(specs[i])
  {
    seq(|specs|, i requires 0 <= i < |specs| => Lower(specs[i]))
  }

  /** specsLower.some(spec => spec.includes(keyword)). */
  predicate SomeSpecIncludes(specsLower: seq<string>, keyword: string) {
    |specsLower| > 0 && (Contains(specsLower[0], keyword) || SomeSpecIncludes(specsLower[1..], keyword))
  }

  /** keywords.some(keyword => SomeSpecIncludes(specsLower, keyword)). */
  predicate SomeKeywordIncluded(keywords: seq<string>, specsLower: seq<string>) {
    |keywords| > 0 && (SomeSpecIncludes(specsLower, keywords[0]) || SomeKeywordIncluded(keywords[1..], specsLower))
  }

  /**
   * The scorer's hasMatch: some keyword of the concern's table entry is a
   * substring of some lowercased specialization (ScoringProperties.ConcernMatchesIff).
   */
  predicate ConcernMatches(c: Concern, specsLower: seq<string>) {
    SomeKeywordIncluded(KeywordsOf(c), specsLower)
  }

  /** The number of concerns that match, counted from the front like forEach. */
  function MatchCount(concerns: seq<Concern>, specsLower: seq<string>): (n: nat)
    ensures n <= |concerns|
  {
    if concerns == [] then 0
    else MatchCount(concerns[..|concerns| - 1], specsLower)
         + (if ConcernMatches(concerns[|concerns| - 1], specsLower) then 1 else 0)
  }

  /** Factor 1: (matched / total) * 40, plus 5 when more than one concern matched; 0 without specializations. */
  function SpecializationPoints(concerns: seq<Concern>, specs: seq<string>): real {
    if |specs| == 0 then 0.0
    else
      var m := MatchCount(concerns, LowerAll(specs));
      (if |concerns| > 0 then (m as real / |concerns| as real) * SpecializationWeight else 0.0)
      + (if m > 1 then MultiMatchBonus else 0.0)
  }

  /** impactLevel >= 4 (an absent impact level compares false). */
  predicate HighImpact(impactLevel: Option<int>) {
    impactLevel.Some? && impactLevel.value >= 4
  }

  /** Factor 2: the experience tier; high impact raises the thresholds from 1/2/5 to 2/5/10. */
  function ExperiencePoints(impactLevel: Option<int>, years: int): real {
    if years == 0 then 0.0
    else if HighImpact(impactLevel) then
      if years >= 10 then ExperienceWeight
      else if years >= 5 then ExperienceWeight * 0.7
      else if years >= 2 then ExperienceWeight * 0.4
      else 0.0
    else
      if years >= 5 then ExperienceWeight
      else if years >= 2 then ExperienceWeight * 0.7
      else if years >= 1 then ExperienceWeight * 0.4
      else 0.0
  }

  /** Factor 3: (rating / 5) * 20, plus 3 from 4.5 up; a zero rating contributes nothing. */
  function RatingPoints(rating: real): real {
    if rating == 0.0 then 0.0
    else (rating / 5.0) * RatingWeight + (if rating >= 4.5 then TopRatingBonus else 0.0)
  }

  /** Factor 4: 10 for verified, 5 for pending, 0 for rejected. */
  function VerificationPoints(v: VerificationStatus): real {
    match v
    case Verified => VerificationWeight
    case Pending => VerificationWeight * 0.5
    case Rejected => 0.0
  }

  /** A day counts as available when its value is a non-empty array. */
  predicate IsAvailableDay(v: DayValue) {
    v.Slots? && |v.slots| > 0
  }

  /** The number of availability entries whose value is a non-empty array. */
  function AvailableDays(availability: Availability): (n: nat)
    ensures n <= |availability|
  {
    if availability == [] then 0
    else AvailableDays(availability[..|availability| - 1])
         + (if IsAvailableDay(availability[|availability| - 1].1) then 1 else 0)
  }

  /** Factor 5: 10 from five available days, 7 from three, 4 from one. */
  function AvailabilityPoints(days: nat): real {
    if days >= 5 then AvailabilityWeight
    else if days >= 3 then AvailabilityWeight * 0.7
    else if days >= 1 then AvailabilityWeight * 0.4
    else 0.0
  }

  /** Factor 6: +3 for a fast-paced lifestyle and 5+ years, else +2 for a relaxed lifestyle and a student. */
  function LifestylePoints(lifestyle: Option<Lifestyle>, years: int, isStudent: bool): real {
    if lifestyle == Some(HighStressFastPaced) then (if years >= 5 then FastPacedBonus else 0.0)
    else if lifestyle == Some(RelaxedLowStress) then (if isStudent then RelaxedStudentBonus else 0.0)
    else 0.0
  }

  /** Factor 7: +5 for a condition lasting more than a year and 7+ years of experience. */
  function ChronicPoints(duration: Option<Duration>, years: int): real {
    if duration == Some(MoreThanAYear) && years >= 7 then ChronicBonus else 0.0
  }

  /** The unrounded sum of the seven factors. */
  function RawScore(a: Answers, t: TherapistProfile): real {
    SpecializationPoints(a.concerns, t.specializations)
    + ExperiencePoints(a.impactLevel, t.yearsOfExperience)
    + RatingPoints(t.averageRating)
    + VerificationPoints(t.verificationStatus)
    + AvailabilityPoints(AvailableDays(t.availability))
    + LifestylePoints(a.lifestyle, t.yearsOfExperience, t.isStudent)
    + ChronicPoints(a.duration, t.yearsOfExperience)
  }

  /** Math.round: the nearest integer, halves rounded up. */
  function RoundHalfUp(x: real): (n: int)
    ensures x - 0.5 < n as real <= x + 0.5
  {
    (x + 0.5).Floor
  }

  /** Math.round(x * 100) / 100: a whole number of hundredths within half a hundredth of x. */
  /** x has at most two decimals, as a value toFixed(2) prints exactly. */
  predicate WholeHundredths(x: real) {
    (100.0 * x).Floor as real == 100.0 * x
  }

  function Round2(x: real): (r: real)
    ensures (100.0 * r).Floor as real == 100.0 * r
    ensures r - 0.005 <= x < r + 0.005
  {
    RoundHalfUp(100.0 * x) as real / 100.0
  }

  /** The score calculateTherapistScore returns. */
  function Score(a: Answers, t: TherapistProfile): real {
    Round2(RawScore(a, t))
  }

  /** The forEach over the concerns that counts those matching a specialization. */
  method CountMatches(concerns: seq<Concern>, specsLower: seq<string>) returns (matchCount: nat)
    ensures matchCount == MatchCount(concerns, specsLower)
  {
    matchCount := 0;
    var i := 0;
    while i < |concerns|
      invariant 0 <= i <= |concerns|
      invariant matchCount == MatchCount(concerns[..i], specsLower)
    {
      assert concerns[..i + 1][..i] == concerns[..i];
      if ConcernMatches(concerns[i], specsLower) {
        matchCount := matchCount + 1;
      }
      i := i + 1;
    }
    assert concerns[..i] == concerns;
  }

  /** The forEach over the availability entries that counts the available days. */
  method CountAvailableDays(availability: Availability) returns (availableDays: nat)
    ensures availableDays == AvailableDays(availability)
  {
    availableDays := 0;
    var j := 0;
    while j < |availability|
      invariant 0 <= j <= |availability|
      invariant availableDays == AvailableDays(availability[..j])
    {
      assert availability[..j + 1][..j] == availability[..j];
      if IsAvailableDay(availability[j].1) {
        availableDays := availableDays + 1;
      }
      j := j + 1;
    }
    assert availability[..j] == availability;
  }

  /**
   * The controller's computation: an accumulator grown factor by factor, with
   * forEach loops that count matched concerns and available days.
   */
  method CalculateTherapistScore(a: Answers, t: TherapistProfile) returns (score: real)
    ensures score == Score(a, t)
  {
    var acc := 0.0;
    if |t.specializations| > 0 {
      var specsLower := LowerAll(t.specializations);
      var matchCount := CountMatches(a.concerns, specsLower);
      var matchPercentage := if |a.concerns| > 0 then matchCount as real / |a.concerns| as real else 0.0;
      acc := acc + matchPercentage * SpecializationWeight;
      if matchCount > 1 {
        acc := acc + MultiMatchBonus;
      }
    }
    assert acc == SpecializationPoints(a.concerns, t.specializations);
    ghost var upToSpecialization := acc;
    var years := t.yearsOfExperience;
    if years != 0 {
      if HighImpact(a.impactLevel) {
        if years >= 10 {
          acc := acc + ExperienceWeight;
        } else if years >= 5 {
          acc := acc + ExperienceWeight * 0.7;
        } else if years >= 2 {
          acc := acc + ExperienceWeight * 0.4;
        }
      } else {
        if years >= 5 {
          acc := acc + ExperienceWeight;
        } else if years >= 2 {
          acc := acc + ExperienceWeight * 0.7;
        } else if years >= 1 {
          acc := acc + ExperienceWeight * 0.4;
        }
      }
    }
    assert acc == upToSpecialization + ExperiencePoints(a.impactLevel, years);
    ghost var upToExperience := acc;
    if t.averageRating != 0.0 {
      acc := acc + (t.averageRating / 5.0) * RatingWeight;
      if t.averageRating >= 4.5 {
        acc := acc + TopRatingBonus;
      }
    }
    assert acc == upToExperience + RatingPoints(t.averageRating);
    ghost var upToRating := acc;
    if t.verificationStatus == Verified {
      acc := acc + VerificationWeight;
    } else if t.verificationStatus == Pending {
      acc := acc + VerificationWeight * 0.5;
    }
    assert acc == upToRating + VerificationPoints(t.verificationStatus);
    ghost var upToVerification := acc;
    if |t.availability| > 0 {
      var availableDays := CountAvailableDays(t.availability);
      if availableDays >= 5 {
        acc := acc + AvailabilityWeight;
      } else if availableDays >= 3 {
        acc := acc + AvailabilityWeight * 0.7;
      } else if availableDays >= 1 {
        acc := acc + AvailabilityWeight * 0.4;
      }
    }
    assert acc == upToVerification + AvailabilityPoints(AvailableDays(t.availability));
    ghost var upToAvailability := acc;
    if a.lifestyle == Some(HighStressFastPaced) {
      if years >= 5 {
        acc := acc + FastPacedBonus;
      }
    } else if a.lifestyle == Some(RelaxedLowStress) {
      if t.isStudent {
        acc := acc + RelaxedStudentBonus;
      }
    }
    assert acc == upToAvailability + LifestylePoints(a.lifestyle, years, t.isStudent);
    ghost var upToLifestyle := acc;
    if a.duration == Some(MoreThanAYear) {
      if years >= 7 {
        acc := acc + ChronicBonus;
      }
    }
    assert acc == upToLifestyle + ChronicPoints(a.duration, years);
    assert acc == RawScore(a, t);
    score := Round2(acc);
  }
}
