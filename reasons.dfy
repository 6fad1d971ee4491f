/**
 * The match-reason checklist attached to each recommendation: at most one
 * entry per kind, in the order specialization, experience, rating,
 * verification, availability. Its concern matching differs from the
 * scorer's: it ignores the keyword table and accepts a substring in either
 * direction.
 */
module Reasons {
  import opened Common
  import opened Text
  import opened AssessmentModel
  import opened TherapistModel
  import Scoring
  import ScoringProperties

  datatype MatchReason =
    | SpecializesIn(concerns: seq<Concern>)
    | HighlyExperienced(years: int)
    | Experienced(years: int)
    | ExcellentRating(rating: real)
    | HighRating(rating: real)
    | VerifiedTherapist
    | HighlyAvailable

  /** The position of a reason's kind in the fixed checklist order. */
  function Kind(r: MatchReason): nat {
    match r
    case SpecializesIn(_) => 0
    case HighlyExperienced(_) => 1
    case Experienced(_) => 1
    case ExcellentRating(_) => 2
    case HighRating(_) => 2
    case VerifiedTherapist => 3
    case HighlyAvailable => 4
  }

  /**
   * The reason text. Numbers are rendered by formatNumber, standing for
   * JavaScript's number-to-string conversion inside template literals.
   */
  function ReasonText(r: MatchReason, formatNumber: real -> string): string {
    match r
    case SpecializesIn(cs) => "Specializes in: " + Join(ConcernNames(cs), ", ")
    case HighlyExperienced(y) => "Highly experienced (" + formatNumber(y as real) + "+ years)"
    case Experienced(y) => "Experienced (" + formatNumber(y as real) + " years)"
    case ExcellentRating(x) => "Excellent rating (" + formatNumber(x) + "/5)"
    case HighRating(x) => "High rating (" + formatNumber(x) + "/5)"
    case VerifiedTherapist => "Verified therapist"
    case HighlyAvailable => "Highly available"
  }

  function ConcernNames(cs: seq<Concern>): (r: seq<string>)
    ensures |r| == |cs| && forall i | 0 <= i < |cs| :: r[i] == ConcernName(cs[i])
  {
    seq(|cs|, i requires 0 <= i < |cs| => ConcernName(cs[i]))
  }

  /** The specialization reason names every matched concern. */
  lemma SpecializesInTextNamesEachConcern(cs: seq<Concern>, k: nat, formatNumber: real -> string)
    requires k < |cs|
    ensures Contains(ReasonText(SpecializesIn(cs), formatNumber), ConcernName(cs[k]))
  {
    var names := ConcernNames(cs);
    JoinContainsParts(names, ", ", k);
    ContainsAfterPrefix("Specializes in: ", Join(names, ", "), names[k]);
  }

  /**
   * spec.toLowerCase().includes(concernLower) || concernLower.includes(spec.toLowerCase())
   * for some specialization spec.
   */
  predicate SomeSpecRelated(specs: seq<string>, concernLower: string) {
    |specs| > 0
    && (Contains(Lower(specs[0]), concernLower) || Contains(concernLower, Lower(specs[0]))
        || SomeSpecRelated(specs[1..], concernLower))
  }

  /** A concern is listed when it and some specialization, lowercased, contain one another. */
  predicate Related(c: Concern, specs: seq<string>) {
    SomeSpecRelated(specs, Lower(ConcernName(c)))
  }

  lemma {:induction false} SomeSpecRelatedIff(specs: seq<string>, concernLower: string)
    ensures SomeSpecRelated(specs, concernLower)
            <==> exists s | s in specs :: Contains(Lower(s), concernLower) || Contains(concernLower, Lower(s))
  {
    if specs != [] {
      SomeSpecRelatedIff(specs[1..], concernLower);
      assert forall s :: s in specs <==> s == specs[0] || s in specs[1..];
    }
  }

  /** concerns.filter(concern => Related(concern, specs)), in assessment order. */
  function RelatedConcerns(concerns: seq<Concern>, specs: seq<string>): (r: seq<Concern>)
    ensures |r| <= |concerns|
    ensures forall c :: c in r <==> c in concerns && Related(c, specs)
    ensures var idx := Positions(concerns, c => Related(c, specs));
      |r| == |idx| && forall k | 0 <= k < |r| :: r[k] == concerns[idx[k]]
  {
    var r := Filter(concerns, c => Related(c, specs));
    assert forall c :: c in r <==> c in concerns && Related(c, specs) by {
      forall c ensures c in r <==> c in concerns && Related(c, specs) {
        FilterMembers(concerns, c => Related(c, specs), c);
      }
    }
    r
  }

  /** The checklist kinds strictly increase along the list. */
  predicate KindsIncrease(reasons: seq<MatchReason>) {
    forall i | 0 < i < |reasons| :: Kind(reasons[i - 1]) < Kind(reasons[i])
  }

  /**
   * The checklist for a profile with the given matched concerns, years,
   * rating, verification and available days.
   */
  predicate IsChecklist(matched: seq<Concern>, years: int, rating: real, verified: bool, days: nat,
                        reasons: seq<MatchReason>) {
    && KindsIncrease(reasons)
    && (SpecializesIn(matched) in reasons <==> |matched| > 0)
    && (forall r | r in reasons && r.SpecializesIn? :: r.concerns == matched)
    && (HighlyExperienced(years) in reasons <==> years >= 10)
    && (Experienced(years) in reasons <==> 5 <= years < 10)
    && (forall r | r in reasons && (r.HighlyExperienced? || r.Experienced?) :: r.years == years)
    && (ExcellentRating(rating) in reasons <==> rating >= 4.5)
    && (HighRating(rating) in reasons <==> 4.0 <= rating < 4.5)
    && (forall r | r in reasons && (r.ExcellentRating? || r.HighRating?) :: r.rating == rating)
    && (VerifiedTherapist in reasons <==> verified)
    && (HighlyAvailable in reasons <==> days >= 5)
  }

  /** The properties every reasons list the builder returns has. */
  predicate IsReasonList(a: Answers, t: TherapistProfile, reasons: seq<MatchReason>) {
    IsChecklist(RelatedConcerns(a.concerns, t.specializations), t.yearsOfExperience, t.averageRating,
                t.verificationStatus == Verified, Scoring.AvailableDays(t.availability), reasons)
  }

  lemma {:induction false} KindAtLeastIndex(reasons: seq<MatchReason>, i: nat)
    requires KindsIncrease(reasons) && i < |reasons|
    ensures Kind(reasons[i]) >= i
  {
    if i > 0 {
      KindAtLeastIndex(reasons, i - 1);
    }
  }

  lemma KindsIncreaseAtMostFive(reasons: seq<MatchReason>)
    requires KindsIncrease(reasons)
    ensures |reasons| <= 5
  {
    if |reasons| > 5 {
      KindAtLeastIndex(reasons, |reasons| - 1);
    }
  }

  /** At most one reason of each of the five kinds. */
  lemma AtMostFiveReasons(a: Answers, t: TherapistProfile, reasons: seq<MatchReason>)
    requires IsReasonList(a, t, reasons)
    ensures |reasons| <= 5
  {
    KindsIncreaseAtMostFive(reasons);
  }

  /** What the builder's first push leaves: at most the specialization reason. */
  predicate SpecializationPart(matched: seq<Concern>, p: seq<MatchReason>) {
    |p| <= 1 && (forall r | r in p :: r.SpecializesIn? && r.concerns == matched)
    && (SpecializesIn(matched) in p <==> |matched| > 0)
  }

  predicate ExperiencePart(years: int, p: seq<MatchReason>) {
    |p| <= 1 && (forall r | r in p :: (r.HighlyExperienced? || r.Experienced?) && r.years == years)
    && (HighlyExperienced(years) in p <==> years >= 10)
    && (Experienced(years) in p <==> 5 <= years < 10)
  }

  predicate RatingPart(rating: real, p: seq<MatchReason>) {
    |p| <= 1 && (forall r | r in p :: (r.ExcellentRating? || r.HighRating?) && r.rating == rating)
    && (ExcellentRating(rating) in p <==> rating >= 4.5)
    && (HighRating(rating) in p <==> 4.0 <= rating < 4.5)
  }

  predicate VerificationPart(verified: bool, p: seq<MatchReason>) {
    |p| <= 1 && (forall r | r in p :: r == VerifiedTherapist) && (VerifiedTherapist in p <==> verified)
  }

  predicate AvailabilityPart(days: nat, p: seq<MatchReason>) {
    |p| <= 1 && (forall r | r in p :: r == HighlyAvailable) && (HighlyAvailable in p <==> days >= 5)
  }

  /** The five pushes, each contributing at most one entry of its own kind, make a checklist. */
  lemma AssembledIsChecklist(matched: seq<Concern>, years: int, rating: real, verified: bool, days: nat,
                             p0: seq<MatchReason>, p1: seq<MatchReason>, p2: seq<MatchReason>,
                             p3: seq<MatchReason>, p4: seq<MatchReason>)
    requires SpecializationPart(matched, p0) && ExperiencePart(years, p1) && RatingPart(rating, p2)
    requires VerificationPart(verified, p3) && AvailabilityPart(days, p4)
    ensures IsChecklist(matched, years, rating, verified, days, p0 + p1 + p2 + p3 + p4)
  {
    ConcatenationKindsIncrease(p0, p1, p2, p3, p4);
    ProfileItems(matched, years, p0, p1, p2, p3, p4);
    StandingItems(rating, verified, days, p0, p1, p2, p3, p4);
  }

  /** The specialization and experience items of the assembled list come from their own pushes. */
  lemma ProfileItems(matched: seq<Concern>, years: int,
                     p0: seq<MatchReason>, p1: seq<MatchReason>, p2: seq<MatchReason>,
                     p3: seq<MatchReason>, p4: seq<MatchReason>)
    requires SpecializationPart(matched, p0) && ExperiencePart(years, p1)
    requires forall r | r in p2 :: r.ExcellentRating? || r.HighRating?
    requires forall r | r in p3 :: r == VerifiedTherapist
    requires forall r | r in p4 :: r == HighlyAvailable
    ensures var reasons := p0 + p1 + p2 + p3 + p4;
      && (SpecializesIn(matched) in reasons <==> |matched| > 0)
      && (forall r | r in reasons && r.SpecializesIn? :: r.concerns == matched)
      && (HighlyExperienced(years) in reasons <==> years >= 10)
      && (Experienced(years) in reasons <==> 5 <= years < 10)
      && (forall r | r in reasons && (r.HighlyExperienced? || r.Experienced?) :: r.years == years)
  {
    var reasons := p0 + p1 + p2 + p3 + p4;
    assert forall r :: r in reasons <==> r in p0 || r in p1 || r in p2 || r in p3 || r in p4;
  }

  /** The rating, verification and availability items of the assembled list come from their own pushes. */
  lemma StandingItems(rating: real, verified: bool, days: nat,
                      p0: seq<MatchReason>, p1: seq<MatchReason>, p2: seq<MatchReason>,
                      p3: seq<MatchReason>, p4: seq<MatchReason>)
    requires forall r | r in p0 :: r.SpecializesIn?
    requires forall r | r in p1 :: r.HighlyExperienced? || r.Experienced?
    requires RatingPart(rating, p2) && VerificationPart(verified, p3) && AvailabilityPart(days, p4)
    ensures var reasons := p0 + p1 + p2 + p3 + p4;
      && (ExcellentRating(rating) in reasons <==> rating >= 4.5)
      && (HighRating(rating) in reasons <==> 4.0 <= rating < 4.5)
      && (forall r | r in reasons && (r.ExcellentRating? || r.HighRating?) :: r.rating == rating)
      && (VerifiedTherapist in reasons <==> verified)
      && (HighlyAvailable in reasons <==> days >= 5)
  {
    var reasons := p0 + p1 + p2 + p3 + p4;
    assert forall r :: r in reasons <==> r in p0 || r in p1 || r in p2 || r in p3 || r in p4;
  }

  lemma ConcatenationKindsIncrease(p0: seq<MatchReason>, p1: seq<MatchReason>, p2: seq<MatchReason>,
                                   p3: seq<MatchReason>, p4: seq<MatchReason>)
    requires |p0| <= 1 && |p1| <= 1 && |p2| <= 1 && |p3| <= 1 && |p4| <= 1
    requires forall r | r in p0 :: Kind(r) == 0
    requires forall r | r in p1 :: Kind(r) == 1
    requires forall r | r in p2 :: Kind(r) == 2
    requires forall r | r in p3 :: Kind(r) == 3
    requires forall r | r in p4 :: Kind(r) == 4
    ensures KindsIncrease(p0 + p1 + p2 + p3 + p4)
  {
    var reasons := p0 + p1 + p2 + p3 + p4;
    forall i | 0 < i < |reasons| ensures Kind(reasons[i - 1]) < Kind(reasons[i]) {
      KindsOfConcatenation(p0, p1, p2, p3, p4, i);
    }
  }

  lemma KindsOfConcatenation(p0: seq<MatchReason>, p1: seq<MatchReason>, p2: seq<MatchReason>,
                             p3: seq<MatchReason>, p4: seq<MatchReason>, i: nat)
    requires |p0| <= 1 && |p1| <= 1 && |p2| <= 1 && |p3| <= 1 && |p4| <= 1
    requires forall r | r in p0 :: Kind(r) == 0
    requires forall r | r in p1 :: Kind(r) == 1
    requires forall r | r in p2 :: Kind(r) == 2
    requires forall r | r in p3 :: Kind(r) == 3
    requires forall r | r in p4 :: Kind(r) == 4
    requires 0 < i < |p0 + p1 + p2 + p3 + p4|
    ensures Kind((p0 + p1 + p2 + p3 + p4)[i - 1]) < Kind((p0 + p1 + p2 + p3 + p4)[i])
  {
    var s := p0 + p1 + p2 + p3 + p4;
    var kinds := seq(|s|, k requires 0 <= k < |s| => Kind(s[k]));
    var front := p0 + p1 + p2 + p3;
    assert s == front + p4;
    assert forall k | 0 <= k < |s| :: s[k] in p0 || s[k] in p1 || s[k] in p2 || s[k] in p3 || s[k] in p4;
    assert forall k | 0 <= k < |p0| :: s[k] == p0[k];
    assert forall k | |p0| <= k < |p0 + p1| :: s[k] == p1[k - |p0|];
    assert forall k | |p0 + p1| <= k < |p0 + p1 + p2| :: s[k] == p2[k - |p0 + p1|];
    assert forall k | |p0 + p1 + p2| <= k < |front| :: s[k] == p3[k - |p0 + p1 + p2|];
    assert forall k | |front| <= k < |s| :: s[k] == p4[k - |front|];
  }

  /** The reason builder: pushes one entry per checklist item that applies. */
  method BuildMatchReasons(a: Answers, t: TherapistProfile) returns (reasons: seq<MatchReason>)
    ensures IsReasonList(a, t, reasons)
  {
    reasons := [];
    var concernMatches := RelatedConcerns(a.concerns, t.specializations);
    if |concernMatches| > 0 {
      reasons := reasons + [SpecializesIn(concernMatches)];
    }
    ghost var p0 := reasons;
    assert SpecializationPart(concernMatches, p0);

    ghost var p1: seq<MatchReason> := [];
    if t.yearsOfExperience >= 10 {
      p1 := [HighlyExperienced(t.yearsOfExperience)];
      reasons := reasons + [HighlyExperienced(t.yearsOfExperience)];
    } else if t.yearsOfExperience >= 5 {
      p1 := [Experienced(t.yearsOfExperience)];
      reasons := reasons + [Experienced(t.yearsOfExperience)];
    }
    assert ExperiencePart(t.yearsOfExperience, p1) && reasons == p0 + p1;

    ghost var p2: seq<MatchReason> := [];
    if t.averageRating >= 4.5 {
      p2 := [ExcellentRating(t.averageRating)];
      reasons := reasons + [ExcellentRating(t.averageRating)];
    } else if t.averageRating >= 4.0 {
      p2 := [HighRating(t.averageRating)];
      reasons := reasons + [HighRating(t.averageRating)];
    }
    assert RatingPart(t.averageRating, p2) && reasons == p0 + p1 + p2;

    ghost var p3: seq<MatchReason> := [];
    if t.verificationStatus == Verified {
      p3 := [VerifiedTherapist];
      reasons := reasons + [VerifiedTherapist];
    }
    assert VerificationPart(t.verificationStatus == Verified, p3) && reasons == p0 + p1 + p2 + p3;

    ghost var p4: seq<MatchReason> := [];
    var availableDays := Scoring.AvailableDays(t.availability);
    if availableDays >= 5 {
      p4 := [HighlyAvailable];
      reasons := reasons + [HighlyAvailable];
    }
    assert AvailabilityPart(availableDays, p4) && reasons == p0 + p1 + p2 + p3 + p4;
    AssembledIsChecklist(concernMatches, t.yearsOfExperience, t.averageRating,
                         t.verificationStatus == Verified, availableDays, p0, p1, p2, p3, p4);
  }

  /**
   * The two matching passes disagree: "anx" is listed as a reason for
   * Anxiety, because "anxiety" contains it, yet earns no specialization
   * points from the scorer.
   */
  lemma ReasonMatchIsTwoDirectional()
    ensures Related(Anxiety, ["anx"])
    ensures Scoring.SpecializationPoints([Anxiety], ["anx"]) == 0.0
  {
    var cl := Lower(ConcernName(Anxiety));
    forall i | 0 <= i < |cl| ensures cl[i] == "anxiety"[i] {
    }
    assert cl == "anxiety";
    forall i | 0 <= i < 3 ensures Lower("anx")[i] == "anx"[i] {
    }
    assert Lower("anx") == "anx";
    assert OccursAt(cl, "anx", 0);
    assert Contains(cl, Lower(["anx"][0]));
    ScoringProperties.KeywordMatchIsOneDirectional();
  }
}
