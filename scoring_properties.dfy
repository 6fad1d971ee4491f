/** What the scorer guarantees: factor by factor, and for the rounded total. */
module ScoringProperties {
  import opened Common
  import opened Text
  import opened AssessmentModel
  import opened TherapistModel
  import opened Scoring

  lemma {:induction false} SomeSpecIncludesIff(specsLower: seq<string>, keyword: string)
    ensures SomeSpecIncludes(specsLower, keyword) <==> exists s | s in specsLower :: Contains(s, keyword)
  {
    if specsLower != [] {
      SomeSpecIncludesIff(specsLower[1..], keyword);
      assert forall s :: s in specsLower <==> s == specsLower[0] || s in specsLower[1..];
    }
  }

  lemma {:induction false} SomeKeywordIncludedIff(keywords: seq<string>, specsLower: seq<string>)
    ensures SomeKeywordIncluded(keywords, specsLower)
            <==> exists k, s | k in keywords && s in specsLower :: Contains(s, k)
  {
    if keywords != [] {
      SomeKeywordIncludedIff(keywords[1..], specsLower);
      SomeSpecIncludesIff(specsLower, keywords[0]);
      assert forall k :: k in keywords <==> k == keywords[0] || k in keywords[1..];
    }
  }

  /**
   * A concern matches exactly when some keyword of its table entry is a
   * substring of some lowercased specialization; the specialization being a
   * substring of the keyword is not enough (KeywordMatchIsOneDirectional).
   */
  lemma ConcernMatchesIff(c: Concern, specsLower: seq<string>)
    ensures ConcernMatches(c, specsLower)
            <==> exists k, s | k in KeywordsOf(c) && s in specsLower :: Contains(s, k)
  {
    SomeKeywordIncludedIff(KeywordsOf(c), specsLower);
  }

  /** Every concern matched exactly when the count reaches the number of concerns. */
  lemma {:induction false} MatchCountAllIff(concerns: seq<Concern>, specsLower: seq<string>)
    ensures MatchCount(concerns, specsLower) == |concerns|
            <==> forall i | 0 <= i < |concerns| :: ConcernMatches(concerns[i], specsLower)
  {
    if concerns != [] {
      var init := concerns[..|concerns| - 1];
      var last := concerns[|concerns| - 1];
      MatchCountAllIff(init, specsLower);
      if MatchCount(concerns, specsLower) == |concerns| {
        assert MatchCount(init, specsLower) == |init| && ConcernMatches(last, specsLower);
        forall i | 0 <= i < |concerns| ensures ConcernMatches(concerns[i], specsLower) {
          if i < |init| {
            assert concerns[i] == init[i];
          }
        }
      }
    }
  }

  /** No concern matched exactly when the count is zero. */
  lemma {:induction false} MatchCountZeroIff(concerns: seq<Concern>, specsLower: seq<string>)
    ensures MatchCount(concerns, specsLower) == 0
            <==> forall i | 0 <= i < |concerns| :: !ConcernMatches(concerns[i], specsLower)
  {
    if concerns != [] {
      var init := concerns[..|concerns| - 1];
      var last := concerns[|concerns| - 1];
      MatchCountZeroIff(init, specsLower);
      if MatchCount(concerns, specsLower) == 0 {
        assert MatchCount(init, specsLower) == 0 && !ConcernMatches(last, specsLower);
        forall i | 0 <= i < |concerns| ensures !ConcernMatches(concerns[i], specsLower) {
          if i < |init| {
            assert concerns[i] == init[i];
          }
        }
      }
    }
  }

  lemma RatioAtMostOne(m: nat, n: nat)
    requires 0 < n && m <= n
    ensures 0.0 <= m as real / n as real <= 1.0
  {
  }

  /**
   * The specialization factor: nothing without specializations; otherwise
   * (matched/total)*40 plus the 5-point bonus, so at most 45; exactly 40 (+5
   * for several concerns) when every concern matches and 0 when none does.
   */
  lemma SpecializationFactor(concerns: seq<Concern>, specs: seq<string>)
    ensures |specs| == 0 ==> SpecializationPoints(concerns, specs) == 0.0
    ensures 0.0 <= SpecializationPoints(concerns, specs) <= SpecializationWeight + MultiMatchBonus
    ensures |specs| > 0 && |concerns| > 0
            && (forall i | 0 <= i < |concerns| :: ConcernMatches(concerns[i], LowerAll(specs)))
            ==> SpecializationPoints(concerns, specs)
                == SpecializationWeight + (if |concerns| > 1 then MultiMatchBonus else 0.0)
    ensures (forall i | 0 <= i < |concerns| :: !ConcernMatches(concerns[i], LowerAll(specs)))
            ==> SpecializationPoints(concerns, specs) == 0.0
  {
    if |specs| > 0 {
      var sl := LowerAll(specs);
      var m := MatchCount(concerns, sl);
      MatchCountAllIff(concerns, sl);
      MatchCountZeroIff(concerns, sl);
      ProportionBounds(m, |concerns|);
    }
  }

  /** The arithmetic of the specialization factor for m matches out of n concerns. */
  lemma ProportionBounds(m: nat, n: nat)
    requires m <= n
    ensures var p := (if n > 0 then (m as real / n as real) * SpecializationWeight else 0.0)
                     + (if m > 1 then MultiMatchBonus else 0.0);
      && 0.0 <= p <= SpecializationWeight + MultiMatchBonus
      && (0 < n && m == n ==> p == SpecializationWeight + (if n > 1 then MultiMatchBonus else 0.0))
      && (m == 0 ==> p == 0.0)
  {
    if n > 0 {
      RatioAtMostOne(m, n);
      if m == n {
        assert m as real / n as real == 1.0;
      }
    }
  }

  /** A concern with no row in the keyword table, such as "None of the above", never matches. */
  lemma UnlistedConcernNeverMatches(c: Concern, specsLower: seq<string>)
    requires c !in ConcernKeywords
    ensures !ConcernMatches(c, specsLower)
    ensures c == NoneOfTheAbove
  {
  }

  /**
   * Matching is one-directional: a specialization that is merely a part of a
   * keyword ("anx" of "anxiety") earns no specialization points.
   */
  lemma KeywordMatchIsOneDirectional()
    ensures "anxiety" in KeywordsOf(Anxiety) && Contains("anxiety", "anx")
    ensures SpecializationPoints([Anxiety], ["anx"]) == 0.0
  {
    assert OccursAt("anxiety", "anx", 0);
    var sl := LowerAll(["anx"]);
    forall i | 0 <= i < 3 ensures Lower("anx")[i] == "anx"[i] {
    }
    assert Lower("anx") == "anx";
    assert sl[0] == Lower(["anx"][0]);
    assert sl == ["anx"];
    forall k | k in KeywordsOf(Anxiety) ensures !Contains("anx", k) {
      if k != "cbt" {
        LongerNeverContained("anx", k);
      } else {
        assert "anx"[0..3][0] == 'a';
        assert !OccursAt("anx", k, 0);
      }
    }
    ConcernMatchesIff(Anxiety, sl);
    assert !ConcernMatches(Anxiety, sl);
    assert [Anxiety][..0] == [];
  }

  /** Experience tiers: 20/14/8 at 10/5/2 years under high impact, at 5/2/1 otherwise, 0 below. */
  lemma ExperienceTiers(impactLevel: Option<int>, years: int)
    ensures HighImpact(impactLevel) ==>
      ExperiencePoints(impactLevel, years)
        == if years >= 10 then 20.0 else if years >= 5 then 14.0 else if years >= 2 then 8.0 else 0.0
    ensures !HighImpact(impactLevel) ==>
      ExperiencePoints(impactLevel, years)
        == if years >= 5 then 20.0 else if years >= 2 then 14.0 else if years >= 1 then 8.0 else 0.0
  {
  }

  /** More experience never lowers the experience factor. */
  lemma ExperienceMonotone(impactLevel: Option<int>, fewer: int, more: int)
    requires fewer <= more
    ensures ExperiencePoints(impactLevel, fewer) <= ExperiencePoints(impactLevel, more)
  {
  }

  /** A high impact level never earns more experience points than a low one. */
  lemma HighImpactNeverExceedsLow(high: Option<int>, low: Option<int>, years: int)
    requires HighImpact(high) && !HighImpact(low)
    ensures ExperiencePoints(high, years) <= ExperiencePoints(low, years)
  {
  }

  /** The rating factor: 0 for no rating, 4 points per star, 3 more from 4.5. */
  lemma RatingFactor(rating: real)
    ensures rating == 0.0 ==> RatingPoints(rating) == 0.0
    ensures rating != 0.0 ==> RatingPoints(rating) == 4.0 * rating + (if rating >= 4.5 then 3.0 else 0.0)
    ensures 0.0 <= rating <= MaxAverageRating ==> 0.0 <= RatingPoints(rating) <= RatingWeight + TopRatingBonus
  {
  }

  /** Verification, availability, lifestyle and chronic factors and their ranges. */
  lemma SmallFactors(a: Answers, t: TherapistProfile)
    ensures VerificationPoints(t.verificationStatus)
            == if t.verificationStatus == Verified then 10.0 else if t.verificationStatus == Pending then 5.0 else 0.0
    ensures AvailabilityPoints(AvailableDays(t.availability))
            == (var d := AvailableDays(t.availability);
                if d >= 5 then 10.0 else if d >= 3 then 7.0 else if d >= 1 then 4.0 else 0.0)
    ensures 0.0 <= LifestylePoints(a.lifestyle, t.yearsOfExperience, t.isStudent) <= FastPacedBonus
    ensures 0.0 <= ChronicPoints(a.duration, t.yearsOfExperience) <= ChronicBonus
  {
  }

  /** Every entry counts as an available day exactly when the count equals the number of entries. */
  lemma {:induction false} AvailableDaysAllIff(availability: Availability)
    ensures AvailableDays(availability) == |availability|
            <==> forall i | 0 <= i < |availability| :: IsAvailableDay(availability[i].1)
  {
    if availability != [] {
      var init := availability[..|availability| - 1];
      AvailableDaysAllIff(init);
      assert forall i | 0 <= i < |init| :: init[i] == availability[i];
    }
  }

  lemma Round2Bounds(x: real, lo: int, hi: int)
    requires lo as real <= x <= hi as real
    ensures lo as real <= Round2(x) <= hi as real
  {
    var n := RoundHalfUp(100.0 * x);
    assert (100 * lo) as real - 0.5 < n as real <= (100 * hi) as real + 0.5;
    assert 100 * lo <= n <= 100 * hi;
  }

  /**
   * With a rating in [0,5] the score lies in [0,116]; nothing clamps it to
   * 100 (see WorkedExample).
   */
  lemma ScoreBounds(a: Answers, t: TherapistProfile)
    requires 0.0 <= t.averageRating <= MaxAverageRating
    ensures 0.0 <= Score(a, t) <= MaxScore
  {
    SpecializationFactor(a.concerns, t.specializations);
    RatingFactor(t.averageRating);
    SmallFactors(a, t);
    assert 0.0 <= RawScore(a, t) <= 116.0;
    Round2Bounds(RawScore(a, t), 0, 116);
  }

  const ExampleAnswers: Answers :=
    Answers(None, None, Some(HighStressFastPaced), None, [Anxiety], None, Some(MoreThanAYear), Some(5))

  const ExampleSlot: DayValue := Slots([TimeSlot("09:00", "17:00")])

  const ExampleTherapist: TherapistProfile :=
    TherapistProfile(1, None, false, [], None, ["Cognitive Behavioral Therapy"], 12, 100.0,
                     [("monday", ExampleSlot), ("tuesday", ExampleSlot), ("wednesday", ExampleSlot),
                      ("thursday", ExampleSlot), ("friday", ExampleSlot), ("saturday", ExampleSlot)],
                     None, Verified, 4.8)

  /**
   * Anxiety at impact 5, fast-paced, lasting more than a year, against a
   * verified therapist with "Cognitive Behavioral Therapy", 12 years, rating
   * 4.8 and six available days: 40 + 20 + 22.2 + 10 + 10 + 3 + 5 = 110.2,
   * which is above 100.
   */
  lemma WorkedExample()
    ensures Score(ExampleAnswers, ExampleTherapist) == 110.2
    ensures Score(ExampleAnswers, ExampleTherapist) > 100.0
  {
    ExampleSpecialization();
    AvailableDaysAllIff(ExampleTherapist.availability);
    assert AvailableDays(ExampleTherapist.availability) == 6;
    assert RawScore(ExampleAnswers, ExampleTherapist) == 110.2;
  }

  /** In the worked example the one concern matches the one specialization: 40 points, no bonus. */
  lemma ExampleSpecialization()
    ensures SpecializationPoints(ExampleAnswers.concerns, ExampleTherapist.specializations) == 40.0
  {
    var keyword := "cognitive behavioral therapy";
    ExampleSpecializationLowered();
    var sl := LowerAll(ExampleTherapist.specializations);
    assert sl[0] == Lower(ExampleTherapist.specializations[0]);
    assert sl == [keyword];
    ContainsSelf(keyword);
    assert keyword in KeywordsOf(Anxiety);
    ConcernMatchesIff(Anxiety, sl);
    assert ConcernMatches(Anxiety, sl);
    assert [Anxiety][..0] == [];
    assert MatchCount([Anxiety], sl) == 1;
  }

  /** The example's specialization, lower-cased, is the Anxiety keyword it is meant to hit. */
  lemma ExampleSpecializationLowered()
    ensures Lower(ExampleTherapist.specializations[0]) == "cognitive behavioral therapy"
  {
    var spec := ExampleTherapist.specializations[0];
    var keyword := "cognitive behavioral therapy";
    forall i | 0 <= i < |spec| ensures Lower(spec)[i] == keyword[i] {
    }
  }

  /**
   * An empty profile (no specializations, 0 years, no rating, rejected, no
   * availability, not a student) scores 0 whatever the answers.
   */
  lemma BlankProfileScoresZero(a: Answers, userId: UserId, rate: real)
    ensures Score(a, TherapistProfile(userId, None, false, [], None, [], 0, rate, [], None, Rejected, 0.0)) == 0.0
  {
    var t := TherapistProfile(userId, None, false, [], None, [], 0, rate, [], None, Rejected, 0.0);
    assert RawScore(a, t) == 0.0;
    Round2Bounds(0.0, 0, 0);
  }
}
