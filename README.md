# CareNest therapy back end, modelled in Dafny

CareNest is an Express/Mongoose REST service. Patients fill in a mental-health
assessment. The service then ranks therapist profiles against it, and it manages
therapist, supervisor and session records, feedback, and user accounts with JWT
authentication. This project models the controllers' decision logic and the
schema rules they rely on. It then proves properties of that model.

Layout, one module per file:

- `common`, `text`, `envelopes` hold shared definitions:
  - `Option`, the roles and JavaScript truthiness;
  - the string operations the controllers call (`toLowerCase`, `includes`, `trim`, `replace`, `join`);
  - the `ApiError` and `ApiResponse` envelopes.
- Assessment and recommendation:
  - `assessment_model` holds the answer enums;
  - `assessments` is the submit and recommend handlers, over a class holding the assessment collection;
  - `scoring` is `calculateTherapistScore`, with its loops;
  - `ranking` is filtering, the stable sort on an array, and the limit and slice;
  - `reasons` builds the match reasons;
  - `scoring_properties`, `ranking_properties` and `recommendation_properties` hold the lemmas.
- Therapists:
  - `therapist_model`, `therapist_validation`, `therapists` (a class over the profiles) and `therapist_listing`;
  - `therapist_properties` holds the lemmas.
- Sessions:
  - `session_model`, `sessions` (a class over the sessions) and `session_listing`;
  - `session_properties` holds the lemmas.
- Supervisors: `supervisors` (a class over the supervisors) and `supervisor_properties`.
- Feedback:
  - `feedback_model` and `feedbacks` (a class over feedback and therapist ratings);
  - `feedback_stats`;
  - `feedback_properties` holds the lemmas.
- Accounts:
  - `account_model`, `auth` (the auth controller), `users` (the user controller) and `middleware` (verifyJWT and verifyRole);
  - `accounts` is a class over the user collection;
  - `account_properties` holds the lemmas;
  - `pagination` holds the page arithmetic shared by the listings.

Each handler is modelled in two parts:

- A pure function decides what happens. It returns either a refusal carrying the
  `ApiError` the controller throws, or the document it saves.
- A method of a store class applies that decision in place. Its `ensures` ties the
  reply and the new state to the function of the old state.

Foreign code becomes parameters:

- bcrypt's comparison and hash;
- the tokens `jsonwebtoken` signs, and what `jwt.verify` decides;
- the clock (`now`);
- number-to-string formatting.

A Mongoose validation failure on save reaches the error middleware as a non-`ApiError`.
The middleware turns it into status 500 (`src/middlewares/error.middleware.js:17-21`).
The model uses that status with one fixed message.

Where the code and its documentation disagree, the model follows the code:

- With the documented sample inputs, the documented worked example gives a score of 111.
  The code gives 110.2: a 4.8 rating earns 19.2 + 3 points. `ScoringProperties.WorkedExample` proves the code's figure.
- `matchPercentage` is documented as 0-100. It is `Math.round(score)` and can exceed 100.
- The recommendation limit is documented as capped at 20. A negative limit is not capped: `slice(0, -1)` keeps all but the last entry.

## Model

| member | source | states |
|---|---|---|
| Envelopes.NewApiError | src/utils/ApiError.js:18-37 | an error envelope carries the given status, message and details, and is never a success |
| Envelopes.NewApiResponse | src/utils/ApiResponse.js:15-23 | a response carries its status, data and message, and is a success exactly when the status is below 400 |
| Envelopes.Fail | src/utils/ApiError.js:18-37 | a thrown error reply has the given status and message and no details |
| Envelopes.Succeed | src/utils/ApiResponse.js:15-23 | a sent reply has the given status, data and message |
| Envelopes.ErrorNeverSucceeds | src/utils/ApiError.js:28 | no error envelope reports success |
| Envelopes.ResponseSuccessIffBelow400 | src/utils/ApiResponse.js:17-21 | success holds exactly below status 400; the default message is "Success" |
| Common.ParseRole | src/middlewares/auth.middleware.js:59 | a role string parses exactly when it names a role, to the role with that name |
| Common.ParseRoleName | src/middlewares/auth.middleware.js:59 | parsing a role's own name gives the role back |
| Common.FirstTruthy | src/controllers/auth.controller.js:180-181 | `a \|\| b`: the first value when it is truthy, else the second; the result is truthy when either is |
| AssessmentModel.ParseAgeGroup | src/models/assessment.models.js:15-18 | a string passes the age-group enum exactly when it names a group, and parses to that group |
| AssessmentModel.ParseOccupation | src/models/assessment.models.js:21-31 | the same for the occupation enum |
| AssessmentModel.ParseLifestyle | src/models/assessment.models.js:34-42 | the same for the lifestyle enum |
| AssessmentModel.ParseActivityLevel | src/models/assessment.models.js:45-53 | the same for the activity-level enum |
| AssessmentModel.ParseConcern | src/models/assessment.models.js:56-75 | the same for the concern enum |
| AssessmentModel.ParseDuration | src/models/assessment.models.js:84-92 | the same for the duration enum |
| AssessmentModel.ConcernsAreClosed | src/models/assessment.models.js:56-75 | the concern enum has exactly 15 tags, every tag is listed, and no two tags share a name |
| AssessmentModel.EveryConcernListed | src/models/assessment.models.js:58-74 | every concern tag is in the enum list |
| AssessmentModel.ConcernNamesDiffer | src/models/assessment.models.js:58-74 | two concern tags with the same name are the same tag |
| AssessmentModel.ConcernNameRoundTrip | src/models/assessment.models.js:56-75 | parsing a concern's name gives the concern back |
| AssessmentModel.LifestylesAreClosed | src/models/assessment.models.js:34-42 | the lifestyle enum has exactly 4 tags with distinct names |
| AssessmentModel.LifestyleNameRoundTrip | src/models/assessment.models.js:34-42 | parsing a lifestyle's name gives the lifestyle back |
| AssessmentModel.DurationsAreClosed | src/models/assessment.models.js:84-92 | the duration enum has exactly 4 tags with distinct names |
| AssessmentModel.DurationNameRoundTrip | src/models/assessment.models.js:84-92 | parsing a duration's name gives the duration back |
| Assessments.SubmitGuard | src/controllers/assessment.controllers.js:27-38 | a body passes exactly when the role is patient, concerns are non-empty and impact is 1-5; otherwise a 403 for a non-patient, then the concern 400, then the impact 400 |
| Assessments.ParseOptional | src/models/assessment.models.js:15-53 | an absent enum field is stored as absent; a present one is kept exactly when it passes the enum |
| Assessments.ParseConcerns | src/models/assessment.models.js:56-75 | a concerns array is accepted exactly when every element is a tag, and it is stored element by element |
| Assessments.StoredOtherConcern | src/controllers/assessment.controllers.js:55 | `otherConcern \|\| null` followed by the trim setter: an empty or absent value is stored as null, and a stored value is trimmed |
| Assessments.ParseAnswers | src/controllers/assessment.controllers.js:41-76 | the answers save exactly when every enum field passes; each stored enum field is the value whose name was sent (absent when none was), the k-th stored concern is named by the k-th sent string, and the impact level and trimmed otherConcern are stored as given |
| Assessments.SummaryOf | src/controllers/assessment.controllers.js:427-431 | the summary repeats concerns, impact and duration, and lifestyle only for a non-empty candidate list (lines 515-520) |
| Assessments.AttachedGrows | src/controllers/assessment.controllers.js:456-507 | appending the next entry with its reasons keeps the list paired with the ranking |
| Assessments.AttachReasons | src/controllers/assessment.controllers.js:456-507 | each of the top entries keeps its place and gets a reason list the builder promises |
| Assessments.AssessmentStore.constructor | src/controllers/assessment.controllers.js:41-43 | the assessment collection starts empty |
| Assessments.AssessmentStore.Submit | src/controllers/assessment.controllers.js:14-92 | a refused or invalid body leaves the collection unchanged; otherwise the patient's answers are upserted, with status 201 and "updated" for a patient who had answers, "submitted" otherwise |
| Assessments.AssessmentStore.Recommend | src/controllers/assessment.controllers.js:379-525 | a 403 for a non-patient, a 404 without an assessment, an empty list with its own message when no therapist passes the filter, otherwise the first limitNum entries of the ranking of all candidates, with reasons, totalFound and the summary |
| RecommendationProperties.ReplyFacts | src/controllers/assessment.controllers.js:421-524 | every reply to a patient with answers is a 200; the list holds min(limit, 20, candidates) entries for a non-negative limit, and every entry is a filtered therapist |
| RecommendationProperties.ReplyEntriesAreScoredCandidates | src/controllers/assessment.controllers.js:439-507 | every recommended entry is a candidate with the scorer's score, and has at most five reasons |
| RecommendationProperties.ReplyIsInScoreOrder | src/controllers/assessment.controllers.js:449-453 | the recommended scores never increase along the list |
| RecommendationProperties.NoCandidatesIsNotAnError | src/controllers/assessment.controllers.js:421-436 | when the filter excludes every therapist, the reply is an empty 200 list, not an error |
| Scoring.LowerAll | src/controllers/assessment.controllers.js:263 | each specialization is lowercased, position by position |
| Scoring.MatchCount | src/controllers/assessment.controllers.js:262-279 | at most one match is counted per concern |
| Scoring.AvailableDays | src/controllers/assessment.controllers.js:333-339 | the available-day count never exceeds the number of entries |
| Scoring.RoundHalfUp | src/controllers/assessment.controllers.js:371 | `Math.round` gives the integer within half a unit, halves rounded up |
| Scoring.Round2 | src/controllers/assessment.controllers.js:371 | the result is a whole number of hundredths, within half a hundredth of the input |
| Scoring.CountMatches | src/controllers/assessment.controllers.js:262-279 | the forEach counts exactly the concerns that match a lowercased specialization |
| Scoring.CountAvailableDays | src/controllers/assessment.controllers.js:333-339 | the loop counts exactly the entries holding a non-empty slot array |
| Scoring.CalculateTherapistScore | src/controllers/assessment.controllers.js:230-372 | the accumulated score is the seven-factor score, rounded to hundredths |
| ScoringProperties.SomeSpecIncludesIff | src/controllers/assessment.controllers.js:266-268 | the inner `some` holds exactly when some lowercased specialization contains the keyword |
| ScoringProperties.SomeKeywordIncludedIff | src/controllers/assessment.controllers.js:265-269 | the outer `some` holds exactly when some keyword is contained in some specialization |
| ScoringProperties.ConcernMatchesIff | src/controllers/assessment.controllers.js:245-279 | a concern matches exactly when some keyword of its table row is a substring of some lowercased specialization |
| ScoringProperties.MatchCountAllIff | src/controllers/assessment.controllers.js:262-279 | the count equals the number of concerns exactly when every concern matches |
| ScoringProperties.MatchCountZeroIff | src/controllers/assessment.controllers.js:262-279 | the count is zero exactly when no concern matches |
| ScoringProperties.RatioAtMostOne | src/controllers/assessment.controllers.js:282 | the matched fraction lies in [0,1] |
| ScoringProperties.SpecializationFactor | src/controllers/assessment.controllers.js:243-289 | the factor is 0 without specializations and lies in [0,45]; 40 (plus 5 when there is more than one concern) when all match, 0 when none do |
| ScoringProperties.ProportionBounds | src/controllers/assessment.controllers.js:282-288 | for m matches out of n concerns the factor lies in [0,45]; it is 40 (plus 5 when n > 1) when m = n, and 0 when m = 0 |
| ScoringProperties.UnlistedConcernNeverMatches | src/controllers/assessment.controllers.js:245-264 | "None of the above" is the only concern without keywords, and it never matches |
| ScoringProperties.KeywordMatchIsOneDirectional | src/controllers/assessment.controllers.js:266-268 | a specialization that is only a part of a keyword ("anx") earns no points |
| ScoringProperties.ExperienceTiers | src/controllers/assessment.controllers.js:292-312 | 20/14/8/0 at 10/5/2 years under impact 4 and above, and at 5/2/1 years otherwise |
| ScoringProperties.ExperienceMonotone | src/controllers/assessment.controllers.js:292-312 | more years never lower the experience factor |
| ScoringProperties.HighImpactNeverExceedsLow | src/controllers/assessment.controllers.js:294-311 | high impact never earns more experience points than low impact for the same years |
| ScoringProperties.RatingFactor | src/controllers/assessment.controllers.js:315-323 | no rating gives 0 points; otherwise 4 points per star plus 3 from 4.5; the factor lies in [0,23] |
| ScoringProperties.SmallFactors | src/controllers/assessment.controllers.js:326-369 | verification gives 10/5/0, availability 10/7/4/0 by day count, lifestyle at most 3, chronic at most 5 |
| ScoringProperties.AvailableDaysAllIff | src/controllers/assessment.controllers.js:335-339 | the count equals the number of entries exactly when every entry is an available day |
| ScoringProperties.Round2Bounds | src/controllers/assessment.controllers.js:371 | rounding keeps a value between two integers between them |
| ScoringProperties.ScoreBounds | src/controllers/assessment.controllers.js:230-372 | with a rating in [0,5], the score lies in [0,116]; nothing clamps it to 100 |
| ScoringProperties.WorkedExample | src/controllers/assessment.controllers.js:230-372 | the documented example profile scores 110.2, above 100 |
| ScoringProperties.ExampleSpecialization | src/controllers/assessment.controllers.js:262-289 | in the example, the one concern matches the one specialization: 40 points, no bonus |
| ScoringProperties.ExampleSpecializationLowered | src/controllers/assessment.controllers.js:263 | the example's specialization lowercases to the Anxiety keyword |
| ScoringProperties.BlankProfileScoresZero | src/controllers/assessment.controllers.js:230-372 | an empty, rejected, unrated profile scores 0 for any answers |
| Ranking.Candidates | src/controllers/assessment.controllers.js:404-419 | the candidates are exactly the pool's profiles that pass the verification, rating and rate filter |
| Ranking.LimitNum | src/controllers/assessment.controllers.js:397 | the limit is at most 20, defaults to 10, and is kept when it is 20 or less |
| Ranking.SliceEnd | src/controllers/assessment.controllers.js:453 | `slice(0, end)` stops at min(end, length) for end >= 0, and counts back from the length for a negative end |
| Ranking.ScoredCandidates | src/controllers/assessment.controllers.js:439-446 | each candidate is scored in collection order |
| Ranking.SortByScore | src/controllers/assessment.controllers.js:449 | the array is sorted by score, highest first, ties in their original order, and is a permutation of its input |
| Ranking.InsertEntry | src/controllers/assessment.controllers.js:449 | one insertion pass leaves the prefix ranked, the suffix untouched and the entries permuted |
| Ranking.SwapKeepsInserting | src/controllers/assessment.controllers.js:449 | a swap past a lower-scored neighbour keeps the insertion invariant one place further left |
| Ranking.SwapKeepsEntries | src/controllers/assessment.controllers.js:449 | a swap keeps the multiset of entries and the suffix |
| Ranking.StoppedIsRanked | src/controllers/assessment.controllers.js:449 | when the inserted entry stops, the prefix is ranked |
| Ranking.SuffixKept | src/controllers/assessment.controllers.js:449 | equal suffixes agree position by position |
| Ranking.RankCandidates | src/controllers/assessment.controllers.js:439-453 | the scored candidates, rearranged by score descending with ties in input order, and the result is the first limitNum entries of that arrangement |
| RankingProperties.RankedBeforeAsymmetric | src/controllers/assessment.controllers.js:449 | the ranking order is strict |
| RankingProperties.RankedTail | src/controllers/assessment.controllers.js:449 | the tail of a ranked list is ranked |
| RankingProperties.RankedSameHead | src/controllers/assessment.controllers.js:449 | two ranked lists over the same entries start with the same entry |
| RankingProperties.RankedIsUnique | src/controllers/assessment.controllers.js:449 | the ranked arrangement of a collection is unique, so the stable sort's output is determined |
| RankingProperties.RankedEntriesAreScoredCandidates | src/controllers/assessment.controllers.js:439-449 | every ranked entry is a scored candidate, with percentage `Math.round(score)` (not capped), and every candidate appears |
| RankingProperties.RecommendationsArePrefix | src/controllers/assessment.controllers.js:449-453 | the returned list holds min(limit, 20, candidates) entries for a non-negative limit, sorted with ties in collection order |
| RankingProperties.LimitIsCapped | src/controllers/assessment.controllers.js:452 | a limit of 1000 yields at most 20 entries |
| RankingProperties.NegativeLimitEscapesCap | src/controllers/assessment.controllers.js:452-453 | a limit of -1 on 30 candidates yields 29 entries |
| RankingProperties.VerificationFilter | src/controllers/assessment.controllers.js:404-406 | verifiedOnly "true" keeps only verified profiles; without it rejected ones are dropped and pending ones kept |
| Reasons.ConcernNames | src/controllers/assessment.controllers.js:471 | the concern names, in order |
| Reasons.SpecializesInTextNamesEachConcern | src/controllers/assessment.controllers.js:469-473 | the specialization reason names every matched concern |
| Reasons.SomeSpecRelatedIff | src/controllers/assessment.controllers.js:461-467 | a concern is related exactly when it and some lowercased specialization contain one another |
| Reasons.RelatedConcerns | src/controllers/assessment.controllers.js:461-467 | the filter keeps exactly the related concerns: its k-th entry is the concern at the k-th position whose concern is related, so duplicates and assessment order are kept |
| Reasons.KindAtLeastIndex | src/controllers/assessment.controllers.js:456-501 | in a checklist the i-th reason is of kind i or later |
| Reasons.AtMostFiveReasons | src/controllers/assessment.controllers.js:456-501 | a reason list has at most five entries |
| Reasons.AssembledIsChecklist | src/controllers/assessment.controllers.js:469-501 | the five pushes, each of its own kind, make a checklist |
| Reasons.ProfileItems | src/controllers/assessment.controllers.js:469-480 | the specialization and experience items of the list come from their own pushes |
| Reasons.StandingItems | src/controllers/assessment.controllers.js:483-501 | the rating, verification and availability items come from their own pushes |
| Reasons.ConcatenationKindsIncrease | src/controllers/assessment.controllers.js:469-501 | concatenating the pushes keeps the kinds increasing |
| Reasons.KindsOfConcatenation | src/controllers/assessment.controllers.js:469-501 | each kind in the concatenation comes from its own push |
| Reasons.BuildMatchReasons | src/controllers/assessment.controllers.js:456-507 | the list holds, in order: the related concerns; "highly experienced" from 10 years or "experienced" from 5; "excellent" from 4.5 or "high" from 4.0; "verified"; "highly available" from 5 days |
| Reasons.ReasonMatchIsTwoDirectional | src/controllers/assessment.controllers.js:461-467 | "anx" is listed as a reason for Anxiety yet earns no specialization points |
| TherapistModel.ParseVerificationStatus | src/models/therapist.models.js:93-97 | a status string parses exactly when it is pending, verified or rejected, to that status |
| TherapistModel.DefaultProfile | src/models/therapist.models.js:29-104 | every optional field takes its schema default: not a student, no qualifications, licence, specializations or supervisor, 0 years, empty availability, pending, rating 0; with a non-negative rate the profile passes the validators |
| Therapists.CreateProfileStep | src/controllers/therapist.controllers.js:26-67 | a profile is created exactly for a therapist without one, with a positive rate, a supervisor when a student, and a supervisor-role supervisor id; it starts pending with rating 0 and the schema defaults; a second profile is a 409 |
| Therapists.UpdateProfileStep | src/controllers/therapist.controllers.js:97-126 | the update saves exactly when the profile exists, a sent rate is positive and a sent supervisor is a supervisor; each sent field replaces the stored one and every other field is kept |
| Therapists.ParseVerdict | src/controllers/therapist.controllers.js:431-433 | only "verified" and "rejected" are accepted, never "pending" |
| Therapists.VerifyStep | src/controllers/therapist.controllers.js:431-452 | the verdict is stored exactly when it is valid, the profile exists, and a student's profile is judged by its own supervisor; nothing else changes |
| Therapists.Commit | src/controllers/therapist.controllers.js:68-78 | a refusal stores nothing; a profile the validators refuse is a 500 and stores nothing; otherwise the profile is stored under its owner and returned |
| Therapists.FindProfile | src/controllers/therapist.controllers.js:31 | `findOne({ userId })` finds the profile exactly when the user has one |
| Therapists.WithAverageRating | src/controllers/feedback.controllers.js:35-39 | the owner's profile gets the new rating when it exists and the rating is in [0,5]; otherwise nothing changes |
| Therapists.TherapistStore.constructor | src/models/therapist.models.js:29-35 | the profile collection starts empty |
| Therapists.TherapistStore.Apply | src/controllers/therapist.controllers.js:68-78 | the reply and the new collection are those of `Commit`, and every stored profile stays valid |
| Therapists.TherapistStore.Create | src/controllers/therapist.controllers.js:12-78 | createTherapistProfile: the create decision, committed with status 201 |
| Therapists.TherapistStore.Update | src/controllers/therapist.controllers.js:85-137 | updateTherapistProfile: the update decision on the requester's profile, committed with status 200 |
| Therapists.TherapistStore.UpdateAvailability | src/controllers/therapist.controllers.js:255-313 | a missing object is a 400 and an invalid one is refused with the validator's first error, storing nothing; otherwise a 404 without a profile, else only the availability is replaced |
| Therapists.TherapistStore.UpdateQualifications | src/controllers/therapist.controllers.js:320-356 | a non-array is a 400 and a list with a bad entry is refused with the first error, storing nothing; otherwise a 404 without a profile, else only the qualifications are replaced |
| Therapists.TherapistStore.UpdateSpecializations | src/controllers/therapist.controllers.js:363-394 | a non-array or a list with a blank entry is a 400, storing nothing; otherwise a 404 without a profile, else only the specializations are replaced, untrimmed |
| Therapists.TherapistStore.Verify | src/controllers/therapist.controllers.js:426-467 | the verify decision on the named profile, committed with "verified" or "rejected" in the message |
| Therapists.TherapistStore.SetAverageRating | src/controllers/feedback.controllers.js:35-39 | profiles changes as `WithAverageRating` says, and stays valid |
| TherapistValidation.DigitValue | src/controllers/therapist.controllers.js:285-286 | a digit's numeric value lies in 0..9 |
| TherapistValidation.TimeMinutes | src/controllers/therapist.controllers.js:285-288 | a time matching the pattern is a minute of the day, in [0,1440) |
| TherapistValidation.FormatTime | src/controllers/therapist.controllers.js:264 | every minute of the day has a five-character rendering that matches the pattern and reads back as that minute |
| TherapistValidation.FormatTimeRoundTrip | src/controllers/therapist.controllers.js:285-288 | every five-character time is the rendering of its own minute count |
| TherapistValidation.SlotError | src/controllers/therapist.controllers.js:276-282 | a slot passes the field and pattern checks exactly when both times are present and match the pattern; every failure is a 400 |
| TherapistValidation.FirstSlotErrorNoneIff | src/controllers/therapist.controllers.js:275-293 | the slot loop finds no error exactly when every slot is present, well-formed and starts before it ends |
| TherapistValidation.FirstAvailabilityErrorNoneIff | src/controllers/therapist.controllers.js:266-294 | the validator lets an object through exactly when every key is a weekday in any letter case, mapped to an array of valid slots |
| TherapistValidation.ValidateSlots | src/controllers/therapist.controllers.js:275-293 | the inner loop returns the first offending slot's error, or none |
| TherapistValidation.FirstAvailabilityErrorOf | src/controllers/therapist.controllers.js:266-294 | the nested loops return the error of the first offending key or slot |
| TherapistValidation.ValidateAvailability | src/controllers/therapist.controllers.js:263-294 | the validator returns the first error, and none exactly when the object is valid |
| TherapistValidation.QualificationError | src/controllers/therapist.controllers.js:330-336 | a qualification passes exactly when it has a degree and an institution, and any truthy year lies in [1950, current year] |
| TherapistValidation.FirstQualificationErrorNoneIff | src/controllers/therapist.controllers.js:329-337 | the loop finds no error exactly when every qualification passes |
| TherapistValidation.ValidateQualifications | src/controllers/therapist.controllers.js:328-337 | the loop returns the first offending qualification's error, and none exactly when all pass |
| TherapistValidation.ValidateSpecializations | src/controllers/therapist.controllers.js:371-375 | the loop passes exactly when every entry is non-blank after trimming; otherwise the one 400 |
| TherapistListing.Filtered | src/controllers/therapist.controllers.js:179-201 | the listing holds exactly the profiles matching the specialization, rating, rate, experience and verification filters |
| TherapistListing.SortOrderOf | src/controllers/therapist.controllers.js:204-215 | "rating", "experience", "rate-asc" and "rate-desc" pick their orders; anything else is newest first |
| TherapistListing.InOrderTotal | src/controllers/therapist.controllers.js:204-215 | any two profiles are comparable in each sort order |
| TherapistListing.SortedCons | src/controllers/therapist.controllers.js:226 | a sorted list stays sorted under a head that precedes every entry |
| TherapistListing.Insert | src/controllers/therapist.controllers.js:226 | insertion into a sorted list keeps it sorted and adds exactly the one entry |
| TherapistListing.BeforeHeadIsBeforeAll | src/controllers/therapist.controllers.js:226 | what precedes the head of a sorted list precedes every entry |
| TherapistListing.TailSorted | src/controllers/therapist.controllers.js:226 | the tail of a sorted list is sorted |
| TherapistListing.HeadBeforeInserted | src/controllers/therapist.controllers.js:226 | after an insertion, the old head still precedes the rest |
| TherapistListing.SortBy | src/controllers/therapist.controllers.js:226 | `.sort(sort)` on a key returns the filtered profiles, permuted, in the chosen order |
| TherapistListing.Arrange | src/controllers/therapist.controllers.js:205-226 | the matches, permuted and in the chosen order; for the default `createdAt: -1` sort, exactly the collection's creation order reversed |
| TherapistListing.PageIsSorted | src/controllers/therapist.controllers.js:226-228 | a page of a sorted list is sorted |
| TherapistListing.ListTherapists | src/controllers/therapist.controllers.js:165-248 | for page and limit >= 1: the page is exactly the window at (page - 1) * min(limit, 50) of all matching profiles as Arrange orders them (newest first by default), so at most min(limit, 50) of them and each a match; the total of all matches, the page count, and hasMore exactly when later pages hold entries |
| TherapistProperties.CreateTwiceConflicts | src/controllers/therapist.controllers.js:31-34 | once a create succeeds, a second create by the same therapist is a 409 |
| TherapistProperties.CreatedStudentHasSupervisor | src/controllers/therapist.controllers.js:42-44 | a created student profile names a supervisor |
| TherapistProperties.CreateSkipsAvailabilityChecks | src/controllers/therapist.controllers.js:55-67 | a profile can be created with an availability slot that updateAvailability would refuse |
| TherapistProperties.UpdateCanDetachStudent | src/controllers/therapist.controllers.js:116-124 | an update sending a null supervisorId clears a student's supervisor and succeeds |
| TherapistProperties.EmptyUpdateIsIdentity | src/controllers/therapist.controllers.js:103-124 | an update that sends no field saves the profile unchanged |
| TherapistProperties.VerifyIsIdempotent | src/controllers/therapist.controllers.js:451 | verifying twice with the same verdict gives the same profile |
| TherapistProperties.VerifyStudentNeedsOwnSupervisor | src/controllers/therapist.controllers.js:443-446 | anyone but a student's own supervisor gets a 403 |
| TherapistProperties.ListingIgnoresStatusByDefault | src/controllers/therapist.controllers.js:199-201 | without verifiedOnly=true, the listing does not depend on the verification status |
| TherapistProperties.VerifiedOnlyListsVerified | src/controllers/therapist.controllers.js:199-201 | with verifiedOnly=true, only verified profiles are listed |
| TherapistProperties.SpecializationMatchIsExact | src/controllers/therapist.controllers.js:181-183 | the specialization filter is exact membership: "anxiety" does not find "Anxiety" |
| TherapistProperties.SortKeepsProfiles | src/controllers/therapist.controllers.js:226 | sorting, by a key or newest first, loses and adds no profile |
| SessionModel.ParseStatus | src/models/session.model.js:50-55 | a status string parses exactly when it is one of the seven statuses, to that status |
| SessionModel.ParsePaymentStatus | src/models/session.model.js:91-95 | a payment string parses exactly when it is pending, paid or refunded, to that status |
| SessionModel.DefaultSession | src/models/session.model.js:35-111 | the schema defaults: 60 minutes, pending, video, payment pending, no link, notes, reason or canceller; valid exactly when the fee is non-negative |
| Sessions.Find | src/controllers/session.controllers.js:447-451 | `findById` finds a session exactly when the id is stored |
| Sessions.OrDefault | src/controllers/session.controllers.js:473 | `value \|\| fallback`: a non-empty value, else the fallback |
| Sessions.EffectiveDuration | src/controllers/session.controllers.js:70-71 | `duration \|\| 60`: an absent or zero duration becomes 60 |
| Sessions.SessionFee | src/controllers/session.controllers.js:57-64 | 0 for the pair's first booking; otherwise the requested fee when it is non-zero, else the therapist's rate |
| Sessions.CreateStep | src/controllers/session.controllers.js:23-91 | a booking is created exactly when the three fields are present, the patient and therapist have those roles, the therapist has a profile, a patient books for themselves, the time is in the future and no confirmed, scheduled or completed session of the therapist lies within ±duration; it starts pending, paid, video, with the fee rule applied |
| Sessions.AcceptStep | src/controllers/session.controllers.js:800-827 | accepting needs a non-blank link, the assigned therapist and a pending session; it sets confirmed, stores the link trimmed and keeps notes unless new ones are sent; a non-pending session is a 400 naming its status |
| Sessions.RejectStep | src/controllers/session.controllers.js:849-868 | rejecting needs the assigned therapist and a pending session; it sets rejected, a default reason and the canceller |
| Sessions.RefundOnCancel | src/controllers/session.controllers.js:477-479 | a pending payment becomes refunded; paid and refunded are kept |
| Sessions.CancelStep | src/controllers/session.controllers.js:454-481 | cancelling succeeds exactly for a session that is neither cancelled nor completed, by its patient or its therapist; it records the status, the reason (defaulting to "No reason provided"), the canceller and the refund |
| Sessions.CompleteStep | src/controllers/session.controllers.js:503-520 | completion succeeds exactly for the assigned therapist on a scheduled session, and changes only the status |
| Sessions.NoShowStep | src/controllers/session.controllers.js:541-558 | no-show succeeds exactly for the assigned therapist on a scheduled session, and changes only the status |
| Sessions.UpdateStep | src/controllers/session.controllers.js:372-421 | an update succeeds exactly on a scheduled session, by a party, with a future time free of scheduled or completed sessions within the window, and a duration of at least 15; only the sent fields change |
| Sessions.NotesStep | src/controllers/session.controllers.js:577-596 | notes are stored exactly when they are non-empty and the requester is the assigned therapist; only the notes change |
| Sessions.PaymentStep | src/controllers/session.controllers.js:616-638 | the payment status changes exactly when it is a valid value and the requester is an admin or the session's patient; only the payment status changes |
| Sessions.Commit | src/controllers/session.controllers.js:481-483 | a refusal stores nothing; a document the validators refuse is a 500 and stores nothing; otherwise the document replaces the stored one |
| Sessions.SessionStore.constructor | src/models/session.model.js:3-113 | the session collection starts empty |
| Sessions.SessionStore.Apply | src/controllers/session.controllers.js:481-490 | the reply and the new collection are those of `Commit` |
| Sessions.SessionStore.Create | src/controllers/session.controllers.js:13-100 | a refused or invalid booking stores nothing; otherwise it is stored under a fresh id with status 201 |
| Sessions.SessionStore.Accept | src/controllers/session.controllers.js:795-836 | acceptSession: the accept decision, committed |
| Sessions.SessionStore.Reject | src/controllers/session.controllers.js:843-881 | rejectSession: the reject decision, committed |
| Sessions.SessionStore.Cancel | src/controllers/session.controllers.js:443-495 | cancelSession: the cancel decision, committed |
| Sessions.SessionStore.Complete | src/controllers/session.controllers.js:498-533 | completeSession: the completion decision, committed |
| Sessions.SessionStore.MarkNoShow | src/controllers/session.controllers.js:536-571 | markNoShow: the no-show decision, committed |
| Sessions.SessionStore.Update | src/controllers/session.controllers.js:367-436 | updateSession: the update decision, committed |
| Sessions.SessionStore.AddTherapistNotes | src/controllers/session.controllers.js:574-605 | addTherapistNotes: the notes decision, committed |
| Sessions.SessionStore.UpdatePaymentStatus | src/controllers/session.controllers.js:612-651 | updatePaymentStatus: the payment decision, committed |
| SessionListing.ListFilter | src/controllers/session.controllers.js:153-187 | a supervisor gets a 403; a patient's and a therapist's filter is pinned to their own id; an admin's constrains only what the query sends |
| SessionListing.ListingIsPrivate | src/controllers/session.controllers.js:156-166 | whatever a patient or therapist asks, every listed session is one of theirs |
| SessionListing.AdminSeesEverything | src/controllers/session.controllers.js:167-187 | an admin's empty query lists every session |
| SessionProperties.NoStepSchedules | src/controllers/session.controllers.js:82-91 | no controller moves a session into "scheduled" |
| SessionProperties.CreateNeverSchedules | src/controllers/session.controllers.js:82-91 | a created session is never scheduled |
| SessionProperties.CommitKeepsNoneScheduled | src/controllers/session.controllers.js:481 | saving such a step keeps the collection free of scheduled sessions |
| SessionProperties.ScheduledOnlyOperationsRefuse | src/controllers/session.controllers.js:378-380 | on such a collection, complete, no-show and update always refuse |
| SessionProperties.CancelTwiceRefused | src/controllers/session.controllers.js:454-456 | a second cancellation is refused as already cancelled |
| SessionProperties.CancelRecordsOutcome | src/controllers/session.controllers.js:472-479 | after cancelling, the payment is never pending, and the canceller and a reason are recorded |
| SessionProperties.RejectedSessionCanBeCancelled | src/controllers/session.controllers.js:454-460 | a rejected session can still be cancelled by its patient |
| SessionProperties.AcceptThenRejectRefused | src/controllers/session.controllers.js:816-818 | after an accept, a reject is refused |
| SessionProperties.AcceptedLinkIsTrimmed | src/controllers/session.controllers.js:800-822 | an accepted session's link is non-blank and trimmed |
| SessionProperties.PaymentUpdateChangesOnlyPayment | src/controllers/session.controllers.js:636 | a payment update changes the payment status and nothing else |
| SessionProperties.FreeTrialRule | src/controllers/session.controllers.js:57-64 | the first booking of a pair is free; once a confirmed or completed session exists, the requested fee or the rate applies |
| SessionProperties.ConflictWindowIsInclusive | src/controllers/session.controllers.js:67-78 | the window includes both ends exactly, and excludes one millisecond past them |
| SessionProperties.OnlyBlockingStatusesConflict | src/controllers/session.controllers.js:67-75 | pending, rejected, cancelled and no-show sessions never block a booking |
| Pagination.Ceil | src/controllers/session.controllers.js:212 | `Math.ceil`: the least integer not below the value |
| Pagination.TotalPages | src/controllers/session.controllers.js:212 | `Math.ceil(total / limit)`, with Infinity or NaN for a zero limit |
| Pagination.RealOfProduct | src/controllers/session.controllers.js:192 | the real of a product is the product of the reals |
| Pagination.ScaleKeepsOrder | src/controllers/session.controllers.js:212 | multiplying by a positive real keeps an order |
| Pagination.ScaleKeepsStrictOrder | src/controllers/session.controllers.js:212 | multiplying by a positive real keeps a strict order |
| Pagination.QuotientTimesDivisor | src/controllers/session.controllers.js:212 | (total / limit) * limit is total |
| Pagination.BelowQuotient | src/controllers/session.controllers.js:214 | an integer below total / limit, times limit, is below total |
| Pagination.AtLeastQuotient | src/controllers/session.controllers.js:214 | an integer at least total / limit, times limit, is at least total |
| Pagination.TotalPagesIsTight | src/controllers/session.controllers.js:212 | totalPages pages hold every entry, and one page fewer would not |
| Pagination.HasNextIffMoreEntries | src/controllers/session.controllers.js:214 | hasNextPage holds exactly when some entry lies beyond the current page |
| Pagination.SkipBeforePage | src/controllers/session.controllers.js:192 | the skipped entries and this page's entries fill the first page * limit positions |
| Pagination.CappedLimit | src/controllers/therapist.controllers.js:219 | the capped limit is at most the cap, and a limit within the cap is kept |
| Pagination.Min | src/controllers/user.controllers.js:321 | the minimum of two integers |
| Pagination.PageOf | src/controllers/session.controllers.js:200-201 | `.skip(skip).limit(n)` is the window of at most n entries from skip, or nothing past the end |
| Supervisors.CreateStepAsWritten | src/controllers/supervisor.controllers.js:16-42 | as written: a create passes for a supervisor without a profile whose license is non-blank and not held as sent; the trimmed license is what is stored |
| Supervisors.CreateStep | src/controllers/supervisor.controllers.js:16-42 | corrected: the duplicate check is made on the trimmed license that is stored; otherwise the same decision |
| Supervisors.UpdateStep | src/controllers/supervisor.controllers.js:64-88 | an update needs an existing profile; a sent license must be non-blank and held by no other profile, and is stored trimmed; the students are kept |
| Supervisors.StudentIndex | src/controllers/supervisor.controllers.js:337 | `indexOf`: -1 exactly when the student is absent, else the first position holding the student |
| Supervisors.Removed | src/controllers/supervisor.controllers.js:343 | `splice(index, 1)` drops exactly the first occurrence of the student: the list before that index is unchanged and the list after it moves down by one |
| Supervisors.AddStep | src/controllers/supervisor.controllers.js:291-308 | a student is added exactly when the profile exists, the id names a therapist and the student is not yet listed; it is appended |
| Supervisors.RemoveStep | src/controllers/supervisor.controllers.js:331-343 | a student is removed exactly when the profile exists and lists the student; the first occurrence is dropped, the others keep their order, and every other field of the profile is kept |
| Supervisors.FindSupervisor | src/controllers/supervisor.controllers.js:64-67 | `findOne({ userId })` finds the profile exactly when the user has one |
| Supervisors.Commit | src/models/supervisor.models.js:11-15 | a refusal stores nothing; a license another profile holds trips the unique index, a 500; otherwise the profile is stored |
| Supervisors.ListSupervisors | src/controllers/supervisor.controllers.js:162-255 | the limit is capped at 50, the page is the window at (page - 1) * limit, and hasMore holds exactly when entries lie beyond the page |
| Supervisors.ValidAfterSave | src/models/supervisor.models.js:11-15 | saving a valid profile whose license no other profile holds keeps licenses unique and student lists duplicate-free |
| Supervisors.RemovedKeepsDistinct | src/controllers/supervisor.controllers.js:343 | splicing a student out of a duplicate-free list leaves it duplicate-free |
| Supervisors.SupervisorStore.constructor | src/models/supervisor.models.js:3-24 | the collection starts empty |
| Supervisors.SupervisorStore.Apply | src/controllers/supervisor.controllers.js:88 | commits a step: the reply and the new collection are those of `Commit`, and the collection stays valid |
| Supervisors.SupervisorStore.Create | src/controllers/supervisor.controllers.js:12-53 | createSupervisorProfile: the corrected create decision, committed with 201; the collection stays valid |
| Supervisors.SupervisorStore.Update | src/controllers/supervisor.controllers.js:60-99 | updateSupervisorProfile: the update decision, committed with 200; the collection stays valid |
| Supervisors.SupervisorStore.AddStudent | src/controllers/supervisor.controllers.js:287-320 | addStudentToSupervision: the add decision, committed; the collection stays valid |
| Supervisors.SupervisorStore.RemoveStudent | src/controllers/supervisor.controllers.js:327-355 | removeStudentFromSupervision: the remove decision, committed; the collection stays valid |
| SupervisorProperties.PaddedDuplicateLicenseIsServerError | src/controllers/supervisor.controllers.js:32-40 | as written, " L1" beside a stored "L1" passes the duplicate check and ends in a 500 from the unique index; the corrected step gives the 409 |
| SupervisorProperties.PaddedLicenseTrims | src/controllers/supervisor.controllers.js:40 | " L1" trims to "L1" |
| SupervisorProperties.CreateNeverHitsUniqueIndex | src/controllers/supervisor.controllers.js:32-42 | with the corrected check every create the controller accepts is stored: duplicates are always the 409 |
| SupervisorProperties.UpdateWithOwnLicenseSucceeds | src/controllers/supervisor.controllers.js:75-85 | resending one's own license is not a conflict |
| SupervisorProperties.AddKeepsDistinct | src/controllers/supervisor.controllers.js:303-308 | pushing an unlisted student keeps the list duplicate-free |
| SupervisorProperties.RemovedKeepsPositions | src/controllers/supervisor.controllers.js:337-343 | splicing out a student keeps every other entry: those before it at their index, those after it one index lower |
| SupervisorProperties.RemoveDropsStudent | src/controllers/supervisor.controllers.js:337-343 | in a duplicate-free list the removed student is gone, every other student stays, and each keeps its position (shifted down by one past the removed one) |
| SupervisorProperties.AddThenRemoveRestores | src/controllers/supervisor.controllers.js:308-343 | push followed by splice of the same student restores the list |
| SupervisorProperties.AddRemoveStepsRoundTrip | src/controllers/supervisor.controllers.js:291-343 | adding then removing a student through the controllers restores the profile |
| SupervisorProperties.AddTwiceConflicts | src/controllers/supervisor.controllers.js:303-305 | adding a student a second time is refused |
| FeedbackModel.ParseFeedbackType | src/models/feedback.models.js:20-21 | a type string parses exactly when it names one of the three feedback types, to that type |
| FeedbackModel.AllCategoriesComplete | src/models/feedback.models.js:73-145 | the list of twelve categories holds every category |
| FeedbackModel.PresentRatings | src/models/feedback.models.js:255-259 | the non-null category ratings: the k-th is the rating of the k-th rated category, so every rated category contributes exactly once, in order; the list is empty exactly when no category is rated |
| FeedbackModel.SumBounds | src/models/feedback.models.js:258-260 | a sum of values in [lo, hi] lies between n * lo and n * hi |
| FeedbackModel.BoundsGrowByOne | src/models/feedback.models.js:258-260 | adding one value in [lo, hi] to such a sum of n gives such a sum of n + 1 |
| FeedbackModel.MeanBounds | src/models/feedback.models.js:258-260 | the mean of a non-empty list of values in [lo, hi] is in [lo, hi] |
| FeedbackModel.DivisionBounds | src/models/feedback.models.js:258-260 | dividing a sum of n such values by n stays in [lo, hi] |
| FeedbackModel.AverageCategoryRating | src/models/feedback.models.js:255-261 | the virtual is null exactly when no category is rated, and on a valid document lies in [1, 5] |
| FeedbackModel.AverageCategoryRatingIsMean | src/models/feedback.models.js:255-261 | a non-null virtual has at most two decimals and lies within 0.005 of the mean of the rated categories |
| FeedbackModel.RatedMean | src/models/feedback.models.js:256-260 | null exactly when no listed category is rated, otherwise the rated values' mean rounded to two decimals, within 0.005 of it |
| FeedbackModel.PresentRatingsInRange | src/models/feedback.models.js:255-261 | on a valid document the rounded mean of the rated categories is in [1, 5] |
| FeedbackModel.PresentRatingsAreRatings | src/models/feedback.models.js:73-145 | on a valid document every rated category is in [1, 5] |
| FeedbackModel.RoundedMeanInRange | src/models/feedback.models.js:258-260 | the mean of ratings in [1, 5], rounded to hundredths, is in [1, 5] |
| Feedbacks.OrNull | src/controllers/feedback.controllers.js:166-170 | `x \|\| null`: the empty string becomes null, any other value is kept |
| Feedbacks.PatientRuleError | src/controllers/feedback.controllers.js:76-106 | patient feedback passes exactly for a patient, to a therapist, naming a completed session of the pair that the patient has not yet reviewed |
| Feedbacks.TherapistRuleError | src/controllers/feedback.controllers.js:110-131 | therapist feedback passes exactly for a therapist, to a patient, naming a completed session of the pair |
| Feedbacks.SupervisorRuleError | src/controllers/feedback.controllers.js:135-149 | supervisor feedback passes exactly for a supervisor, to a therapist, with no session or one of the therapist's |
| Feedbacks.CreateStep | src/controllers/feedback.controllers.js:62-170 | missing type, recipient or rating is the 400; otherwise a feedback is created exactly when the recipient exists, the type is valid and its rules pass, with the controller's and the schema's defaults |
| Feedbacks.MergeRatings | src/controllers/feedback.controllers.js:387-388 | `{ ...old, ...new }`: every category sent takes its new value, every other keeps its old one |
| Feedbacks.UpdateStep | src/controllers/feedback.controllers.js:369-409 | an update succeeds exactly for the sender of an existing feedback with no rating or one in [1, 5]; only the fields sent change, and the type, parties and session never do |
| Feedbacks.RespondStep | src/controllers/feedback.controllers.js:471-491 | a response is stored exactly when it is non-empty and the requester is the recipient, with the given time |
| Feedbacks.FlagStep | src/controllers/feedback.controllers.js:512-523 | an admin sets the flag on an existing feedback, true when none is sent; anyone else is refused |
| Feedbacks.SenderAsSeen | src/controllers/feedback.controllers.js:214-225 | anonymous feedback shows the placeholder sender, with the real role, to everyone except the sender and admins |
| Feedbacks.ViewFeedback | src/controllers/feedback.controllers.js:198-228 | getFeedbackById succeeds exactly for the sender, the recipient or an admin, and shows the sender as `SenderAsSeen` says |
| Feedbacks.TherapistRatings | src/controllers/feedback.controllers.js:21-26 | at most one rating per stored feedback |
| Feedbacks.TherapistRatingsComplete | src/controllers/feedback.controllers.js:21-26 | the ratings averaged are the overall ratings of the visible patient feedback to the therapist, one per such feedback and in collection order: the k-th rating comes from the k-th qualifying position |
| Feedbacks.TherapistRatingsSound | src/controllers/feedback.controllers.js:21-26 | every averaged rating is the overall rating of some visible patient feedback to the therapist |
| Feedbacks.MeanOrZero | src/controllers/feedback.controllers.js:28-33 | no ratings give 0; otherwise the result has two decimals and lies within 0.005 of the arithmetic mean, and ratings in [1, 5] give a result in [1, 5] |
| Feedbacks.TherapistAverageIsMean | src/controllers/feedback.controllers.js:21-33 | the average stored for a therapist is 0 without qualifying ratings, otherwise within 0.005 of the mean of those ratings |
| Feedbacks.IndexOfId | src/controllers/feedback.controllers.js:369 | -1 exactly when no stored feedback has the id, else a position holding it |
| Feedbacks.FindFeedback | src/controllers/feedback.controllers.js:369-372 | `findById` finds a feedback exactly when one has the id |
| Feedbacks.Stored | src/controllers/feedback.controllers.js:411 | save() replaces a stored document in place and appends a new one |
| Feedbacks.Deleted | src/controllers/feedback.controllers.js:451 | `findByIdAndDelete` removes exactly that document and keeps the others in order |
| Feedbacks.Commit | src/models/feedback.models.js:243-252 | a refusal stores nothing; a validator failure or a session-related feedback without a session is a 500 that stores nothing; otherwise the document is stored |
| Feedbacks.StoredKeepsValid | src/models/feedback.models.js:243-252 | storing a valid document keeps every stored feedback valid, with distinct ids |
| Feedbacks.DeletedKeepsValid | src/controllers/feedback.controllers.js:451 | deleting keeps the collection valid |
| Feedbacks.AverageInRange | src/controllers/feedback.controllers.js:12-40 | over a valid collection the refreshed average is 0 or in [1, 5], so the therapist's save succeeds |
| Feedbacks.FeedbackStore.constructor | src/models/feedback.models.js:1-267 | the collection starts empty |
| Feedbacks.FeedbackStore.SaveAndRefresh | src/controllers/feedback.controllers.js:178-180 | commits a step and, after a successful save, sets the recipient's average to the recomputed one |
| Feedbacks.FeedbackStore.Create | src/controllers/feedback.controllers.js:47-185 | createFeedback: the create decision committed; patient feedback refreshes the therapist's average |
| Feedbacks.FeedbackStore.Update | src/controllers/feedback.controllers.js:356-426 | updateFeedback: the update decision committed; the average is refreshed only for patient feedback and only when a rating was sent |
| Feedbacks.FeedbackStore.Respond | src/controllers/feedback.controllers.js:468-502 | addResponseToFeedback: the response decision committed; no average changes |
| Feedbacks.FeedbackStore.Flag | src/controllers/feedback.controllers.js:509-529 | flagFeedback: the flag decision committed; no average changes |
| Feedbacks.FeedbackStore.Delete | src/controllers/feedback.controllers.js:433-461 | deleteFeedback: a missing feedback is a 404, one the requester may not delete a 403; otherwise it is removed, and deleting patient feedback refreshes the average |
| FeedbackStats.ReceivedVisible | src/controllers/feedback.controllers.js:550-553 | exactly the visible feedback the user received |
| FeedbackStats.CountRating | src/controllers/feedback.controllers.js:563-570 | the number of feedback with a given overall rating, at most the total |
| FeedbackStats.CountRatingIsMatchingPositions | src/controllers/feedback.controllers.js:563-570 | each bucket's count is the number of positions whose overall rating is exactly the bucket's value, the length `filter(...)` yields |
| FeedbackStats.CountType | src/controllers/feedback.controllers.js:601-611 | the number of feedback of a given type, at most the total |
| FeedbackStats.CountTypeIsMatchingPositions | src/controllers/feedback.controllers.js:601-611 | each per-type count is the number of positions holding feedback of that type |
| FeedbackStats.DistributionCoversAll | src/controllers/feedback.controllers.js:563-570 | with whole-number ratings the five buckets count every feedback once |
| FeedbackStats.FractionalRatingUncounted | src/controllers/feedback.controllers.js:563-570 | a fractional rating falls in no bucket, so the buckets count fewer than the total |
| FeedbackStats.BucketsAtMostLength | src/controllers/feedback.controllers.js:563-570 | the buckets never count more than the total |
| FeedbackStats.TypeCountsCoverAll | src/controllers/feedback.controllers.js:601-611 | the per-type counts add up to the total |
| FeedbackStats.CategoryValues | src/controllers/feedback.controllers.js:589-592 | a category's values are, in order, the ratings of the feedback that rated it, one per such feedback; empty exactly when none did |
| FeedbackStats.CategoryAverage | src/controllers/feedback.controllers.js:589-598 | a category's average exists exactly when some feedback rated it |
| FeedbackStats.CategoryAverageIsMean | src/controllers/feedback.controllers.js:593-597 | a category's average has at most two decimals and lies within 0.005 of the mean of that category's values |
| FeedbackStats.AllOverall | src/controllers/feedback.controllers.js:556-560 | the overall ratings, one per feedback, in order |
| FeedbackStats.CategoryAverages | src/controllers/feedback.controllers.js:572-598 | the map holds exactly the rated categories, each with its average |
| FeedbackStats.StatsOf | src/controllers/feedback.controllers.js:550-633 | over the visible feedback the user received: the total, an average within 0.005 of their mean (0 for none), the j-th bucket counting ratings exactly j, an average for exactly the rated categories, and the three per-type counts |
| FeedbackStats.StatsCountsCoverTotal | src/controllers/feedback.controllers.js:563-611 | the per-type counts of the statistics add up to the total received, and so do the five buckets when every received rating is a whole number |
| FeedbackStats.StatsStep | src/controllers/feedback.controllers.js:539-628 | getFeedbackStats succeeds exactly for the user or an admin, for an existing user, with `StatsOf` |
| FeedbackStats.TherapistRating | src/controllers/feedback.controllers.js:645-671 | getTherapistRating gives the count and the same average the stored refresh computes |
| FeedbackProperties.CreateNeverTripsSessionHook | src/models/feedback.models.js:243-252 | the controller's checks give every session-related feedback a session, so the hook never refuses a create |
| FeedbackProperties.UpdateNeverTripsSessionHook | src/models/feedback.models.js:243-252 | an update keeps type and session, so a stored feedback keeps meeting the hook |
| FeedbackProperties.SupervisorFeedbackNeedsNoSession | src/models/feedback.models.js:243-252 | supervisor feedback meets the hook without a session |
| FeedbackProperties.PatientFeedbackOncePerSession | src/controllers/feedback.controllers.js:99-106 | once a patient's feedback on a session is stored, a second one is the 409 |
| FeedbackProperties.TherapistNotesAreNotDeduplicated | src/controllers/feedback.controllers.js:110-131 | a therapist's second note on the same session is accepted like the first |
| FeedbackProperties.OnlySenderUpdates | src/controllers/feedback.controllers.js:375-377 | anyone but the sender is refused an update, whatever the body |
| FeedbackProperties.MergeKeepsOtherCategories | src/controllers/feedback.controllers.js:387-388 | an update naming one category keeps every other category's rating |
| FeedbackProperties.HidingLeavesAverageStale | src/controllers/feedback.controllers.js:419-421 | hiding a patient's feedback leaves the therapist's stored average counting it |
| FeedbackProperties.AnonymousFeedbackHidesSenderFromRecipient | src/controllers/feedback.controllers.js:214-225 | anonymity hides the sender from the recipient and never from an admin |
| FeedbackProperties.PatientListIsOwn | src/controllers/feedback.controllers.js:256-269 | a patient's list holds only feedback they gave or received |
| FeedbackProperties.SupervisorListExcludesOtherReviews | src/controllers/feedback.controllers.js:256-269 | a supervisor's list never holds another supervisor's reviews |
| AccountModel.Public | src/controllers/auth.controller.js:62-64 | `select("-password -refreshToken")` keeps the id, name, email, role and active flag |
| AccountModel.NormalEmail | src/models/user.models.js:18-19 | the email setters trim and lowercase; the result is as long as the trimmed email |
| AccountModel.FindByEmailFrom | src/controllers/auth.controller.js:96 | the first position at or after a start that holds the email, or none when no later account holds it |
| AccountModel.FindByEmail | src/controllers/auth.controller.js:96 | `findOne({ email })`: the first account holding the email, and none exactly when no account holds it |
| AccountModel.FindByIdFrom | src/controllers/auth.controller.js:193 | the first position at or after a start that holds the id, or none when no later account holds it |
| AccountModel.FindById | src/controllers/auth.controller.js:193 | `findById`: the first account holding the id, and none exactly when no account holds it |
| AccountModel.FindByIdAfterEdit | src/controllers/auth.controller.js:112-113 | editing an account's other fields moves no id lookup |
| AccountModel.FindByEmailAfterEdit | src/controllers/auth.controller.js:112-113 | editing an account's other fields moves no email lookup |
| AccountModel.ValidAfterAppend | src/models/user.models.js:13-20 | appending an account with a fresh id and email keeps ids and emails unique |
| AccountModel.ValidAfterEdit | src/models/user.models.js:13-20 | editing one account's other fields keeps ids and emails unique |
| Auth.RegistrationRole | src/controllers/auth.controller.js:48-58 | an absent role is patient; a sent role is accepted exactly when it is patient, therapist or supervisor; never admin |
| Auth.RegisterStep | src/controllers/auth.controller.js:37-51 | a present blank field is the 400, a taken email the 409, an unknown role the 400; otherwise the draft carries the body's fields and the role |
| Auth.Created | src/controllers/auth.controller.js:54-59 | the stored account has the trimmed name, the normalised email, the hash and the role, is active and has no refresh token |
| Auth.RegisterCommit | src/controllers/auth.controller.js:54-72 | a refusal stores nothing, a draft the schema refuses is a 500, and a valid one is appended and returned without secrets with 201 |
| Auth.RegisterKeepsValid | src/models/user.models.js:13-20 | a registration that passed the duplicate check keeps ids and emails unique |
| Auth.LoginOutcome | src/controllers/auth.controller.js:92-135 | missing credentials are the 400; a login succeeds exactly for a stored email whose password matches, and stores the new refresh token; every other failure is the same 401 |
| Auth.LogoutOutcome | src/controllers/auth.controller.js:146-166 | logout always answers 200 and unsets only the requester's refresh token |
| Auth.MessageOr | src/controllers/auth.controller.js:224 | `error?.message \|\| fallback`: a non-empty message, else the fallback |
| Auth.RefreshOutcome | src/controllers/auth.controller.js:179-225 | every failure is a 401 that changes nothing; a refresh succeeds exactly when a token was sent, it verifies, and it equals the one stored for that user, which is then replaced by the new one |
| Auth.StoredAsWritten | src/models/user.models.js:31-33 | as written, an account reads back without a refresh token and otherwise unchanged |
| Accounts.ValidAfterRemoval | src/controllers/user.controllers.js:402 | removing one account keeps ids and emails unique |
| Accounts.AccountStore.constructor | src/models/user.models.js:4-36 | the collection starts empty |
| Accounts.AccountStore.Apply | src/controllers/auth.controller.js:54-72 | commits a registration step and hands out the next id exactly when an account was created |
| Accounts.AccountStore.Register | src/controllers/auth.controller.js:33-73 | POST /auth/register: the auth registration decision, committed |
| Accounts.AccountStore.RegisterUser | src/controllers/user.controllers.js:59-106 | the user controller's registration decision, committed |
| Accounts.AccountStore.Login | src/controllers/auth.controller.js:88-136 | loginUser, with the new state and reply those of `LoginOutcome` |
| Accounts.AccountStore.Logout | src/controllers/auth.controller.js:146-166 | logoutUser, with the new state and reply those of `LogoutOutcome` |
| Accounts.AccountStore.Refresh | src/controllers/auth.controller.js:179-225 | refreshAccessToken, with the new state and reply those of `RefreshOutcome` |
| Accounts.AccountStore.UpdateProfile | src/controllers/user.controllers.js:361-381 | updateUserProfile, with the new state and reply those of `UpdateProfileOutcome` |
| Accounts.AccountStore.Delete | src/controllers/user.controllers.js:388-407 | deleteUser, with the new state and reply those of `DeleteOutcome` |
| Accounts.AccountStore.ToggleActive | src/controllers/user.controllers.js:414-436 | toggleUserActive, with the new state and reply those of `ToggleOutcome` |
| AccountProperties.RegisteredRoleIsNeverAdmin | src/controllers/auth.controller.js:48-58 | neither registration endpoint creates an admin |
| AccountProperties.AbsentNameIsServerError | src/controllers/auth.controller.js:37-39 | an absent name passes the blank check and is refused by the schema as a 500 |
| AccountProperties.SecondRegistrationConflicts | src/controllers/auth.controller.js:41-45 | registering the same email again, in any case or padding, is the 409 |
| AccountProperties.DigitNameOnlyRefusedByUserEndpoint | src/controllers/user.controllers.js:67-69 | a name with a digit that the auth endpoint accepts is refused by the user endpoint |
| AccountProperties.LoginFailuresLookAlike | src/controllers/auth.controller.js:97-106 | an unknown email and a wrong password give the same reply |
| AccountProperties.RotationRetiresOldToken | src/controllers/auth.controller.js:200-210 | after a refresh the used token is refused and the new one accepted |
| AccountProperties.LogoutEndsRefresh | src/controllers/auth.controller.js:148-158 | after logout no refresh token is accepted for that user |
| AccountProperties.LoginThenRefreshSucceeds | src/controllers/auth.controller.js:109-113 | the refresh token a login issues is accepted by the next refresh |
| AccountProperties.ReadBackAsWritten | src/models/user.models.js:31-33 | the collection as it reads back under the schema as written: same length, every account without its token |
| AccountProperties.RefreshAlwaysFailsAsWritten | src/models/user.models.js:31-33 | as written, no refresh ever succeeds |
| AccountProperties.LoginThenRefreshFailsAsWritten | src/controllers/auth.controller.js:200-203 | as written, the token a login just issued is refused as expired or used |
| AccountProperties.ToggleTwiceRestores | src/controllers/user.controllers.js:428 | toggling an account twice restores the collection |
| AccountProperties.ToggleMessageNamesNewState | src/controllers/user.controllers.js:428-435 | the toggle message says "activated" exactly when the account was inactive |
| AccountProperties.ToggleActiveAsWrittenIsNoOp | src/controllers/user.controllers.js:428-435 | for an active account, the toggle as written leaves the collection unchanged and says "activated", while the intended toggle deactivates it and says "deactivated" |
| AccountProperties.UserControllerLoginNeverSucceeds | src/controllers/user.controllers.js:22-42 | the user controller's login refuses exactly where the auth controller's does, and answers 500 with nothing stored where the auth controller's logs in |
| AccountProperties.UserControllerRefreshNeverSucceeds | src/controllers/user.controllers.js:22-42 | the user controller's refresh refuses exactly where the auth controller's does, and answers 401 with nothing stored where the auth controller's rotates the token |
| AccountProperties.DeleteRemovesOnlyTarget | src/controllers/user.controllers.js:402 | after a delete the id is gone and every other account remains |
| AccountProperties.DeletedUserIsLockedOut | src/middlewares/auth.middleware.js:27-33 | a deleted user can neither refresh nor pass verifyJWT |
| AccountProperties.DeactivatedUserStillLogsIn | src/middlewares/auth.middleware.js:17-36 | even with the toggle corrected, toggling an account changes neither whether login succeeds nor whether verifyJWT lets a request through: neither reads isActive |
| Users.RegisterStep | src/controllers/user.controllers.js:63-91 | the auth registration decision with one more refusal, between the blank and the duplicate check, for a name containing a digit |
| Users.UpdateProfileOutcome | src/controllers/user.controllers.js:364-376 | a falsy or blank name is the 400, a digit the other 400; the update succeeds exactly for a digit-free name of valid trimmed length, and stores it trimmed |
| Users.TrimKeepsNoDigit | src/controllers/user.controllers.js:368-373 | trimming cannot add a digit |
| Users.UpdatedNameIsClean | src/controllers/user.controllers.js:364-376 | a stored profile name is trimmed, 2 to 100 characters and digit-free |
| Users.Without | src/controllers/user.controllers.js:402 | the account at one position is removed and the others keep their order |
| Users.DeleteOutcome | src/controllers/user.controllers.js:392-402 | deleting oneself is the 400, a missing id the 404; otherwise the account is removed |
| Users.ToggleOutcome | src/controllers/user.controllers.js:418-435 | the toggle as intended (the corrected half of a finding): toggling oneself is the 400, a missing id the 404; otherwise only the account's active flag is negated and the message names the new state |
| Users.ToggleOutcomeAsWritten | src/controllers/user.controllers.js:414-435 | the toggle as written: the same 400 and 404, and otherwise the stored account unchanged, returned as stored, with the "activated" message |
| Users.LoginOutcome | src/controllers/user.controllers.js:121-167 | the user controller's login as written: stores nothing and never succeeds; missing fields are the 400, an unknown email or wrong password the 401, and a correct password the 500 of the missing token method |
| Users.RefreshOutcome | src/controllers/user.controllers.js:210-254 | the user controller's refresh as written: stores nothing and always answers 401; a missing token is the unauthorized 401, and a token that matches the stored one gets the TypeError's message |
| Users.Selected | src/controllers/user.controllers.js:313-316 | exactly the accounts with the requested role, or all of them |
| Users.SelectedInOrder | src/controllers/user.controllers.js:313-319 | the selection keeps insertion order: its k-th account is the k-th selected position |
| Users.NewestFirst | src/controllers/user.controllers.js:320 | `sort({ createdAt: -1 })`: the reverse of insertion order |
| Users.Window | src/controllers/user.controllers.js:319-322 | `.limit(l).skip(s)`: the public views of the entries from s, at most l of them |
| Users.ListUsers | src/controllers/user.controllers.js:310-336 | the page is the window of the newest-first selection, with the total and the page count |
| Users.WholeWindow | src/controllers/user.controllers.js:321-322 | a window from the start at least as long as the list holds all of it |
| Users.DefaultListingShowsAll | src/controllers/user.controllers.js:310 | with the default page and limit every selected account is listed, up to 1000 |
| Users.PositionNewestFirst | src/controllers/user.controllers.js:320 | every selected account has a position in the newest-first order |
| Users.PagesHoldEverySelected | src/controllers/user.controllers.js:334 | the page count is the least number of pages that holds every selected account |
| Middleware.IncomingAccessToken | src/middlewares/auth.middleware.js:17-19 | the cookie when truthy, else the header with its first "Bearer " removed, else nothing |
| Middleware.VerifyJwt | src/middlewares/auth.middleware.js:15-40 | verifyJWT admits exactly a present token that verifies to a stored user, who is passed on without secrets; every failure is a 401 |
| Middleware.BearerHeaderYieldsToken | src/middlewares/auth.middleware.js:17-19 | without a cookie, "Bearer t" yields t |
| Middleware.BareBearerIsUnauthorized | src/middlewares/auth.middleware.js:17-23 | a header holding only "Bearer " leaves an empty token, refused with 401 |
| Middleware.CookieWins | src/middlewares/auth.middleware.js:17-19 | a truthy cookie wins over any header |
| Middleware.RoleNames | src/middlewares/auth.middleware.js:62 | the names of the roles, in order |
| Middleware.VerifyRole | src/middlewares/auth.middleware.js:53-68 | no user is the 401, an unlisted role the 403; exactly the listed roles pass, unchanged |
| Middleware.DeniedMessageNamesEveryRole | src/middlewares/auth.middleware.js:59-64 | the 403 message names every allowed role |
| Middleware.ChainAdmitsListedRoles | src/middlewares/auth.middleware.js:15-68 | verifyJWT then verifyRole admits exactly the stored users whose role is listed |
| Text.Lower | src/models/user.models.js:19 | lowercasing keeps the length and folds each ASCII capital |
| Text.LowerIdempotent | src/models/user.models.js:19 | lowercasing twice is lowercasing once |
| Text.IndexOf | src/middlewares/auth.middleware.js:19 | the first occurrence of a needle, or -1 exactly when it does not occur |
| Text.ReplaceFirst | src/middlewares/auth.middleware.js:19 | replaces only the first occurrence of the pattern, and nothing when it is absent |
| Text.BlankIffAllSpace | src/controllers/auth.controller.js:37 | a string trims to "" exactly when every character is white space |
| Text.TrimIdempotent | src/models/user.models.js:9 | trimming twice is trimming once |
| Text.TrimIsTrimmed | src/models/user.models.js:9 | a trimmed string has no white space at either end |
| Text.TrimmedIsFixed | src/models/user.models.js:9 | a string with no white space at either end is its own trim |
| Text.JoinContainsParts | src/middlewares/auth.middleware.js:62 | every part appears in the joined string |

## Left out

Mechanisms:

- Persistence: MongoDB queries, `populate`, `aggregate`, hooks other than the feedback pre-save hook, and write ordering. Each collection is a sequence or map, and query results are functions over it.
- HTTP plumbing: Express request and response objects, cookies as a transport, `asyncHandler`, the routers, and logging to the console or a file.
- Foreign code: bcrypt hashing and comparison, JWT signing and verification, and the clock. They are parameters: a comparison oracle, opaque tokens, a `Verified` outcome, and `now`.
- Number fields the schemas declare as `Number` but the model holds as `int`: the assessment's `impactLevel`, the therapist's `yearsOfExperience`, a qualification's `year`, and a session's `duration` and `scheduledAt`. A fractional value such as an impact level of 2.5 passes the schema's min and max checks, and the model cannot state it. The scoring and the range checks are modelled for whole values only.
- Sessions.CreateStep and Sessions.UpdateStep: The source reads `scheduledAt` by its truthiness. A `scheduledAt` of 0 is falsy: a create then gets the "required" 400, and an update ignores the field. The model holds a sent 0 as present, so, with a clock past the epoch, a create gets the "in the future" 400 and an update refuses it.
- FeedbackStats.CategoryAverages and FeedbackModel.AverageCategoryRating: the reply's `categoryAverages` values and the `averageCategoryRating` virtual are the strings `toFixed(2)` yields. The model holds the numbers those strings spell. The statistics' `averageRating` and getTherapistRating's average are numbers, because the controller passes them through `parseFloat`.
- Floating point: scores, ratings and averages are exact reals. `toFixed(2)` followed by `parseFloat` is modelled as rounding to hundredths. Number formatting inside reason texts is a parameter.
- `parseInt` and `parseFloat` yielding `NaN`, and query values that are not numbers.
- Unicode: `toLowerCase` folds ASCII letters only.
- Regular-expression search in the therapist and supervisor listings, and the query filters of the feedback listing other than the role scope.
- Unknown keys in a feedback's `categoryRatings`; a null `overallRating` on update.
- Wiring defects in files outside the model:
  - `src/models/therapist.models.js:112` passes a `therapistSchema` that is not defined;
  - `src/routes/therapist.routes.js:14` imports a file name that does not exist;
  - `src/app.js` never mounts the session, assessment, feedback and supervisor routers.
  The model treats every handler as reachable.

Data-model simplifications:

- A therapist profile is keyed by its owner's user id. `verifyTherapist` looks the profile up by its own `_id`; since `userId` is unique, the model identifies the two.
- `createdAt` order is insertion order, so newest first is the reverse of the collection. This holds for both Users.NewestFirst and TherapistListing.Arrange.
- Sessions.SessionStore.Create: the stored `_id` is a counter, not an ObjectId.
- TherapistListing.ListTherapists, Supervisors.ListSupervisors and Users.ListUsers: for a page or limit below 1 the model returns None. Mongo would reject a negative skip, or read a zero limit as no limit; the model does not describe those replies.
- Role: the model adds `admin`, which the controllers test and the user schema's role enum lacks.

Behaviours of the code that the model keeps as they are:

- No handler sets a session to "scheduled", so complete, no-show and update always refuse (`SessionProperties.ScheduledOnlyOperationsRefuse`). This reads as a missing step in the design rather than a slip in one line, so it is stated as a property rather than listed as a finding.
- A rejected session can still be cancelled (`SessionProperties.RejectedSessionCanBeCancelled`).
- The role checks for the supervisor endpoints other than create are made by the routers, not by the handlers; `Supervisors.UpdateStep` does not check the role.
- `createTherapistProfile` does not validate availability; only `updateAvailability` does.
- An update may clear a therapist's supervisor.
- The therapist average goes stale when feedback is hidden (`FeedbackProperties.HidingLeavesAverageStale`).
- Repeated therapist-to-patient notes on one session are allowed (`FeedbackProperties.TherapistNotesAreNotDeduplicated`).
- `isActive` is not declared in the user schema, and neither login nor `verifyJWT` reads it (`AccountProperties.DeactivatedUserStillLogsIn`). As written the toggle stores nothing (see Findings).
- Auth.Created: gives every new account `isActive` true, as if the schema declared the flag with that default. As written no account document carries the flag. The flag is modelled so that the intended toggle can be stated.
- Accounts.AccountStore.ToggleActive: commits the intended toggle (`Users.ToggleOutcome`), not the no-op the handler performs as written (`Users.ToggleOutcomeAsWritten`), so the store's flag is the one the handler is meant to flip.
- AccountProperties.ToggleMessageNamesNewState: is stated about the intended toggle. As written the message is always "activated" (`AccountProperties.ToggleActiveAsWrittenIsNoOp`).
- The email lookup at login and registration applies the schema's trim and lowercase setters to the query value, as Mongoose casts query values through the schema.

Operations not modelled:

- `changePassword` (`src/controllers/auth.controller.js:254-273`, `src/controllers/user.controllers.js:282-301`): a bcrypt check and a hash write, both foreign code.
- `getCurrentUser`, `getUserById`, `getTherapistById`, `getMyProfile`, `getSupervisorById`, `getStudentsUnderSupervisor`, `getSessionById`, `getMyPatientSessions`, `getMyTherapistSessions` and `getPendingSessions`: single lookups or listings with no rule beyond those modelled.
- `deleteTherapistProfile`, `deleteSupervisorProfile` and `deleteSession`: a lookup and a delete.
- The session statistics handlers: `toFixed` rates over counts.
- The user controller's own logout handler (`src/controllers/user.controllers.js:177-197`) decides as the auth controller's does. The model has one copy, in `Auth`. Its login and refresh handlers differ, and are modelled in `Users`.
- JWT payload fields such as `iat`, and token expiry: folded into the `Verified` outcome.
- `src/scripts`, `src/docs` and `docs/api-examples.js`.

## Findings

| source | as written | input that shows it | evidently intended | confidence | as-written member | corrected member |
|---|---|---|---|---|---|---|
| src/controllers/supervisor.controllers.js:32 | the duplicate-license check looks up the license as sent, but line 40 stores it trimmed | a stored license "L1" and a create with " L1": the duplicate check passes, and the unique index turns the save into a 500 | the duplicate check uses the trimmed license, so a duplicate is the 409 | not executed | SupervisorProperties.PaddedDuplicateLicenseIsServerError | SupervisorProperties.CreateNeverHitsUniqueIndex |
| src/controllers/user.controllers.js:428-435 | `isActive` is not declared in the user schema, so the read gives undefined, the negation is always true, the save writes nothing, and the message always says "activated" | toggle an active account: it stays active and the reply says "User activated successfully" | the schema declares `isActive`; the flag is negated and the message names the new state | not executed | AccountProperties.ToggleActiveAsWrittenIsNoOp | AccountProperties.ToggleMessageNamesNewState |
| src/controllers/user.controllers.js:29 | the user controller's token helper calls `generateAccessToken`, which the user model does not define, so its catch answers 500 | log in through the user controller with a correct password: the reply is the 500, and a refresh through it is a 401 | the helper signs tokens as the auth controller's does, so login and refresh succeed | not executed | AccountProperties.UserControllerLoginNeverSucceeds | Auth.LoginOutcome |
| src/models/user.models.js:31 | the schema declares `refreshtoken`, while the controllers write and compare `refreshToken` | log in, then refresh with the token just issued: the stored value reads back absent, so the refresh is refused as expired or used | the schema declares `refreshToken`, and the token a login issues is accepted | not executed | AccountProperties.LoginThenRefreshFailsAsWritten | AccountProperties.LoginThenRefreshSucceeds |
