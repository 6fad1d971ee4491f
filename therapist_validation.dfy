/**
 * The body validators of updateAvailability, updateQualifications and
 * updateSpecializations. Each walks its input in order and stops at the
 * first offending entry, so each is a loop here, proved against a
 * function that names the first error.
 */
module TherapistValidation {
  import opened Common
  import opened Text
  import opened Envelopes
  import opened TherapistModel

  predicate IsDigit(c: char) {
    '0' <= c <= '9'
  }

  function DigitValue(c: char): (d: int)
    requires IsDigit(c)
    ensures 0 <= d <= 9
  {
    c as int - '0' as int
  }

  /** The pattern ^([0-1]?[0-9]|2[0-3]):[0-5][0-9]$: H:MM or HH:MM on a 24-hour clock. */
  predicate IsTime(s: string) {
    || (|s| == 4 && IsDigit(s[0]) && s[1] == ':' && '0' <= s[2] <= '5' && IsDigit(s[3]))
    || (|s| == 5 && (('0' <= s[0] <= '1' && IsDigit(s[1])) || (s[0] == '2' && '0' <= s[1] <= '3'))
        && s[2] == ':' && '0' <= s[3] <= '5' && IsDigit(s[4]))
  }

  /** split(":").map(Number), then hours * 60 + minutes. */
  function TimeMinutes(s: string): (m: int)
    requires IsTime(s)
    ensures 0 <= m < 24 * 60
  {
    if |s| == 4 then DigitValue(s[0]) * 60 + DigitValue(s[2]) * 10 + DigitValue(s[3])
    else (DigitValue(s[0]) * 10 + DigitValue(s[1])) * 60 + DigitValue(s[3]) * 10 + DigitValue(s[4])
  }

  /** The HH:MM rendering of a minute of the day. */
  function FormatTime(m: int): (s: string)
    requires 0 <= m < 24 * 60
    ensures |s| == 5 && IsTime(s) && TimeMinutes(s) == m
  {
    var h, mm := m / 60, m % 60;
    [DigitChar(h / 10), DigitChar(h % 10), ':', DigitChar(mm / 10), DigitChar(mm % 10)]
  }

  /** Every five-character time is the rendering of its own minute count. */
  lemma FormatTimeRoundTrip(s: string)
    requires IsTime(s) && |s| == 5
    ensures FormatTime(TimeMinutes(s)) == s
  {
    var m := TimeMinutes(s);
    var h := DigitValue(s[0]) * 10 + DigitValue(s[1]);
    var mm := DigitValue(s[3]) * 10 + DigitValue(s[4]);
    assert m == h * 60 + mm && 0 <= mm < 60;
    assert m / 60 == h && m % 60 == mm;
    assert FormatTime(m)[0] == s[0] && FormatTime(m)[1] == s[1] && FormatTime(m)[3] == s[3];
  }

  const ValidDays: seq<string> := ["monday", "tuesday", "wednesday", "thursday", "friday", "saturday", "sunday"]

  const SlotFieldsRequired: string := "Each time slot must have start and end time"
  const TimeFormat: string := "Time must be in HH:MM format (24-hour)"
  const StartBeforeEnd: string := "Start time must be before end time"
  const InvalidDayPrefix: string := "Invalid day: "
  const AvailabilityForPrefix: string := "Availability for "
  const MustBeArraySuffix: string := " must be an array"
  const QualificationFieldsRequired: string := "Each qualification must have degree and institution"
  const InvalidYearPrefix: string := "Invalid year: "

  /** The test applied to one slot, in the controller's order. */
  function SlotError(slot: TimeSlot): (e: Option<ApiError>)
    ensures e.None? <==> slot.start != "" && slot.end != "" && IsTime(slot.start) && IsTime(slot.end)
                         && TimeMinutes(slot.start) < TimeMinutes(slot.end)
    ensures e.Some? ==> e.value.statusCode == 400
  {
    if slot.start == "" || slot.end == "" then Some(NewApiError(400, SlotFieldsRequired))
    else if !IsTime(slot.start) || !IsTime(slot.end) then Some(NewApiError(400, TimeFormat))
    else if TimeMinutes(slot.start) >= TimeMinutes(slot.end) then Some(NewApiError(400, StartBeforeEnd))
    else None
  }

  predicate SlotValid(slot: TimeSlot) {
    SlotError(slot).None?
  }

  /** The error of the first offending slot, if any. */
  function FirstSlotError(slots: seq<TimeSlot>): Option<ApiError> {
    if slots == [] then None
    else if SlotError(slots[0]).Some? then SlotError(slots[0])
    else FirstSlotError(slots[1..])
  }

  /** The test applied to one key of the availability object. */
  function DayError(key: string, value: DayValue): Option<ApiError> {
    if Lower(key) !in ValidDays then Some(NewApiError(400, InvalidDayPrefix + key))
    else if value.NotAnArray? then Some(NewApiError(400, AvailabilityForPrefix + key + MustBeArraySuffix))
    else FirstSlotError(value.slots)
  }

  function FirstAvailabilityError(availability: Availability): Option<ApiError> {
    if availability == [] then None
    else if DayError(availability[0].0, availability[0].1).Some? then DayError(availability[0].0, availability[0].1)
    else FirstAvailabilityError(availability[1..])
  }

  /** Every key is a weekday in any letter case, mapped to an array of well-formed, non-empty slots. */
  predicate AvailabilityValid(availability: Availability) {
    forall i | 0 <= i < |availability| ::
      Lower(availability[i].0) in ValidDays && availability[i].1.Slots?
      && forall j | 0 <= j < |availability[i].1.slots| :: SlotValid(availability[i].1.slots[j])
  }

  lemma {:induction false} FirstSlotErrorNoneIff(slots: seq<TimeSlot>)
    ensures FirstSlotError(slots).None? <==> forall j | 0 <= j < |slots| :: SlotValid(slots[j])
  {
    if slots != [] {
      FirstSlotErrorNoneIff(slots[1..]);
      assert forall j | 1 <= j < |slots| :: slots[j] == slots[1..][j - 1];
    }
  }

  /** The validator lets an object through exactly when it is valid. */
  lemma {:induction false} FirstAvailabilityErrorNoneIff(availability: Availability)
    ensures FirstAvailabilityError(availability).None? <==> AvailabilityValid(availability)
  {
    if availability != [] {
      FirstAvailabilityErrorNoneIff(availability[1..]);
      if availability[0].1.Slots? {
        FirstSlotErrorNoneIff(availability[0].1.slots);
      }
      assert forall i | 1 <= i < |availability| :: availability[i] == availability[1..][i - 1];
    }
  }

  /** The inner loop: the slots of one day. */
  method ValidateSlots(slots: seq<TimeSlot>) returns (err: Option<ApiError>)
    ensures err == FirstSlotError(slots)
  {
    var i := 0;
    while i < |slots|
      invariant 0 <= i <= |slots|
      invariant FirstSlotError(slots) == FirstSlotError(slots[i..])
    {
      assert slots[i..][0] == slots[i] && slots[i..][1..] == slots[i + 1..];
      var e := SlotError(slots[i]);
      if e.Some? {
        return e;
      }
      i := i + 1;
    }
    return None;
  }

  /** for (const day in availability) { ... for (const slot of availability[day]) { ... } }. */
  method ValidateAvailability(availability: Availability) returns (err: Option<ApiError>)
    ensures err == FirstAvailabilityError(availability)
    ensures err.None? <==> AvailabilityValid(availability)
  {
    err := FirstAvailabilityErrorOf(availability);
    FirstAvailabilityErrorNoneIff(availability);
  }

  /** The two nested loops, which stop at the first offending key or slot. */
  method FirstAvailabilityErrorOf(availability: Availability) returns (err: Option<ApiError>)
    ensures err == FirstAvailabilityError(availability)
  {
    var i := 0;
    while i < |availability|
      invariant 0 <= i <= |availability|
      invariant FirstAvailabilityError(availability) == FirstAvailabilityError(availability[i..])
    {
      assert availability[i..][0] == availability[i] && availability[i..][1..] == availability[i + 1..];
      var (key, value) := availability[i];
      if Lower(key) !in ValidDays {
        return Some(NewApiError(400, InvalidDayPrefix + key));
      }
      if value.NotAnArray? {
        return Some(NewApiError(400, AvailabilityForPrefix + key + MustBeArraySuffix));
      }
      var e := ValidateSlots(value.slots);
      if e.Some? {
        return e;
      }
      i := i + 1;
    }
    return None;
  }

  // ---------- qualifications

  /** The test applied to one qualification; a year of 0 or none is not checked. */
  function QualificationError(q: Qualification, currentYear: int): (e: Option<ApiError>)
    ensures e.None? <==>
      q.degree != "" && q.institution != ""
      && (q.year.Some? && q.year.value != 0 ==> 1950 <= q.year.value <= currentYear)
  {
    if q.degree == "" || q.institution == "" then
      Some(NewApiError(400, QualificationFieldsRequired))
    else if q.year.Some? && q.year.value != 0 && (q.year.value < 1950 || q.year.value > currentYear) then
      Some(NewApiError(400, InvalidYearPrefix + IntToString(q.year.value)))
    else None
  }

  function FirstQualificationError(qs: seq<Qualification>, currentYear: int): Option<ApiError> {
    if qs == [] then None
    else if QualificationError(qs[0], currentYear).Some? then QualificationError(qs[0], currentYear)
    else FirstQualificationError(qs[1..], currentYear)
  }

  lemma {:induction false} FirstQualificationErrorNoneIff(qs: seq<Qualification>, currentYear: int)
    ensures FirstQualificationError(qs, currentYear).None? <==>
      forall i | 0 <= i < |qs| :: QualificationError(qs[i], currentYear).None?
  {
    if qs != [] {
      FirstQualificationErrorNoneIff(qs[1..], currentYear);
      assert forall i | 1 <= i < |qs| :: qs[i] == qs[1..][i - 1];
    }
  }

  /** currentYear is new Date().getFullYear(). */
  method ValidateQualifications(qs: seq<Qualification>, currentYear: int) returns (err: Option<ApiError>)
    ensures err == FirstQualificationError(qs, currentYear)
    ensures err.None? <==> forall i | 0 <= i < |qs| :: QualificationError(qs[i], currentYear).None?
  {
    FirstQualificationErrorNoneIff(qs, currentYear);
    var i := 0;
    while i < |qs|
      invariant 0 <= i <= |qs|
      invariant FirstQualificationError(qs, currentYear) == FirstQualificationError(qs[i..], currentYear)
    {
      assert qs[i..][0] == qs[i] && qs[i..][1..] == qs[i + 1..];
      var e := QualificationError(qs[i], currentYear);
      if e.Some? {
        return e;
      }
      i := i + 1;
    }
    return None;
  }

  // ---------- specializations

  const BlankSpecialization: string := "Each specialization must be a non-empty string"

  /** Every specialization must be non-blank after trimming; they are stored untrimmed. */
  method ValidateSpecializations(specs: seq<string>) returns (err: Option<ApiError>)
    ensures err.None? <==> forall i | 0 <= i < |specs| :: Trim(specs[i]) != ""
    ensures err.Some? ==> err.value == NewApiError(400, BlankSpecialization)
  {
    var i := 0;
    while i < |specs|
      invariant 0 <= i <= |specs|
      invariant forall k | 0 <= k < i :: Trim(specs[k]) != ""
    {
      if Trim(specs[i]) == "" {
        return Some(NewApiError(400, BlankSpecialization));
      }
      i := i + 1;
    }
    return None;
  }
}
