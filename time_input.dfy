/**
 * The time input's handler (src/components/TimeInput.tsx): a hand-written
 * matcher for `TIME_REGEX` and `handleTime`, with the clock's current hour and
 * minute passed in.
 */
module TimeInput {
  import opened Util
  import opened Form
  import opened Numerals
  import opened RawInput

  // ---------------------------------------------------------------------------
  // TIME_REGEX = /^(\d{2}):(\d{2})$/
  // ---------------------------------------------------------------------------

  /** The two capture groups. */
  datatype TimeGroups = TimeGroups(hours: string, minutes: string)

  /** Each group is exactly two digits. */
  predicate GroupsMatch(g: TimeGroups)
  {
    AllDigits(g.hours) && |g.hours| == 2 && AllDigits(g.minutes) && |g.minutes| == 2
  }

  function Joined(g: TimeGroups): string
  {
    g.hours + ":" + g.minutes
  }

  /** `TIME_REGEX.exec(text)`: the groups of a text of the pattern's form, or null (None). */
  function ExecTimeRegex(text: string): (m: Option<TimeGroups>)
    ensures m.Some? ==> GroupsMatch(m.value) && Joined(m.value) == text
  {
    if |text| == 5 && text[2] == ':' && AllDigits(text[..2]) && AllDigits(text[3..]) then
      assert text == text[..2] + ":" + text[3..];
      Some(TimeGroups(text[..2], text[3..]))
    else
      None
  }

  /** Every text of the pattern's form matches, with its own groups. */
  lemma ExecTimeRegexComplete(g: TimeGroups)
    requires GroupsMatch(g)
    ensures ExecTimeRegex(Joined(g)) == Some(g)
  {
    var text := Joined(g);
    assert text[..2] == g.hours && text[3..] == g.minutes;
  }

  // ---------------------------------------------------------------------------
  // handleTime
  // ---------------------------------------------------------------------------

  /** The clock's `getHours()` and `getMinutes()`. */
  datatype ClockTime = ClockTime(hours: int, minutes: int)

  const NotATime := FormError("Ongelid tijdsformaat. Voer een tijd in zoals 12:30 of 22:41.")
  const PastRequired := FormError("Het tijdstip moet in het verleden liggen.")
  const FutureRequired := FormError("Het tijdstip moet in de toekomst liggen.")

  /** `(hours, minutes)` comes before the clock's hour and minute. */
  predicate Before(now: ClockTime, hours: int, minutes: int)
  {
    hours < now.hours || (hours == now.hours && minutes < now.minutes)
  }

  /** `(hours, minutes)` comes after the clock's hour and minute. */
  predicate After(now: ClockTime, hours: int, minutes: int)
  {
    hours > now.hours || (hours == now.hours && minutes > now.minutes)
  }

  /**
   * What `handleTime` does once the pattern matched: no range check; with
   * `past` set, a time before now gets the "must be in the past" error;
   * otherwise, with `future` set, a time after now gets the "must be in the
   * future" error; a time that gets neither is returned.
   */
  function TimeFields(past: bool, future: bool, now: ClockTime, hours: int, minutes: int): (r: Generated<XTime>)
    ensures r.errors == [] || r.errors == [PastRequired] || r.errors == [FutureRequired]
    ensures r.value.Some? <==> r.errors == []
  {
    if past && Before(now, hours, minutes) then Generated([PastRequired], None)
    else if future && After(now, hours, minutes) then Generated([FutureRequired], None)
    else Generated([], Some(XTime(hours, minutes)))
  }

  /** `handleTime(text)` for a TimeInput with the given `past` and `future` props, at clock time `now`. */
  function HandleTime(past: bool, future: bool, now: ClockTime, text: string): (r: Generated<XTime>)
    ensures |r.errors| <= 1
    ensures r.value.Some? <==> r.errors == []
  {
    match ExecTimeRegex(text)
    case None => Generated([NotATime], None)
    case Some(g) => TimeFields(past, future, now, NumberOf(g.hours), NumberOf(g.minutes))
  }

  /** The handler TimeInput gives RawInput; `exec` reads `undefined` as the text "undefined". */
  function TimeHandler(past: bool, future: bool, now: ClockTime): HandlerFn<string, XTime>
  {
    (value: Option<string>) => HandleTime(past, future, now, JsString(value))
  }

  /** A text not of the pattern's form gives exactly the format error and no value. */
  lemma MalformedTime(past: bool, future: bool, now: ClockTime, text: string)
    requires ExecTimeRegex(text).None?
    ensures HandleTime(past, future, now, text) == Generated([NotATime], None)
  {
  }

  /** A text of the pattern's form is handled on the numbers its groups spell. */
  lemma WellFormedTime(past: bool, future: bool, now: ClockTime, g: TimeGroups)
    requires GroupsMatch(g)
    ensures HandleTime(past, future, now, Joined(g))
      == TimeFields(past, future, now, NumberOf(g.hours), NumberOf(g.minutes))
  {
    ExecTimeRegexComplete(g);
  }

  /** The time errors have pairwise different lengths, so no two are the same message. */
  lemma TimeErrorLengths()
    ensures |NotATime.message| == 60 && |PastRequired.message| == 41 && |FutureRequired.message| == 40
  {
  }

  /**
   * The past check fires exactly when `past` is set and the time is before
   * now; the future check exactly when the past check did not fire, `future`
   * is set and the time is after now. The value is the parsed pair, unchecked.
   */
  lemma TimeChecks(past: bool, future: bool, now: ClockTime, hours: int, minutes: int)
    ensures var r := TimeFields(past, future, now, hours, minutes);
      && (r.errors == [PastRequired] <==> past && Before(now, hours, minutes))
      && (r.errors == [FutureRequired] <==> !(past && Before(now, hours, minutes)) && future && After(now, hours, minutes))
      && NotATime !in r.errors
      && (r.value.Some? ==> r.value.value == XTime(hours, minutes))
  {
    TimeErrorLengths();
  }

  /** With neither `past` nor `future`, every well-formed text is accepted as it reads. */
  lemma NoRangeCheck(now: ClockTime, g: TimeGroups)
    requires GroupsMatch(g)
    ensures HandleTime(false, false, now, Joined(g)) == Generated([], Some(XTime(NumberOf(g.hours), NumberOf(g.minutes))))
  {
    WellFormedTime(false, false, now, g);
  }

  /** `12:30`, `24:00` and `99:99` all parse, the last two although no clock shows them. */
  lemma ExampleTimes(now: ClockTime)
    ensures HandleTime(false, false, now, "12:30") == Generated([], Some(XTime(12, 30)))
    ensures HandleTime(false, false, now, "24:00") == Generated([], Some(XTime(24, 0)))
    ensures HandleTime(false, false, now, "99:99") == Generated([], Some(XTime(99, 99)))
  {
    NumberOfTwoDigits('1', '2');
    NumberOfTwoDigits('3', '0');
    NumberOfTwoDigits('2', '4');
    NumberOfTwoDigits('0', '0');
    NumberOfTwoDigits('9', '9');
    NoRangeCheck(now, TimeGroups("12", "30"));
    NoRangeCheck(now, TimeGroups("24", "00"));
    NoRangeCheck(now, TimeGroups("99", "99"));
    assert Joined(TimeGroups("12", "30")) == "12:30";
    assert Joined(TimeGroups("24", "00")) == "24:00";
    assert Joined(TimeGroups("99", "99")) == "99:99";
  }

  /**
   * As written, both checks point the wrong way: at 12:00 with `past` set,
   * 08:00 (in the past) is refused with "must be in the past" and 18:00 is
   * accepted; with `future` set, 18:00 is refused with "must be in the future".
   */
  lemma TimeDirectionReversed()
    ensures TimeFields(true, false, ClockTime(12, 0), 8, 0) == Generated([PastRequired], None)
    ensures TimeFields(true, false, ClockTime(12, 0), 18, 0) == Generated([], Some(XTime(18, 0)))
    ensures TimeFields(false, true, ClockTime(12, 0), 18, 0) == Generated([FutureRequired], None)
  {
  }

  /** The checks as their messages describe them: `past` refuses a later time, `future` an earlier one. */
  function IntendedTimeFields(past: bool, future: bool, now: ClockTime, hours: int, minutes: int): (r: Generated<XTime>)
    ensures r.errors == [] || r.errors == [PastRequired] || r.errors == [FutureRequired]
    ensures r.value.Some? <==> r.errors == []
    ensures r.value.Some? ==> r.value.value == XTime(hours, minutes)
    ensures r.value.Some? && past ==> !After(now, hours, minutes)
    ensures r.value.Some? && future ==> !Before(now, hours, minutes)
    ensures r.errors == [PastRequired] ==> past && After(now, hours, minutes)
    ensures r.errors == [FutureRequired] ==> future && Before(now, hours, minutes)
  {
    if past && After(now, hours, minutes) then Generated([PastRequired], None)
    else if future && Before(now, hours, minutes) then Generated([FutureRequired], None)
    else Generated([], Some(XTime(hours, minutes)))
  }

  /** `handleTime` with the checks pointing the way their messages say. */
  function IntendedHandleTime(past: bool, future: bool, now: ClockTime, text: string): (r: Generated<XTime>)
    ensures |r.errors| <= 1
    ensures r.value.Some? <==> r.errors == []
    ensures ExecTimeRegex(text).None? ==> r == Generated([NotATime], None)
    ensures r.value.Some? && past ==> !After(now, r.value.value.hours, r.value.value.minutes)
    ensures r.value.Some? && future ==> !Before(now, r.value.value.hours, r.value.value.minutes)
  {
    match ExecTimeRegex(text)
    case None => Generated([NotATime], None)
    case Some(g) => IntendedTimeFields(past, future, now, NumberOf(g.hours), NumberOf(g.minutes))
  }

  /** The corrected handler accepts exactly what the reversed one refuses among past and future times. */
  lemma IntendedDirection()
    ensures IntendedTimeFields(true, false, ClockTime(12, 0), 8, 0) == Generated([], Some(XTime(8, 0)))
    ensures IntendedTimeFields(true, false, ClockTime(12, 0), 18, 0) == Generated([PastRequired], None)
    ensures IntendedTimeFields(false, true, ClockTime(12, 0), 18, 0) == Generated([], Some(XTime(18, 0)))
  {
  }
}
