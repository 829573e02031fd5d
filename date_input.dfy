/**
 * The date input's handler (src/components/DateInput.tsx): a hand-written
 * matcher for `DATE_REGEX`, the `Date` constructor's arithmetic behind
 * `getDaysInMonth` and the past/future comparison, and `validateDate`, with
 * the current moment passed in.
 */
module DateInput {
  import opened Util
  import opened Form
  import opened Numerals
  import opened RawInput

  // ---------------------------------------------------------------------------
  // DATE_REGEX = /^(\d{1,2})\/(\d{1,2})\/(\d{1,4})$/
  // ---------------------------------------------------------------------------

  /** The three capture groups, in the order the text gives them. */
  datatype DateGroups = DateGroups(day: string, month: string, year: string)

  /** Each group is 1-2, 1-2 and 1-4 digits. */
  predicate GroupsMatch(g: DateGroups)
  {
    && AllDigits(g.day) && 1 <= |g.day| <= 2
    && AllDigits(g.month) && 1 <= |g.month| <= 2
    && AllDigits(g.year) && 1 <= |g.year| <= 4
  }

  /** The text the pattern describes for the given groups. */
  function Joined(g: DateGroups): string
  {
    g.day + "/" + g.month + "/" + g.year
  }

  /** The first index at or after `from` that holds `c`. */
  function IndexOf(s: string, c: char, from: nat): (r: Option<nat>)
    requires from <= |s|
    ensures r.Some? ==> from <= r.value < |s| && s[r.value] == c
    ensures r.Some? ==> forall i :: from <= i < r.value ==> s[i] != c
    ensures r.None? ==> forall i :: from <= i < |s| ==> s[i] != c
    decreases |s| - from
  {
    if from == |s| then None
    else if s[from] == c then Some(from)
    else IndexOf(s, c, from + 1)
  }

  /** `DATE_REGEX.exec(text)`: the groups of a text of the pattern's form, or null (None). */
  function ExecDateRegex(text: string): (m: Option<DateGroups>)
    ensures m.Some? ==> GroupsMatch(m.value) && Joined(m.value) == text
  {
    match IndexOf(text, '/', 0)
    case None => None
    case Some(i) =>
      match IndexOf(text, '/', i + 1)
      case None => None
      case Some(j) =>
        var g := DateGroups(text[..i], text[i + 1..j], text[j + 1..]);
        assert text == text[..i] + "/" + text[i + 1..j] + "/" + text[j + 1..];
        if GroupsMatch(g) then Some(g) else None
  }

  /** Every text of the pattern's form matches, with its own groups. */
  lemma ExecDateRegexComplete(g: DateGroups)
    requires GroupsMatch(g)
    ensures ExecDateRegex(Joined(g)) == Some(g)
  {
    var text := Joined(g);
    var i, j := |g.day|, |g.day| + 1 + |g.month|;
    assert text[i] == '/' && text[j] == '/';
    assert forall k :: 0 <= k < i ==> text[k] == g.day[k];
    assert forall k :: i < k < j ==> text[k] == g.month[k - i - 1];
    assert forall k :: j < k < |text| ==> text[k] == g.year[k - j - 1];
    var first := IndexOf(text, '/', 0);
    assert first == Some(i);
    var second := IndexOf(text, '/', i + 1);
    assert second == Some(j);
    assert text[..i] == g.day;
    assert text[i + 1..j] == g.month;
    assert text[j + 1..] == g.year;
  }

  // ---------------------------------------------------------------------------
  // The Date constructor's calendar
  // ---------------------------------------------------------------------------

  /** The `Date` constructor reads a year argument from 0 to 99 as 1900 to 1999. */
  function ConstructorYear(year: int): int
  {
    if 0 <= year <= 99 then 1900 + year else year
  }

  /** The proleptic Gregorian leap-year rule that `Date` follows. */
  predicate IsLeapYear(y: int)
  {
    y % 4 == 0 && (y % 100 != 0 || y % 400 == 0)
  }

  /** The number of days of month `m` (zero-based) of year `y`. */
  function MonthLength(y: int, m: int): (n: int)
    requires 0 <= m < 12
    ensures 28 <= n <= 31
    ensures m == 1 ==> (n == 29 <==> IsLeapYear(y))
  {
    if m == 1 then (if IsLeapYear(y) then 29 else 28)
    else if m == 3 || m == 5 || m == 8 || m == 10 then 30
    else 31
  }

  /**
   * `getDaysInMonth(year, month)` is `new Date(year, month + 1, 0).getDate()`:
   * the constructor rolls month `month + 1` into its year (floor division, which
   * Dafny's `/` and `%` give for a positive divisor), and day 0 is the last day
   * of the month before, whose date is that month's length.
   */
  function GetDaysInMonth(year: int, month: int): (days: int)
    ensures 28 <= days <= 31
  {
    var next := month + 1;
    var y := ConstructorYear(year) + next / 12;
    var m := next % 12;
    if m == 0 then MonthLength(y - 1, 11) else MonthLength(y, m - 1)
  }

  /**
   * It is the length of month `month` itself, rolled into the adjacent year
   * when it is outside 0..11, in the year the constructor reads.
   */
  lemma DaysInMonthOfRolledMonth(year: int, month: int)
    ensures GetDaysInMonth(year, month) == MonthLength(ConstructorYear(year) + month / 12, month % 12)
  {
    var q, r := month / 12, month % 12;
    assert month == 12 * q + r && 0 <= r < 12;
    if r == 11 {
      assert month + 1 == 12 * (q + 1) + 0;
      assert (month + 1) / 12 == q + 1 && (month + 1) % 12 == 0;
    } else {
      assert month + 1 == 12 * q + (r + 1);
      assert (month + 1) / 12 == q && (month + 1) % 12 == r + 1;
    }
  }

  /** Days before 1 January of year `y` (from year 0, for `y >= 0`). */
  function DaysBeforeYear(y: int): int
  {
    365 * y + (y + 3) / 4 - (y + 99) / 100 + (y + 399) / 400
  }

  /** The number of multiples of 4, 100 and 400 up to `y` grows exactly at such a multiple. */
  lemma MultipleOf4Step(y: int)
    ensures (y + 4) / 4 - (y + 3) / 4 == if y % 4 == 0 then 1 else 0
  {
  }

  lemma MultipleOf100Step(y: int)
    ensures (y + 100) / 100 - (y + 99) / 100 == if y % 100 == 0 then 1 else 0
  {
  }

  lemma MultipleOf400Step(y: int)
    ensures (y + 400) / 400 - (y + 399) / 400 == if y % 400 == 0 then 1 else 0
  {
  }

  /** A year has 366 days exactly when it is a leap year. */
  lemma YearLength(y: int)
    ensures DaysBeforeYear(y + 1) - DaysBeforeYear(y) == if IsLeapYear(y) then 366 else 365
  {
    var fours, hundreds, fourHundreds :=
      (y + 4) / 4 - (y + 3) / 4, (y + 100) / 100 - (y + 99) / 100, (y + 400) / 400 - (y + 399) / 400;
    assert DaysBeforeYear(y + 1) - DaysBeforeYear(y) == 365 + fours - hundreds + fourHundreds;
    MultipleOf4Step(y);
    MultipleOf100Step(y);
    MultipleOf400Step(y);
    MultipleOf400Is100(y);
    MultipleOf100Is4(y);
  }

  /** A multiple of 400 is one of 100. */
  lemma MultipleOf400Is100(y: int)
    ensures y % 400 == 0 ==> y % 100 == 0
  {
    if y % 400 == 0 {
      var q := y / 400;
      assert y == 100 * (4 * q);
    }
  }

  /** A multiple of 100 is one of 4. */
  lemma MultipleOf100Is4(y: int)
    ensures y % 100 == 0 ==> y % 4 == 0
  {
    if y % 100 == 0 {
      var q := y / 100;
      assert y == 4 * (25 * q);
    }
  }



  /** Days from 1 January of year `y` to the first of month `m` (zero-based). */
  function DaysBeforeMonth(y: int, m: int): int
    requires 0 <= m <= 12
  {
    if m == 0 then 0 else DaysBeforeMonth(y, m - 1) + MonthLength(y, m - 1)
  }

  /**
   * The day number of `new Date(year, month, day)`: the year read by the
   * constructor, the month rolled into it, and the day counted on from the
   * first of the month, so that day 0 and days past the month's end roll too.
   */
  function DayNumber(year: int, month: int, day: int): int
  {
    var y := ConstructorYear(year) + month / 12;
    DaysBeforeYear(y) + DaysBeforeMonth(y, month % 12) + day - 1
  }

  const MsPerDay := 86400000

  /**
   * A moment in local time: a day number on the scale of `DayNumber` and the
   * milliseconds since that day's midnight.
   */
  datatype Instant = Instant(day: int, millis: nat)

  /** The moment's time value, the quantity `Date` objects are compared by. */
  function TimeValue(t: Instant): int
  {
    t.day * MsPerDay + t.millis
  }

  /** `new Date(year, month, day)`: local midnight of that day. */
  function Midnight(year: int, month: int, day: int): Instant
  {
    Instant(DayNumber(year, month, day), 0)
  }

  // ---------------------------------------------------------------------------
  // validateDate
  // ---------------------------------------------------------------------------

  const NotADate := FormError("Dit is geen geldige datum. Een datum is bijvoorbeeld 19/03/2025.")
  const MonthTooSmall := FormError("Maand moet groter of gelijk aan 1 zijn.")
  const MonthTooLarge := FormError("Maand moet kleiner of gelijk aan 12 zijn.")
  const DayTooSmall := FormError("Dag moet groter of gelijk aan 1 zijn.")
  const NotInPast := FormError("U mag enkel datum in het verleden selecteren.")
  const NotInFuture := FormError("U mag enkel een datum in de toekomst selecteren.")

  /** The error for a day beyond the month's `days`. */
  function DayTooLarge(days: nat): FormError
  {
    FormError("Dag mag niet groter dan " + DecimalString(days) + " zijn.")
  }

  /** The month check: one error when the zero-based month is below 0 or above 11. */
  function MonthErrors(month: int): (e: seq<FormError>)
    ensures |e| <= 1
    ensures e != [] <==> month < 0 || month >= 12
    ensures e == [] || e == [MonthTooSmall] || e == [MonthTooLarge]
  {
    if month < 0 then [MonthTooSmall] else if month >= 12 then [MonthTooLarge] else []
  }

  /** The day check: one error when the day is below 1 or past the month's `days`. */
  function DayErrors(day: int, days: nat): (e: seq<FormError>)
    ensures |e| <= 1
    ensures e != [] <==> day < 1 || day > days
    ensures e == [] || e == [DayTooSmall] || e == [DayTooLarge(days)]
  {
    if day < 1 then [DayTooSmall] else if day > days then [DayTooLarge(days)] else []
  }

  /** Whether `past` rejects the date `[year, month, day]` at `now`. */
  predicate TooLate(past: bool, now: Instant, year: int, month: int, day: int)
  {
    past && TimeValue(Midnight(year, month, day)) > TimeValue(now)
  }

  /** Whether `future` rejects the date at `now`, checked only when `past` did not. */
  predicate TooEarly(past: bool, future: bool, now: Instant, year: int, month: int, day: int)
  {
    !TooLate(past, now, year, month, day) && future && TimeValue(Midnight(year, month, day)) < TimeValue(now)
  }

  /**
   * What `validateDate` does once the pattern matched, on the numbers read
   * from the groups (`month` already made zero-based): the range checks, which
   * only add errors, then the past/future check, which also drops the value.
   */
  function ValidateFields(past: bool, future: bool, now: Instant, year: int, month: int, day: int): Generated<XDate>
  {
    var checks := MonthErrors(month) + DayErrors(day, GetDaysInMonth(year, month));
    if TooLate(past, now, year, month, day) then Generated(checks + [NotInPast], None)
    else if TooEarly(past, future, now, year, month, day) then Generated(checks + [NotInFuture], None)
    else Generated(checks, Some(XDate(year, month, day)))
  }

  /**
   * `validateDate(text)` for a DateInput with the given `past` and `future`
   * props, at moment `now`.
   */
  function ValidateDate(past: bool, future: bool, now: Instant, text: string): Generated<XDate>
  {
    match ExecDateRegex(text)
    case None => Generated([NotADate], None)
    case Some(g) => ValidateFields(past, future, now, NumberOf(g.year), NumberOf(g.month) - 1, NumberOf(g.day))
  }

  /** The handler DateInput gives RawInput; `exec` reads `undefined` as the text "undefined". */
  function DateHandler(past: bool, future: bool, now: Instant): HandlerFn<string, XDate>
  {
    (value: Option<string>) => ValidateDate(past, future, now, JsString(value))
  }

  /** A text not of the pattern's form gives exactly the format error and no value. */
  lemma MalformedDate(past: bool, future: bool, now: Instant, text: string)
    requires ExecDateRegex(text).None?
    ensures ValidateDate(past, future, now, text) == Generated([NotADate], None)
  {
  }

  /** An `undefined` value is read as the text "undefined", which is not a date. */
  lemma UndefinedIsNotADate(past: bool, future: bool, now: Instant)
    ensures DateHandler(past, future, now)(None) == Generated([NotADate], None)
  {
    assert JsString(None) == "undefined";
    assert ExecDateRegex("undefined").None? by {
      var r := IndexOf("undefined", '/', 0);
      assert forall i :: 0 <= i < 9 ==> "undefined"[i] != '/';
    }
  }

  /**
   * A date is compared at its local midnight: `past` rejects a day after
   * today, and `future` rejects a day before today and also today itself
   * once its midnight has passed.
   */
  lemma PastAndFutureByDay(now: Instant, year: int, month: int, day: int)
    requires now.millis < MsPerDay
    ensures TooLate(true, now, year, month, day) <==> DayNumber(year, month, day) > now.day
    ensures TooEarly(false, true, now, year, month, day) <==>
      DayNumber(year, month, day) < now.day || (DayNumber(year, month, day) == now.day && now.millis > 0)
  {
  }

  /** A text of the pattern's form is validated on the numbers its groups spell. */
  lemma WellFormedDate(past: bool, future: bool, now: Instant, g: DateGroups)
    requires GroupsMatch(g)
    ensures ValidateDate(past, future, now, Joined(g))
      == ValidateFields(past, future, now, NumberOf(g.year), NumberOf(g.month) - 1, NumberOf(g.day))
  {
    ExecDateRegexComplete(g);
  }

  /**
   * One month error exactly when the month is outside 0..11, one day error
   * exactly when the day is below 1 or past the month's length; neither stops
   * the parse. A violated `past` adds its error and drops the value; otherwise
   * a violated `future` does. The format error never appears here.
   */
  lemma FieldChecks(past: bool, future: bool, now: Instant, year: int, month: int, day: int)
    ensures var r := ValidateFields(past, future, now, year, month, day);
      var days := GetDaysInMonth(year, month);
      var late, early := TooLate(past, now, year, month, day), TooEarly(past, future, now, year, month, day);
      && (MonthTooSmall in r.errors || MonthTooLarge in r.errors <==> month < 0 || month > 11)
      && (DayTooSmall in r.errors || DayTooLarge(days) in r.errors <==> day < 1 || day > days)
      && (NotInPast in r.errors <==> late)
      && (NotInFuture in r.errors <==> early)
      && NotADate !in r.errors
      && r.value == (if late || early then None else Some(XDate(year, month, day)))
  {
    var days := GetDaysInMonth(year, month);
    var late, early := TooLate(past, now, year, month, day), TooEarly(past, future, now, year, month, day);
    var temporal := if late then [NotInPast] else if early then [NotInFuture] else [];
    assert ValidateFields(past, future, now, year, month, day).errors
      == MonthErrors(month) + DayErrors(day, days) + temporal;
    DateErrorLengths(days);
    ConcatMembership(MonthErrors(month), DayErrors(day, days), temporal);
  }

  /** Membership in a concatenation of three lists. */
  lemma ConcatMembership<T>(a: seq<T>, b: seq<T>, c: seq<T>)
    ensures forall x :: x in a + b + c <==> x in a || x in b || x in c
  {
  }

  /** The number of errors is the number of checks failed. */
  lemma FieldErrorCount(past: bool, future: bool, now: Instant, year: int, month: int, day: int)
    ensures |ValidateFields(past, future, now, year, month, day).errors| ==
      (if month < 0 || month > 11 then 1 else 0)
      + (if day < 1 || day > GetDaysInMonth(year, month) then 1 else 0)
      + (if TooLate(past, now, year, month, day) || TooEarly(past, future, now, year, month, day) then 1 else 0)
  {
  }

  /** The date errors have pairwise different lengths, so no two are the same message. */
  lemma DateErrorLengths(days: nat)
    requires 28 <= days <= 31
    ensures |NotADate.message| == 64
    ensures |MonthTooSmall.message| == 39 && |MonthTooLarge.message| == 41
    ensures |DayTooSmall.message| == 37 && |DayTooLarge(days).message| == 32
    ensures |NotInPast.message| == 45 && |NotInFuture.message| == 48
  {
    assert |DecimalString(days)| == 2;
  }

  /** The numbers `Number()` reads from the groups of `19/03/2025`. */
  lemma ValidDateNumbers()
    ensures NumberOf("19") == 19 && NumberOf("03") == 3 && NumberOf("2025") == 2025
  {
    NumberOfAppend("1", '9');
    NumberOfAppend("0", '3');
    NumberOfAppend("2", '0');
    NumberOfAppend("20", '2');
    NumberOfAppend("202", '5');
    assert "1" + ['9'] == "19" && "0" + ['3'] == "03";
    assert "2" + ['0'] == "20" && "20" + ['2'] == "202" && "202" + ['5'] == "2025";
  }

  lemma ValidDateFields(now: Instant)
    ensures ValidateFields(false, false, now, 2025, 2, 19) == Generated([], Some(XDate(2025, 2, 19)))
  {
    assert GetDaysInMonth(2025, 2) == 31;
  }

  /** `19/03/2025` gives `[2025, 2, 19]` without errors when neither `past` nor `future` is set. */
  lemma ExampleValidDate(now: Instant)
    ensures ValidateDate(false, false, now, "19/03/2025") == Generated([], Some(XDate(2025, 2, 19)))
  {
    var g := DateGroups("19", "03", "2025");
    WellFormedDate(false, false, now, g);
    ValidDateNumbers();
    ValidDateFields(now);
    assert Joined(g) == "19/03/2025";
  }

  /** The numbers `Number()` reads from the groups of `31/02/2024`. */
  lemma LeapFebruaryNumbers()
    ensures NumberOf("31") == 31 && NumberOf("02") == 2 && NumberOf("2024") == 2024
  {
    NumberOfAppend("3", '1');
    NumberOfAppend("0", '2');
    NumberOfAppend("2", '0');
    NumberOfAppend("20", '2');
    NumberOfAppend("202", '4');
    assert "3" + ['1'] == "31" && "0" + ['2'] == "02";
    assert "2" + ['0'] == "20" && "20" + ['2'] == "202" && "202" + ['4'] == "2024";
  }

  lemma LeapFebruaryFields(now: Instant)
    ensures ValidateFields(false, false, now, 2024, 1, 31) == Generated([DayTooLarge(29)], Some(XDate(2024, 1, 31)))
  {
    assert GetDaysInMonth(2024, 1) == 29;
  }

  lemma DayTooLargeMessage29()
    ensures DayTooLarge(29).message == "Dag mag niet groter dan 29 zijn."
  {
    assert DecimalString(29) == "29";
  }

  /** `31/02/2024` is flagged against 29 days, 2024 being a leap year, and still parses. */
  lemma LeapFebruaryParse(now: Instant, text: string)
    requires text == "31/02/2024"
    ensures ValidateDate(false, false, now, text) == ValidateFields(false, false, now, 2024, 1, 31)
  {
    var g := DateGroups("31", "02", "2024");
    assert Joined(g) == text;
    WellFormedDate(false, false, now, g);
    LeapFebruaryNumbers();
  }

  lemma ExampleLeapFebruary(now: Instant)
    ensures ValidateDate(false, false, now, "31/02/2024") == Generated([DayTooLarge(29)], Some(XDate(2024, 1, 31)))
    ensures DayTooLarge(29).message == "Dag mag niet groter dan 29 zijn."
  {
    LeapFebruaryParse(now, "31/02/2024");
    LeapFebruaryFields(now);
    DayTooLargeMessage29();
  }


}
