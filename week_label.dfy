/**
 * `pd.to_datetime(label + "-1", format="%W. KW %Y-%w")`.
 *
 * The format is matched as Python's and pandas' strptime match it: it becomes
 * the regular expression
 *   (?P<W>5[0-3]|[0-4]\d|\d)\.\s+KW\s+(?P<Y>\d\d\d\d)-(?P<w>[0-6])
 * compiled case-insensitively, which must match the whole text. The week,
 * the year and the weekday are then turned into a day of the year with the
 * `%W` convention (week 1 starts on the first Monday of the year, the days
 * before it are week 0), rolled back into the previous year when that day of
 * the year is not positive, and converted into a date.
 */
module WeekLabel {
  import opened Wrappers
  import opened Calendar

  /** What the three directives `%W`, `%Y` and `%w` capture. */
  datatype WeekFields = WeekFields(week: int, year: int, weekdayDigit: int)

  /** `\d`, restricted to ASCII digits. */
  predicate IsDigit(c: char) {
    '0' <= c <= '9'
  }

  function DigitValue(c: char): (v: int)
    requires IsDigit(c)
    ensures 0 <= v <= 9
  {
    c as int - '0' as int
  }

  function DigitChar(v: int): (c: char)
    requires 0 <= v <= 9
    ensures IsDigit(c) && DigitValue(c) == v
  {
    ('0' as int + v) as char
  }

  /** `\s` of Python's `re` on text: the characters `str.isspace` accepts. */
  predicate IsSpace(c: char) {
    || ('\t' <= c <= '\r')
    || ('\U{1C}' <= c <= ' ')
    || c == '\U{85}' || c == '\U{A0}' || c == '\U{1680}'
    || ('\U{2000}' <= c <= '\U{200A}')
    || c == '\U{2028}' || c == '\U{2029}' || c == '\U{202F}' || c == '\U{205F}' || c == '\U{3000}'
  }

  /** The literal `K` under IGNORECASE: also `k` and the Kelvin sign, which case-folds to `k`. */
  predicate IsK(c: char) {
    c == 'K' || c == 'k' || c == '\U{212A}'
  }

  /** The literal `W` under IGNORECASE. */
  predicate IsW(c: char) {
    c == 'W' || c == 'w'
  }

  /** The length of the (greedy) run of `\s` at the start of `s`. */
  function SpaceRun(s: string): (n: nat)
    ensures n <= |s|
    ensures forall i :: 0 <= i < n ==> IsSpace(s[i])
    ensures n < |s| ==> !IsSpace(s[n])
  {
    if s != [] && IsSpace(s[0]) then 1 + SpaceRun(s[1..]) else 0
  }

  /**
   * `(?P<W>5[0-3]|[0-4]\d|\d)\.` at the start of `s`: the week number and where
   * the text after the dot begins. The first two alternatives take two digits
   * (together, exactly the numbers 00 to 53) and the third one digit; since a
   * dot must follow, at most one of them can lead to a match, so trying them in
   * order with backtracking comes to these two tests.
   */
  function WeekNumber(s: string): (r: Option<(int, nat)>)
    ensures r.Some? ==> 0 <= r.value.0 <= 53 && 2 <= r.value.1 <= |s| && s[r.value.1 - 1] == '.'
  {
    if 3 <= |s| && IsDigit(s[0]) && IsDigit(s[1]) && s[2] == '.' && 10 * DigitValue(s[0]) + DigitValue(s[1]) <= 53 then
      Some((10 * DigitValue(s[0]) + DigitValue(s[1]), 3))
    else if 2 <= |s| && IsDigit(s[0]) && s[1] == '.' then
      Some((DigitValue(s[0]), 2))
    else
      None
  }

  predicate AreDigits(s: string) {
    forall i :: 0 <= i < |s| ==> IsDigit(s[i])
  }

  /** The value of the four digits `(?P<Y>\d\d\d\d)`. */
  function FourDigitValue(s: string): (v: int)
    requires |s| == 4 && AreDigits(s)
    ensures 0 <= v <= 9999
  {
    1000 * DigitValue(s[0]) + 100 * DigitValue(s[1]) + 10 * DigitValue(s[2]) + DigitValue(s[3])
  }

  /** Matches the whole of `s` against `%W. KW %Y-%w`; `None` is pandas' "doesn't match format" error. */
  function ParseWeekFormat(s: string): (r: Option<WeekFields>)
    ensures r.Some? ==> 0 <= r.value.week <= 53 && 0 <= r.value.year <= 9999 && 0 <= r.value.weekdayDigit <= 6
    ensures r.Some? ==> 12 <= |s| && IsDigit(s[0])
    ensures r.Some? ==> IsDigit(s[|s| - 1]) && r.value.weekdayDigit == DigitValue(s[|s| - 1])
  {
    match WeekNumber(s)
    case None => None
    case Some((week, next)) => ParseAfterWeek(week, s[next..])
  }

  /** `\s+KW` after the week number, then the rest. */
  function ParseAfterWeek(week: int, t: string): (r: Option<WeekFields>)
    requires 0 <= week <= 53
    ensures r.Some? ==> r.value.week == week && 0 <= r.value.year <= 9999 && 0 <= r.value.weekdayDigit <= 6
    ensures r.Some? ==> 10 <= |t| && IsDigit(t[|t| - 1]) && r.value.weekdayDigit == DigitValue(t[|t| - 1])
  {
    var n1 := SpaceRun(t);
    if n1 == 0 || |t| < n1 + 2 || !IsK(t[n1]) || !IsW(t[n1 + 1]) then None
    else ParseAfterKW(week, t[n1 + 2..])
  }

  /** `\s+(?P<Y>\d\d\d\d)-(?P<w>[0-6])` up to the end of the text. */
  function ParseAfterKW(week: int, u: string): (r: Option<WeekFields>)
    requires 0 <= week <= 53
    ensures r.Some? ==> r.value.week == week && 0 <= r.value.year <= 9999 && 0 <= r.value.weekdayDigit <= 6
    ensures r.Some? ==> 7 <= |u| && IsDigit(u[|u| - 1]) && r.value.weekdayDigit == DigitValue(u[|u| - 1])
  {
    var n2 := SpaceRun(u);
    if n2 == 0 || |u| != n2 + 6 || !AreDigits(u[n2..n2 + 4]) || u[n2 + 4] != '-' || !('0' <= u[n2 + 5] <= '6')
    then None
    else Some(WeekFields(week, FourDigitValue(u[n2..n2 + 4]), DigitValue(u[n2 + 5])))
  }

  /** `%w` as strptime reads it: 0 is Sunday; the result counts from Monday = 0. */
  function WeekdayFromDigit(w: int): (d: int)
    requires 0 <= w <= 6
    ensures 0 <= d <= 6
    ensures (d + 1) % 7 == w
  {
    if w == 0 then 6 else w - 1
  }

  /**
   * `_calc_julian_from_U_or_W` for `%W`: the day of `year` (1 January is day 1)
   * of weekday `dayOfWeek` (Monday = 0) in week `week`. It may be 0 or negative
   * (week 0 reaching into the previous year) or beyond the end of the year.
   */
  function JulianFromWeek(year: int, week: int, dayOfWeek: int): int
    requires MIN_YEAR <= year <= MAX_YEAR
  {
    DayOfWeekYear(Weekday(Date(year, 1, 1)), week, dayOfWeek)
  }

  /** The same rule, given the weekday of 1 January. */
  function DayOfWeekYear(firstWeekday: int, week: int, dayOfWeek: int): int {
    var week0Length := (7 - firstWeekday) % 7;
    if week == 0 then 1 + dayOfWeek - firstWeekday
    else 1 + week0Length + 7 * (week - 1) + dayOfWeek
  }

  /**
   * The ordinal of the day strptime builds from a year, a `%W` week and a
   * weekday: `None` when `date(year, 1, 1)` cannot be built (year 0) or the day
   * falls outside the range of `date`.
   */
  function WeekOrdinal(year: int, week: int, dayOfWeek: int): (r: Option<int>)
    ensures r.Some? ==> MIN_YEAR <= year <= MAX_YEAR && 1 <= r.value <= MAX_ORDINAL
    ensures r.Some? ==> r.value == ToOrdinal(Date(year, 1, 1)) + JulianFromWeek(year, week, dayOfWeek) - 1
  {
    if !(MIN_YEAR <= year <= MAX_YEAR) then None
    else JulianOrdinal(year, JulianFromWeek(year, week, dayOfWeek))
  }

  /**
   * The ordinal of day `julian` of `year`; a day 0 or before is first moved
   * into the previous year, where a year 0 makes `date` raise.
   */
  function JulianOrdinal(year: int, julian: int): (r: Option<int>)
    requires MIN_YEAR <= year <= MAX_YEAR
    ensures r.Some? ==> 1 <= r.value <= MAX_ORDINAL
    ensures r.Some? ==> r.value == ToOrdinal(Date(year, 1, 1)) + julian - 1
  {
    var y := if julian <= 0 then year - 1 else year;
    var j := if julian <= 0 then julian + DaysInYear(year - 1) else julian;
    if y < MIN_YEAR then None
    else
      var ordinal := (j - 1) + ToOrdinal(Date(y, 1, 1));
      if ordinal < 1 || ordinal > MAX_ORDINAL then None
      else if julian <= 0 then
        RollbackKeepsOrdinal(year, julian);
        Some(ordinal)
      else
        Some(ordinal)
  }

  /** `date.fromordinal` of that ordinal. */
  function DateFromWeek(year: int, week: int, dayOfWeek: int): (r: Option<Date>)
    ensures r.Some? <==> WeekOrdinal(year, week, dayOfWeek).Some?
    ensures r.Some? ==> ValidDate(r.value) && ToOrdinal(r.value) == WeekOrdinal(year, week, dayOfWeek).value
  {
    match WeekOrdinal(year, week, dayOfWeek)
    case None => None
    case Some(n) => Some(FromOrdinal(n))
  }

  /** Moving a non-positive day of `year` into `year - 1` names the same day. */
  lemma RollbackKeepsOrdinal(year: int, julian: int)
    requires MIN_YEAR < year <= MAX_YEAR
    ensures (julian + DaysInYear(year - 1) - 1) + ToOrdinal(Date(year - 1, 1, 1)) == (julian - 1) + ToOrdinal(Date(year, 1, 1))
  {
    DaysBeforeNextYear(year - 1);
  }

  /** The week label converted to a date; `None` where pandas raises. */
  function ToDatetime(weekLabel: string): Option<Date> {
    match ParseWeekFormat(weekLabel + "-1")
    case None => None
    case Some(f) => DateFromWeek(f.year, f.week, WeekdayFromDigit(f.weekdayDigit))
  }

  // ---------------------------------------------------------------------------
  // The format as a language
  //
  // The texts the format's regular expression accepts, stated with the split
  // points between its parts rather than with a scanner, and the proof that
  // the matcher above accepts exactly these texts and reads the same fields.

  /** `s[i..j]` is a non-empty run of `\s`. */
  ghost predicate SpacesBetween(s: string, i: int, j: int) {
    0 <= i < j <= |s| && forall k :: i <= k < j ==> IsSpace(s[k])
  }

  /** `5[0-3]|[0-4]\d|\d` is exactly `s[..p]`, of value `week`. */
  ghost predicate WeekDigits(s: string, p: int, week: int) {
    || (p == 1 && 1 <= |s| && IsDigit(s[0]) && week == DigitValue(s[0]))
    || (p == 2 && 2 <= |s| && IsDigit(s[0]) && IsDigit(s[1])
        && ((s[0] == '5' && '0' <= s[1] <= '3') || ('0' <= s[0] <= '4'))
        && week == 10 * DigitValue(s[0]) + DigitValue(s[1]))
  }

  /** `\s+(?P<Y>\d\d\d\d)-(?P<w>[0-6])` is all of `u`, with the spaces ending at `b`. */
  ghost predicate AfterKWAt(u: string, f: WeekFields, b: int) {
    SpacesBetween(u, 0, b) && |u| == b + 6
    && AreDigits(u[b..b + 4]) && f.year == FourDigitValue(u[b..b + 4])
    && u[b + 4] == '-'
    && '0' <= u[b + 5] <= '6' && f.weekdayDigit == DigitValue(u[b + 5])
  }

  ghost predicate MatchesAfterKW(u: string, f: WeekFields) {
    exists b :: AfterKWAt(u, f, b)
  }

  /** `\s+KW` followed by the rest of the format, with the spaces ending at `a`. */
  ghost predicate AfterWeekAt(t: string, f: WeekFields, a: int) {
    SpacesBetween(t, 0, a) && a + 2 <= |t| && IsK(t[a]) && IsW(t[a + 1])
    && MatchesAfterKW(t[a + 2..], f)
  }

  ghost predicate MatchesAfterWeek(t: string, f: WeekFields) {
    exists a :: AfterWeekAt(t, f, a)
  }

  /** The week number is `s[..p]`, then `\.` and the rest of the format. */
  ghost predicate WeekAt(s: string, f: WeekFields, p: int) {
    WeekDigits(s, p, f.week) && p < |s| && s[p] == '.' && MatchesAfterWeek(s[p + 1..], f)
  }

  /** The whole of `s` is in the language of `%W. KW %Y-%w`, and its fields are `f`. */
  ghost predicate MatchesWeekFormat(s: string, f: WeekFields) {
    exists p :: WeekAt(s, f, p)
  }

  /** A run of spaces ended by a character that is not a space is what `SpaceRun` measures. */
  lemma SpaceRunEndsAt(s: string, b: int)
    requires SpacesBetween(s, 0, b) && b < |s| && !IsSpace(s[b])
    ensures SpaceRun(s) == b
  {
  }

  lemma ParseAfterKWExact(week: int, u: string, f: WeekFields)
    requires 0 <= week <= 53
    ensures ParseAfterKW(week, u) == Some(f) <==> f.week == week && MatchesAfterKW(u, f)
  {
    var n2 := SpaceRun(u);
    if ParseAfterKW(week, u) == Some(f) {
      assert AfterKWAt(u, f, n2);
    }
    if f.week == week && MatchesAfterKW(u, f) {
      var b :| AfterKWAt(u, f, b);
      assert IsDigit(u[b..b + 4][0]);
      SpaceRunEndsAt(u, b);
    }
  }

  /** What `ParseAfterWeek` accepts is `\s+KW` and the rest of the format. */
  lemma ParseAfterWeekSound(week: int, t: string, f: WeekFields)
    requires 0 <= week <= 53 && ParseAfterWeek(week, t) == Some(f)
    ensures f.week == week && MatchesAfterWeek(t, f)
  {
    var n1 := SpaceRun(t);
    ParseAfterKWExact(week, t[n1 + 2..], f);
    assert AfterWeekAt(t, f, n1);
  }

  /** Text of that form, with its spaces ending at `a`, is what `ParseAfterWeek` accepts. */
  lemma ParseAfterWeekComplete(week: int, t: string, f: WeekFields, a: int)
    requires 0 <= week <= 53 && f.week == week && AfterWeekAt(t, f, a)
    ensures ParseAfterWeek(week, t) == Some(f)
  {
    SpaceRunEndsAt(t, a);
    ParseAfterKWExact(week, t[a + 2..], f);
  }

  lemma ParseAfterWeekExact(week: int, t: string, f: WeekFields)
    requires 0 <= week <= 53
    ensures ParseAfterWeek(week, t) == Some(f) <==> f.week == week && MatchesAfterWeek(t, f)
  {
    if ParseAfterWeek(week, t) == Some(f) {
      ParseAfterWeekSound(week, t, f);
    }
    if f.week == week && MatchesAfterWeek(t, f) {
      var a :| AfterWeekAt(t, f, a);
      ParseAfterWeekComplete(week, t, f, a);
    }
  }

  /** What `WeekNumber` reads is one of the regular expression's alternatives. */
  lemma WeekNumberDigits(s: string)
    requires WeekNumber(s).Some?
    ensures WeekDigits(s, WeekNumber(s).value.1 - 1, WeekNumber(s).value.0)
  {
  }

  /** Each alternative followed by a dot is read by `WeekNumber`. */
  lemma DigitsWeekNumber(s: string, p: int, week: int)
    requires WeekDigits(s, p, week) && p < |s| && s[p] == '.'
    ensures WeekNumber(s) == Some((week, p + 1))
  {
  }

  /** The matcher accepts a text exactly when it is in the format's language, and reads its fields. */
  lemma ParseWeekFormatExact(s: string, f: WeekFields)
    ensures ParseWeekFormat(s) == Some(f) <==> MatchesWeekFormat(s, f)
  {
    if ParseWeekFormat(s) == Some(f) {
      var (week, next) := WeekNumber(s).value;
      WeekNumberDigits(s);
      ParseAfterWeekExact(week, s[next..], f);
      assert WeekAt(s, f, next - 1);
    }
    if MatchesWeekFormat(s, f) {
      var p :| WeekAt(s, f, p);
      DigitsWeekNumber(s, p, f.week);
      ParseAfterWeekExact(f.week, s[p + 1..], f);
    }
  }

  // ---------------------------------------------------------------------------
  // The dates the conversion produces

  /** 1 January of `year`. */
  function NewYear(year: int): (d: Date)
    requires MIN_YEAR <= year <= MAX_YEAR
    ensures ValidDate(d)
  {
    Date(year, 1, 1)
  }

  /** 1 January is the day after the days of the years before it. */
  lemma NewYearOrdinal(year: int)
    requires MIN_YEAR <= year <= MAX_YEAR
    ensures ToOrdinal(NewYear(year)) == DaysBeforeYear(year) + 1
  {
  }

  /** 0001-01-01 is a Monday (`date.weekday()` counts from it). */
  lemma FirstYearStartsOnMonday()
    ensures Weekday(NewYear(MIN_YEAR)) == MONDAY
  {
  }

  /** The rollback into the previous year in one formula: the day exists exactly when its ordinal is in range. */
  lemma WeekOrdinalExact(year: int, week: int, dayOfWeek: int)
    requires MIN_YEAR <= year <= MAX_YEAR
    ensures var n := ToOrdinal(NewYear(year)) + JulianFromWeek(year, week, dayOfWeek) - 1;
      WeekOrdinal(year, week, dayOfWeek) == if 1 <= n <= MAX_ORDINAL then Some(n) else None
  {
    JulianOrdinalExact(year, JulianFromWeek(year, week, dayOfWeek));
  }

  lemma JulianOrdinalExact(year: int, julian: int)
    requires MIN_YEAR <= year <= MAX_YEAR
    ensures var n := ToOrdinal(NewYear(year)) + julian - 1;
      JulianOrdinal(year, julian) == if 1 <= n <= MAX_ORDINAL then Some(n) else None
  {
    if julian <= 0 {
      if year == MIN_YEAR {
        NewYearOrdinal(year);
      } else {
        RollbackKeepsOrdinal(year, julian);
      }
    }
  }

  /**
   * The weekday arithmetic of the `%W` rule, apart from any calendar: day `n`
   * is day `julian` of a year whose first day `start` has weekday `first`.
   */
  lemma WeekArithmetic(start: int, first: int, week: int, dayOfWeek: int, julian: int, n: int)
    requires first == OrdinalWeekday(start) && 0 <= dayOfWeek <= 6
    requires julian == DayOfWeekYear(first, week, dayOfWeek)
    requires n == start + julian - 1
    ensures OrdinalWeekday(n) == dayOfWeek
  {
    var q := (start + 6) / 7;
    assert start + 6 == 7 * q + first;
    if week == 0 {
      assert n + 6 == 7 * q + dayOfWeek;
    } else {
      var k := if first == 0 then 0 else 1;
      assert (7 - first) % 7 == 7 * k - first;
      assert n + 6 == 7 * (q + k + week - 1) + dayOfWeek;
    }
  }

  /** The date lands on the weekday that was asked for. */
  lemma DateFromWeekWeekday(year: int, week: int, dayOfWeek: int)
    requires 0 <= dayOfWeek <= 6
    requires DateFromWeek(year, week, dayOfWeek).Some?
    ensures Weekday(DateFromWeek(year, week, dayOfWeek).value) == dayOfWeek
  {
    var n := WeekOrdinal(year, week, dayOfWeek).value;
    var start := ToOrdinal(Date(year, 1, 1));
    var first := Weekday(Date(year, 1, 1));
    var julian := JulianFromWeek(year, week, dayOfWeek);
    WeekArithmetic(start, first, week, dayOfWeek, julian, n);
  }

  /**
   * For weeks 1 to 53 the Monday is the first Monday of the year (one of the
   * first seven days of January) plus 7 days for every week after the first.
   */
  lemma MondayOfWeek(year: int, week: int)
    requires week >= 1
    requires DateFromWeek(year, week, MONDAY).Some?
    ensures var d := DateFromWeek(year, week, MONDAY).value;
      && Weekday(d) == MONDAY
      && 0 <= ToOrdinal(d) - 7 * (week - 1) - ToOrdinal(NewYear(year)) < 7
  {
    DateFromWeekWeekday(year, week, MONDAY);
  }

  /** Week 0's Monday lies as many days before 1 January as 1 January lies after a Monday. */
  lemma WeekZeroOrdinal(year: int)
    requires WeekOrdinal(year, 0, MONDAY).Some?
    ensures WeekOrdinal(year, 0, MONDAY).value == ToOrdinal(NewYear(year)) - Weekday(NewYear(year))
  {
  }

  lemma WeekZeroSameDay(year: int, d: Date)
    requires MIN_YEAR <= year <= MAX_YEAR && ValidDate(d)
    requires ToOrdinal(d) == ToOrdinal(NewYear(year)) - Weekday(NewYear(year))
    ensures Weekday(NewYear(year)) == MONDAY <==> d == NewYear(year)
  {
    if Weekday(NewYear(year)) == MONDAY {
      ToOrdinalInjective(d, NewYear(year));
    }
  }

  lemma WeekZeroPreviousYear(year: int, d: Date)
    requires MIN_YEAR <= year <= MAX_YEAR && ValidDate(d)
    requires ToOrdinal(d) == ToOrdinal(NewYear(year)) - Weekday(NewYear(year))
    requires Weekday(NewYear(year)) != MONDAY
    ensures d.year == year - 1
  {
    if year == MIN_YEAR {
      FirstYearStartsOnMonday();
    }
    NewYearOrdinal(year);
    DaysBeforeNextYear(year - 1);
    DaysBeforeNextYear(d.year);
    BracketUnique(ToOrdinal(d), d.year, year - 1);
  }

  /**
   * Week 0 gives the Monday of the week holding 1 January: 1 January itself
   * when the year starts on a Monday, else a day of the previous year.
   */
  lemma MondayOfWeekZero(year: int)
    requires DateFromWeek(year, 0, MONDAY).Some?
    ensures var d := DateFromWeek(year, 0, MONDAY).value;
      && Weekday(d) == MONDAY
      && -7 < ToOrdinal(d) - ToOrdinal(NewYear(year)) <= 0
      && (Weekday(NewYear(year)) == MONDAY <==> d == NewYear(year))
      && (Weekday(NewYear(year)) != MONDAY ==> d.year == year - 1)
  {
    var d := DateFromWeek(year, 0, MONDAY).value;
    WeekZeroOrdinal(year);
    DateFromWeekWeekday(year, 0, MONDAY);
    WeekZeroSameDay(year, d);
    if Weekday(NewYear(year)) != MONDAY {
      WeekZeroPreviousYear(year, d);
    }
  }

  lemma MondayStartOrdinal(year: int, week: int)
    requires MIN_YEAR <= year <= MAX_YEAR && (week == 0 || week == 1)
    requires Weekday(NewYear(year)) == MONDAY
    ensures WeekOrdinal(year, week, MONDAY) == Some(ToOrdinal(NewYear(year)))
  {
    MondayStartJulian(year, week);
    WeekOrdinalExact(year, week, MONDAY);
  }

  /** When 1 January is a Monday, the Monday of week 0 and of week 1 is day 1 of the year. */
  lemma MondayStartJulian(year: int, week: int)
    requires MIN_YEAR <= year <= MAX_YEAR && (week == 0 || week == 1)
    requires Weekday(NewYear(year)) == MONDAY
    ensures JulianFromWeek(year, week, MONDAY) == 1
  {
    FirstMondayIsDayOne(Weekday(Date(year, 1, 1)), week);
  }

  lemma FirstMondayIsDayOne(firstWeekday: int, week: int)
    requires firstWeekday == MONDAY && (week == 0 || week == 1)
    ensures DayOfWeekYear(firstWeekday, week, MONDAY) == 1
  {
  }

  /** When 1 January is a Monday, week 0 has no days and "0. KW" names the same Monday as "1. KW". */
  lemma WeekZeroMeetsWeekOne(year: int)
    requires MIN_YEAR <= year <= MAX_YEAR
    requires Weekday(NewYear(year)) == MONDAY
    ensures DateFromWeek(year, 0, MONDAY) == DateFromWeek(year, 1, MONDAY) == Some(NewYear(year))
  {
    MondayStartOrdinal(year, 0);
    MondayStartOrdinal(year, 1);
    FromToOrdinal(NewYear(year));
  }

  /** The `%W` day of the year for weeks 0 to 53, whatever weekday the year starts on. */
  lemma JulianRange(year: int, week: int, dayOfWeek: int)
    requires MIN_YEAR <= year <= MAX_YEAR && 0 <= week <= 53 && 0 <= dayOfWeek <= 6
    ensures -5 <= JulianFromWeek(year, week, dayOfWeek) <= 377
    ensures week >= 1 || Weekday(NewYear(year)) == MONDAY ==> JulianFromWeek(year, week, dayOfWeek) >= 1
  {
    var first := Weekday(Date(year, 1, 1));
    assert 0 <= (7 - first) % 7 <= 6;
  }

  /** 1 January 9998, the start of the last year in which every week has a date. */
  lemma LastFullYearStart()
    ensures DaysBeforeYear(MAX_YEAR - 1) == 3651329
  {
    DaysBeforeYearClosedForm(MAX_YEAR - 1);
  }

  /** Every week 0 to 53 of the years 1 to 9998 has a date. */
  lemma DateFromWeekDefined(year: int, week: int, dayOfWeek: int)
    requires MIN_YEAR <= year < MAX_YEAR && 0 <= week <= 53 && 0 <= dayOfWeek <= 6
    ensures DateFromWeek(year, week, dayOfWeek).Some?
  {
    WeekOrdinalExact(year, week, dayOfWeek);
    JulianRange(year, week, dayOfWeek);
    NewYearOrdinal(year);
    DaysBeforeYearMonotone(year, MAX_YEAR - 1);
    LastFullYearStart();
    if year == MIN_YEAR {
      FirstYearStartsOnMonday();
    } else {
      DaysBeforeYearMonotone(MIN_YEAR, year);
    }
  }

  // ---------------------------------------------------------------------------
  // The labels

  /** The week number as the data writes it: one digit below 10, else two. */
  function WeekText(week: int): (s: string)
    requires 0 <= week <= 53
    ensures |s| == (if week < 10 then 1 else 2)
  {
    if week < 10 then [DigitChar(week)] else [DigitChar(week / 10), DigitChar(week % 10)]
  }

  /** A year as four digits. */
  function YearText(year: int): (s: string)
    requires 0 <= year <= 9999
    ensures |s| == 4 && AreDigits(s) && FourDigitValue(s) == year
  {
    var tens := year / 10;
    var hundreds := tens / 10;
    var thousands := hundreds / 10;
    assert year == 10 * tens + year % 10;
    assert tens == 10 * hundreds + tens % 10;
    assert hundreds == 10 * thousands + hundreds % 10;
    [DigitChar(thousands), DigitChar(hundreds % 10), DigitChar(tens % 10), DigitChar(year % 10)]
  }

  /** The label the data carries for a week and a year, "N. KW YYYY". */
  function FormatLabel(week: int, year: int): string
    requires 0 <= week <= 53 && 0 <= year <= 9999
  {
    WeekText(week) + ". KW " + YearText(year)
  }

  lemma WeekNumberOfText(week: int, rest: string)
    requires 0 <= week <= 53
    ensures WeekNumber(WeekText(week) + "." + rest) == Some((week, |WeekText(week)| + 1))
  {
    var s := WeekText(week) + "." + rest;
    if week < 10 {
      assert s[0] == DigitChar(week) && s[1] == '.';
    } else {
      assert s[0] == DigitChar(week / 10) && s[1] == DigitChar(week % 10) && s[2] == '.';
    }
  }

  lemma ParseYearTail(week: int, year: int)
    requires 0 <= week <= 53 && 0 <= year <= 9999
    ensures ParseAfterWeek(week, " KW " + YearText(year) + "-1") == Some(WeekFields(week, year, 1))
  {
    var t := " KW " + YearText(year) + "-1";
    assert SpaceRun(t[1..]) == 0 by {
      assert t[1] == 'K';
    }
    assert SpaceRun(t) == 1;
    var u := t[3..];
    assert u == " " + YearText(year) + "-1";
    assert SpaceRun(u[1..]) == 0 by {
      assert u[1] == YearText(year)[0];
    }
    assert SpaceRun(u) == 1;
    assert u[1..5] == YearText(year);
  }

  /** Parsing a formatted label with the appended "-1" gives back its week, its year and weekday digit 1. */
  lemma ParseFormatLabel(week: int, year: int)
    requires 0 <= week <= 53 && 0 <= year <= 9999
    ensures ParseWeekFormat(FormatLabel(week, year) + "-1") == Some(WeekFields(week, year, 1))
  {
    var s := FormatLabel(week, year) + "-1";
    var rest := " KW " + YearText(year) + "-1";
    assert s == WeekText(week) + "." + rest;
    WeekNumberOfText(week, rest);
    assert s[|WeekText(week)| + 1..] == rest;
    ParseYearTail(week, year);
  }

  /** The text after "%W. KW %Y" is the appended "-1", so `%w` is always 1, Monday. */
  lemma AppendedSuffixIsMonday(weekLabel: string)
    requires ParseWeekFormat(weekLabel + "-1").Some?
    ensures ParseWeekFormat(weekLabel + "-1").value.weekdayDigit == 1
    ensures WeekdayFromDigit(ParseWeekFormat(weekLabel + "-1").value.weekdayDigit) == MONDAY
  {
    var s := weekLabel + "-1";
    assert s[|s| - 1] == '1';
  }

  /** Every date the conversion produces is a Monday. */
  lemma ToDatetimeIsMonday(weekLabel: string)
    requires ToDatetime(weekLabel).Some?
    ensures Weekday(ToDatetime(weekLabel).value) == MONDAY
  {
    AppendedSuffixIsMonday(weekLabel);
    var f := ParseWeekFormat(weekLabel + "-1").value;
    DateFromWeekWeekday(f.year, f.week, MONDAY);
  }

  /** A label "N. KW YYYY" converts to the Monday of week N of year YYYY. */
  lemma ToDatetimeOfLabel(week: int, year: int)
    requires 0 <= week <= 53 && 0 <= year <= 9999
    ensures ToDatetime(FormatLabel(week, year)) == DateFromWeek(year, week, MONDAY)
  {
    ParseFormatLabel(week, year);
  }

  /** 1 January 2022 is day 738156, a Saturday. */
  lemma NewYear2022()
    ensures DaysBeforeYear(2022) == 738155
    ensures ToOrdinal(NewYear(2022)) == 738156 && Weekday(NewYear(2022)) == 5
  {
    NewYearOrdinal(2022);
    DaysBeforeYearClosedForm(2022);
  }

  lemma FirstWeekOf2022Ordinal()
    ensures WeekOrdinal(2022, 1, MONDAY) == Some(738158)
  {
    NewYear2022();
    WeekOrdinalExact(2022, 1, MONDAY);
  }

  lemma FirstWeekOf2022Date()
    ensures DateFromWeek(2022, 1, MONDAY) == Some(Date(2022, 1, 3))
  {
    FirstWeekOf2022Ordinal();
    NewYear2022();
    assert ToOrdinal(Date(2022, 1, 3)) == 738158;
    FromToOrdinal(Date(2022, 1, 3));
  }

  /** "1. KW 2022" is Monday 3 January 2022. */
  lemma FirstWeekOf2022()
    ensures ToDatetime("1. KW 2022") == Some(Date(2022, 1, 3))
  {
    assert "1. KW 2022" == FormatLabel(1, 2022);
    ToDatetimeOfLabel(1, 2022);
    FirstWeekOf2022Date();
  }

  lemma WeekZeroOf2022Ordinal()
    ensures WeekOrdinal(2022, 0, MONDAY) == Some(738151)
  {
    NewYear2022();
    WeekOrdinalExact(2022, 0, MONDAY);
  }

  lemma WeekZeroOf2022Date()
    ensures DateFromWeek(2022, 0, MONDAY) == Some(Date(2021, 12, 27))
  {
    WeekZeroOf2022Ordinal();
    NewYear2022();
    assert ToOrdinal(Date(2021, 12, 27)) == 738151;
    FromToOrdinal(Date(2021, 12, 27));
  }

  /** "0. KW 2022" is Monday 27 December 2021, in the year before. */
  lemma WeekZeroOf2022()
    ensures ToDatetime("0. KW 2022") == Some(Date(2021, 12, 27))
  {
    assert "0. KW 2022" == FormatLabel(0, 2022);
    ToDatetimeOfLabel(0, 2022);
    WeekZeroOf2022Date();
  }

  /**
   * Only a label that starts with a digit and is long enough to hold
   * "N. KW YYYY" can be converted: any other label makes the conversion raise.
   */
  lemma AcceptedLabelShape(weekLabel: string)
    requires ToDatetime(weekLabel).Some?
    ensures 10 <= |weekLabel| && IsDigit(weekLabel[0])
  {
    var s := weekLabel + "-1";
    assert ParseWeekFormat(s).Some?;
    assert |s| == |weekLabel| + 2;
    assert s[0] == weekLabel[0];
  }

  /**
   * A label converts only when it, with "-1" appended, is in the language of
   * `%W. KW %Y-%w`, and its date is then that of the fields the language reads:
   * any label outside that language makes the conversion raise.
   */
  lemma ToDatetimeMatches(weekLabel: string)
    ensures ToDatetime(weekLabel).Some? ==>
      exists f :: MatchesWeekFormat(weekLabel + "-1", f)
        && ToDatetime(weekLabel) == DateFromWeek(f.year, f.week, WeekdayFromDigit(f.weekdayDigit))
  {
    var s := weekLabel + "-1";
    if ToDatetime(weekLabel).Some? {
      var f := ParseWeekFormat(s).value;
      ParseWeekFormatExact(s, f);
    }
  }

  /** A label of year 0 matches the format, but `date(0, 1, 1)` cannot be built, so the conversion raises. */
  lemma YearZeroRejected(week: int)
    requires 0 <= week <= 53
    ensures ToDatetime(FormatLabel(week, 0)) == None
  {
    ToDatetimeOfLabel(week, 0);
  }

  /** A label without its week number is rejected. */
  lemma MissingWeekRejected()
    ensures ToDatetime("KW 2022") == None
  {
    assert ("KW 2022" + "-1")[0] == 'K';
  }
}
