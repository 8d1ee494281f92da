/**
 * `get_timestamp` (bot.py:27-33): day, month, year, hour and minute arguments plus an
 * optional meridiem become UTC epoch seconds, or `None` when a part is not an integer
 * or the parts do not form a date and time Python's `datetime` accepts.
 *
 * The calendar is the proleptic Gregorian one of `datetime` (years 1 to 9999), with the
 * day count written the way CPython writes it: `_days_before_year`, `_days_before_month`
 * and the ordinal 719163 of 1970-01-01. `CivilOf` reads an instant back into its fields.
 */
module Timestamp {
  import opened Wrappers
  import opened Text

  const EPOCH_ORDINAL := 719163
  const SECONDS_PER_DAY := 86400
  /** 0001-01-01 00:00 and 9999-12-31 23:59, the first and last instants `get_timestamp` can give. */
  const MIN_INSTANT := -62135596800
  const MAX_INSTANT := 253402300740
  /** The range of a C `int`, which CPython's `datetime` constructor converts its arguments to. */
  const C_INT_MIN := -0x8000_0000
  const C_INT_MAX := 0x7FFF_FFFF

  datatype Civil = Civil(year: int, month: int, day: int, hour: int, minute: int)

  predicate IsLeap(y: int) { y % 4 == 0 && (y % 100 != 0 || y % 400 == 0) }

  function DaysInYear(y: int): int { if IsLeap(y) then 366 else 365 }

  function DaysInMonth(y: int, m: int): int
    requires 1 <= m <= 12
  {
    if m == 2 then (if IsLeap(y) then 29 else 28)
    else if m == 4 || m == 6 || m == 9 || m == 11 then 30
    else 31
  }

  /** Days in the years before `y` (CPython's `_days_before_year`). */
  function DaysBeforeYear(y: int): int {
    var p := y - 1;
    p * 365 + p / 4 - p / 100 + p / 400
  }

  /** Days in the months of year `y` before month `m` (CPython's `_days_before_month`). */
  function DaysBeforeMonth(y: int, m: int): int
    requires 1 <= m <= 12
  {
    var table := [0, 31, 59, 90, 120, 151, 181, 212, 243, 273, 304, 334];
    table[m - 1] + (if m > 2 && IsLeap(y) then 1 else 0)
  }

  /** The checks `datetime(year, month, day, hour, minute)` makes before it accepts its arguments. */
  predicate ValidCivil(c: Civil) {
    && 1 <= c.year <= 9999
    && 1 <= c.month <= 12
    && 1 <= c.day <= DaysInMonth(c.year, c.month)
    && 0 <= c.hour <= 23
    && 0 <= c.minute <= 59
  }

  /** Day number of a date, 0001-01-01 being day 1. */
  function Ordinal(c: Civil): int
    requires 1 <= c.month <= 12
  {
    DaysBeforeYear(c.year) + DaysBeforeMonth(c.year, c.month) + c.day
  }

  /** `int(datetime(..., tzinfo=UTC).timestamp())`: seconds since 1970-01-01 00:00 UTC. */
  function ToEpoch(c: Civil): int
    requires ValidCivil(c)
  {
    (Ordinal(c) - EPOCH_ORDINAL) * SECONDS_PER_DAY + c.hour * 3600 + c.minute * 60
  }

  /** A whole minute between the first and last instant a `datetime` can name. */
  predicate IsInstant(t: int) { MIN_INSTANT <= t <= MAX_INSTANT && t % 60 == 0 }

  // ---------------------------------------------------------------------------
  // Reading an instant back into calendar fields

  /** The year, searched upwards from `y`, whose days cover ordinal `n`. */
  function FindYear(n: int, y: int): int
    requires 1 <= y <= 9999
    decreases 9999 - y
  {
    if y == 9999 || n <= DaysBeforeYear(y + 1) then y else FindYear(n, y + 1)
  }

  /** The month of year `y`, searched upwards from `m`, that covers day `r` of the year. */
  function FindMonth(y: int, r: int, m: int): int
    requires 1 <= m <= 12
    decreases 12 - m
  {
    if m == 12 || r <= DaysBeforeMonth(y, m + 1) then m else FindMonth(y, r, m + 1)
  }

  /** The calendar fields of day `n` (an ordinal) at `secs` seconds into that day. */
  function CivilOfDay(n: int, secs: int): Civil {
    var y := FindYear(n, 1);
    var r := n - DaysBeforeYear(y);
    var m := FindMonth(y, r, 1);
    Civil(y, m, r - DaysBeforeMonth(y, m), secs / 3600, secs % 3600 / 60)
  }

  /** The UTC calendar fields of instant `t`, seconds dropped (`datetime.utcfromtimestamp`). */
  function CivilOf(t: int): Civil {
    CivilOfDay(t / SECONDS_PER_DAY + EPOCH_ORDINAL, t % SECONDS_PER_DAY)
  }

  lemma DaysBeforeYearStep(y: int)
    requires y >= 1
    ensures DaysBeforeYear(y + 1) == DaysBeforeYear(y) + DaysInYear(y)
  {
    var p := y - 1;
    assert (p + 1) / 4 == p / 4 + (if y % 4 == 0 then 1 else 0);
    assert (p + 1) / 100 == p / 100 + (if y % 100 == 0 then 1 else 0);
    assert (p + 1) / 400 == p / 400 + (if y % 400 == 0 then 1 else 0);
  }

  lemma {:induction false} DaysBeforeYearMonotone(a: int, b: int)
    requires 1 <= a <= b
    ensures DaysBeforeYear(a) + (b - a) * 365 <= DaysBeforeYear(b)
    decreases b - a
  {
    if a < b {
      DaysBeforeYearMonotone(a, b - 1);
      DaysBeforeYearStep(b - 1);
    }
  }

  lemma DaysBeforeMonthStep(y: int, m: int)
    requires 1 <= m < 12
    ensures DaysBeforeMonth(y, m + 1) == DaysBeforeMonth(y, m) + DaysInMonth(y, m)
  {
  }

  lemma {:induction false} DaysBeforeMonthMonotone(y: int, a: int, b: int)
    requires 1 <= a <= b <= 12
    ensures DaysBeforeMonth(y, a) + (b - a) * 28 <= DaysBeforeMonth(y, b)
    decreases b - a
  {
    if a < b {
      DaysBeforeMonthMonotone(y, a, b - 1);
      DaysBeforeMonthStep(y, b - 1);
    }
  }

  lemma DaysInYearByMonths(y: int)
    ensures DaysBeforeMonth(y, 12) + DaysInMonth(y, 12) == DaysInYear(y)
  {
  }

  /** The search finds the year whose days cover `n`, whenever `n` lies in a year at or after `y`. */
  lemma {:induction false} FindYearIs(n: int, y: int, target: int)
    requires 1 <= y <= target <= 9999
    requires DaysBeforeYear(target) < n <= DaysBeforeYear(target + 1)
    ensures FindYear(n, y) == target
    decreases 9999 - y
  {
    if y < target {
      DaysBeforeYearMonotone(y + 1, target);
      FindYearIs(n, y + 1, target);
    }
  }

  /** For an ordinal inside years 1 to 9999 the search stops on a year that covers it. */
  lemma {:induction false} FindYearCovers(n: int, y: int)
    requires 1 <= y <= 9999
    requires DaysBeforeYear(y) < n <= DaysBeforeYear(10000)
    ensures 1 <= FindYear(n, y) <= 9999
    ensures DaysBeforeYear(FindYear(n, y)) < n <= DaysBeforeYear(FindYear(n, y) + 1)
    decreases 9999 - y
  {
    if y < 9999 && n > DaysBeforeYear(y + 1) {
      FindYearCovers(n, y + 1);
    }
  }

  lemma {:induction false} FindMonthIs(y: int, r: int, m: int, target: int)
    requires 1 <= m <= target <= 12
    requires DaysBeforeMonth(y, target) < r <= DaysBeforeMonth(y, target) + DaysInMonth(y, target)
    ensures FindMonth(y, r, m) == target
    decreases 12 - m
  {
    if m < target {
      DaysBeforeMonthMonotone(y, m + 1, target);
      FindMonthIs(y, r, m + 1, target);
    } else if m < 12 {
      DaysBeforeMonthStep(y, m);
    }
  }

  lemma {:induction false} FindMonthCovers(y: int, r: int, m: int)
    requires 1 <= m <= 12
    requires DaysBeforeMonth(y, m) < r <= DaysInYear(y)
    ensures 1 <= FindMonth(y, r, m) <= 12
    ensures DaysBeforeMonth(y, FindMonth(y, r, m)) < r
    ensures r <= DaysBeforeMonth(y, FindMonth(y, r, m)) + DaysInMonth(y, FindMonth(y, r, m))
    decreases 12 - m
  {
    if m == 12 {
      DaysInYearByMonths(y);
    } else if r <= DaysBeforeMonth(y, m + 1) {
      DaysBeforeMonthStep(y, m);
    } else {
      FindMonthCovers(y, r, m + 1);
    }
  }

  /** Splitting `days * 86400 + secs` back into its two parts. */
  lemma DivModDay(days: int, secs: int)
    requires 0 <= secs < SECONDS_PER_DAY
    ensures (days * SECONDS_PER_DAY + secs) / SECONDS_PER_DAY == days
    ensures (days * SECONDS_PER_DAY + secs) % SECONDS_PER_DAY == secs
  {
  }

  lemma DivModClock(hour: int, minute: int)
    requires 0 <= hour <= 23 && 0 <= minute <= 59
    ensures (hour * 3600 + minute * 60) / 3600 == hour
    ensures (hour * 3600 + minute * 60) % 3600 / 60 == minute
  {
  }

  /** Whole-minute seconds within a day read back as an hour and a minute that rebuild them. */
  lemma ClockOfSeconds(secs: int)
    requires 0 <= secs < SECONDS_PER_DAY && secs % 60 == 0
    ensures 0 <= secs / 3600 <= 23 && 0 <= secs % 3600 / 60 <= 59
    ensures secs / 3600 * 3600 + secs % 3600 / 60 * 60 == secs
  {
  }

  /** A valid date and time lies in years 1..9999, between the first and last instant. */
  lemma OrdinalBounds(c: Civil)
    requires ValidCivil(c)
    ensures DaysBeforeYear(c.year) < Ordinal(c) <= DaysBeforeYear(c.year + 1)
    ensures 1 <= Ordinal(c) <= DaysBeforeYear(10000)
  {
    DaysBeforeMonthMonotone(c.year, c.month, 12);
    DaysInYearByMonths(c.year);
    DaysBeforeYearStep(c.year);
    DaysBeforeYearMonotone(1, c.year);
    DaysBeforeYearMonotone(c.year + 1, 10000);
  }

  /** The instant of a valid date and time splits into its day and its seconds into the day. */
  lemma EpochSplit(c: Civil)
    requires ValidCivil(c)
    ensures ToEpoch(c) / SECONDS_PER_DAY == Ordinal(c) - EPOCH_ORDINAL
    ensures ToEpoch(c) % SECONDS_PER_DAY == c.hour * 3600 + c.minute * 60
    ensures ToEpoch(c) % 60 == 0
  {
    DivModDay(Ordinal(c) - EPOCH_ORDINAL, c.hour * 3600 + c.minute * 60);
    var k := (Ordinal(c) - EPOCH_ORDINAL) * 1440 + c.hour * 60 + c.minute;
    assert ToEpoch(c) == k * 60;
  }

  /** The instant of a valid date and time lies between the first and last instant. */
  lemma EpochInRange(c: Civil)
    requires ValidCivil(c)
    ensures MIN_INSTANT <= ToEpoch(c) <= MAX_INSTANT
  {
    OrdinalBounds(c);
    assert DaysBeforeYear(10000) == 3652059;
  }

  /** Reading the day and seconds of a valid date and time back gives its fields. */
  lemma {:induction false} DayRoundTrip(c: Civil)
    requires ValidCivil(c)
    ensures CivilOfDay(Ordinal(c), c.hour * 3600 + c.minute * 60) == c
  {
    var n := Ordinal(c);
    OrdinalBounds(c);
    DivModClock(c.hour, c.minute);
    FindYearIs(n, 1, c.year);
    var r := n - DaysBeforeYear(c.year);
    FindMonthIs(c.year, r, 1, c.month);
  }

  /** Encoding then decoding a valid date and time gives back the same fields. */
  lemma CivilRoundTrip(c: Civil)
    requires ValidCivil(c)
    ensures IsInstant(ToEpoch(c))
    ensures CivilOf(ToEpoch(c)) == c
  {
    EpochSplit(c);
    EpochInRange(c);
    DayRoundTrip(c);
  }

  /** A day in years 1 to 9999 and whole minutes within it read back into valid fields that rebuild them. */
  lemma {:induction false} DayOfRoundTrip(n: int, secs: int)
    requires 1 <= n <= 3652059
    requires 0 <= secs < SECONDS_PER_DAY && secs % 60 == 0
    ensures ValidCivil(CivilOfDay(n, secs))
    ensures Ordinal(CivilOfDay(n, secs)) == n
    ensures CivilOfDay(n, secs).hour * 3600 + CivilOfDay(n, secs).minute * 60 == secs
  {
    ClockOfSeconds(secs);
    assert DaysBeforeYear(1) == 0 && DaysBeforeYear(10000) == 3652059;
    FindYearCovers(n, 1);
    var y := FindYear(n, 1);
    var r := n - DaysBeforeYear(y);
    DaysBeforeYearStep(y);
    FindMonthCovers(y, r, 1);
  }

  lemma WholeMinutesOfDay(t: int)
    requires t % 60 == 0
    ensures t % SECONDS_PER_DAY % 60 == 0
  {
    var days := t / SECONDS_PER_DAY;
    assert t == (days * 1440) * 60 + t % SECONDS_PER_DAY;
  }

  /** Decoding a whole-minute instant in range and encoding again gives the same instant. */
  lemma InstantRoundTrip(t: int)
    requires IsInstant(t)
    ensures ValidCivil(CivilOf(t))
    ensures ToEpoch(CivilOf(t)) == t
  {
    var days := t / SECONDS_PER_DAY;
    var secs := t % SECONDS_PER_DAY;
    WholeMinutesOfDay(t);
    DayOfRoundTrip(days + EPOCH_ORDINAL, secs);
    var c := CivilOf(t);
    assert c == CivilOfDay(days + EPOCH_ORDINAL, secs);
    assert ToEpoch(c) == (Ordinal(c) - EPOCH_ORDINAL) * SECONDS_PER_DAY + (c.hour * 3600 + c.minute * 60);
    assert ToEpoch(c) == days * SECONDS_PER_DAY + secs;
  }

  /** Different valid fields never give the same instant. */
  lemma ToEpochInjective(c1: Civil, c2: Civil)
    requires ValidCivil(c1) && ValidCivil(c2)
    ensures ToEpoch(c1) == ToEpoch(c2) ==> c1 == c2
  {
    CivilRoundTrip(c1);
    CivilRoundTrip(c2);
  }

  // ---------------------------------------------------------------------------
  // get_timestamp

  /** `ampm and ampm.lower() == 'pm'`. */
  predicate IsPm(ampm: Option<string>) { ampm.Some? && Lower(ampm.value) == "pm" }

  /** `ampm and ampm.lower() == 'am'` (the label `events_create` prints). */
  predicate IsAm(ampm: Option<string>) { ampm.Some? && Lower(ampm.value) == "am" }

  /** `int(hour) % 12 + (12 if ampm and ampm.lower() == 'pm' else 0)`. */
  function MeridiemHour(hour: int, ampm: Option<string>): (h: int)
    ensures 0 <= h <= 23
    ensures h >= 12 <==> IsPm(ampm)
    ensures h % 12 == hour % 12
  {
    hour % 12 + (if IsPm(ampm) then 12 else 0)
  }

  /** The fields handed to `datetime`, or `None` when one of the `int()` calls fails. */
  function ParsedFields(dd: string, mm: string, yyyy: string, hour: string, minute: string, ampm: Option<string>): Option<Civil> {
    var h := ParseInt(hour);
    var y := ParseInt(yyyy);
    var m := ParseInt(mm);
    var d := ParseInt(dd);
    var mi := ParseInt(minute);
    if h.Some? && y.Some? && m.Some? && d.Some? && mi.Some? then
      Some(Civil(y.value, m.value, d.value, MeridiemHour(h.value, ampm), mi.value))
    else
      None
  }

  /**
   * `get_timestamp` with every invalid input giving `None`: the instant of the parsed
   * fields when they form a valid date and time. The result reads back into exactly the
   * fields that were given, the hour after the meridiem rule.
   */
  function GetTimestamp(dd: string, mm: string, yyyy: string, hour: string, minute: string, ampm: Option<string>): (r: Option<int>)
    ensures r.Some? <==> ParsedFields(dd, mm, yyyy, hour, minute, ampm).Some? && ValidCivil(ParsedFields(dd, mm, yyyy, hour, minute, ampm).value)
    ensures r.Some? ==> IsInstant(r.value) && CivilOf(r.value) == ParsedFields(dd, mm, yyyy, hour, minute, ampm).value
  {
    match ParsedFields(dd, mm, yyyy, hour, minute, ampm)
    case None => None
    case Some(c) =>
      if ValidCivil(c) then
        CivilRoundTrip(c);
        Some(ToEpoch(c))
      else
        None
  }

  /** What `get_timestamp` as written does: it returns, or lets an exception escape. */
  datatype Outcome = Returns(result: Option<int>) | RaisesOverflow

  predicate FitsCInt(v: int) { C_INT_MIN <= v <= C_INT_MAX }

  /**
   * `get_timestamp` as written: CPython's `datetime` converts year, month, day and minute
   * to C `int`s before checking their ranges, and an argument outside that range raises
   * `OverflowError`, which the `except ValueError` clause does not catch. (The hour is
   * reduced modulo 12 first, so it always fits.)
   */
  function GetTimestampAsWritten(dd: string, mm: string, yyyy: string, hour: string, minute: string, ampm: Option<string>): (r: Outcome)
    ensures r.Returns? ==> r.result == GetTimestamp(dd, mm, yyyy, hour, minute, ampm)
    ensures r.RaisesOverflow? ==> GetTimestamp(dd, mm, yyyy, hour, minute, ampm).None?
    ensures r.RaisesOverflow? <==>
      var c := ParsedFields(dd, mm, yyyy, hour, minute, ampm);
      c.Some? && !(FitsCInt(c.value.year) && FitsCInt(c.value.month) && FitsCInt(c.value.day) && FitsCInt(c.value.minute))
  {
    match ParsedFields(dd, mm, yyyy, hour, minute, ampm)
    case None => Returns(None)
    case Some(c) =>
      if FitsCInt(c.year) && FitsCInt(c.month) && FitsCInt(c.day) && FitsCInt(c.minute) then
        Returns(GetTimestamp(dd, mm, yyyy, hour, minute, ampm))
      else
        RaisesOverflow
  }

  lemma BigYearText()
    ensures IntToString(2147483648) == "2147483648"
  {
    assert NatToString(2) == "2";
    assert NatToString(21) == "21";
    assert NatToString(214) == "214";
    assert NatToString(2147) == "2147";
    assert NatToString(21474) == "21474";
    assert NatToString(214748) == "214748";
    assert NatToString(2147483) == "2147483";
    assert NatToString(21474836) == "21474836";
    assert NatToString(214748364) == "214748364";
  }

  /** The year "2147483648" makes `get_timestamp` as written raise instead of returning `None`. */
  lemma OverflowEscapes()
    ensures GetTimestampAsWritten("1", "1", "2147483648", "0", "0", None) == RaisesOverflow
    ensures GetTimestamp("1", "1", "2147483648", "0", "0", None) == None
  {
    BigYearText();
    assert IntToString(1) == "1" && IntToString(0) == "0";
    ParseIntOfIntToString(2147483648);
    ParseIntOfIntToString(1);
    ParseIntOfIntToString(0);
    assert ParsedFields("1", "1", "2147483648", "0", "0", None) == Some(Civil(2147483648, 1, 1, 0, 0));
  }

  /**
   * A part of more than 4300 digits, such as hour "1" followed by 4300 zeros, makes
   * `int()` raise `ValueError`: the result is `None`, and as written nothing escapes.
   */
  lemma OverlongPartRefused(dd: string, mm: string, yyyy: string, hour: string, minute: string, ampm: Option<string>)
    requires Overlong(dd) || Overlong(mm) || Overlong(yyyy) || Overlong(hour) || Overlong(minute)
    ensures GetTimestamp(dd, mm, yyyy, hour, minute, ampm) == None
    ensures GetTimestampAsWritten(dd, mm, yyyy, hour, minute, ampm) == Returns(None)
  {
    if Overlong(dd) { TooManyDigits(dd); }
    else if Overlong(mm) { TooManyDigits(mm); }
    else if Overlong(yyyy) { TooManyDigits(yyyy); }
    else if Overlong(hour) { TooManyDigits(hour); }
    else { TooManyDigits(minute); }
  }

  /** The hour rule on the examples the command's help text suggests. */
  lemma MeridiemExamples()
    ensures MeridiemHour(8, Some("pm")) == 20
    ensures MeridiemHour(8, Some("PM")) == 20
    ensures MeridiemHour(12, Some("am")) == 0
    ensures MeridiemHour(12, Some("pm")) == 12
    ensures MeridiemHour(20, None) == 8
    ensures MeridiemHour(20, Some("pm")) == 20
  {
    assert Lower("pm") == "pm" && Lower("PM") == "pm" && Lower("am")[0] == 'a';
  }

  /** 25/12/2025 8:30 pm is 20:30 UTC on that day. */
  lemma EveningExample()
    ensures GetTimestamp("25", "12", "2025", "8", "30", Some("pm")) == Some(ToEpoch(Civil(2025, 12, 25, 20, 30)))
  {
    assert IntToString(25) == "25" && IntToString(12) == "12" && IntToString(2025) == "2025";
    assert IntToString(8) == "8" && IntToString(30) == "30";
    ParseIntOfIntToString(25);
    ParseIntOfIntToString(12);
    ParseIntOfIntToString(2025);
    ParseIntOfIntToString(8);
    ParseIntOfIntToString(30);
    assert Lower("pm") == "pm";
    assert ParsedFields("25", "12", "2025", "8", "30", Some("pm")) == Some(Civil(2025, 12, 25, 20, 30));
  }

  /** 31 February is not a date: `get_timestamp` gives `None` rather than raising. */
  lemma NoThirtyFirstOfFebruary()
    ensures GetTimestamp("31", "2", "2025", "8", "30", None) == None
  {
    assert IntToString(31) == "31" && IntToString(2) == "2" && IntToString(2025) == "2025";
    assert IntToString(8) == "8" && IntToString(30) == "30";
    ParseIntOfIntToString(31);
    ParseIntOfIntToString(2);
    ParseIntOfIntToString(2025);
    ParseIntOfIntToString(8);
    ParseIntOfIntToString(30);
    assert ParsedFields("31", "2", "2025", "8", "30", None) == Some(Civil(2025, 2, 31, 8, 30));
  }

  /** Minute 60 is out of range: `None`. */
  lemma NoMinuteSixty()
    ensures GetTimestamp("25", "12", "2025", "8", "60", None) == None
  {
    assert IntToString(25) == "25" && IntToString(12) == "12" && IntToString(2025) == "2025";
    assert IntToString(8) == "8" && IntToString(60) == "60";
    ParseIntOfIntToString(25);
    ParseIntOfIntToString(12);
    ParseIntOfIntToString(2025);
    ParseIntOfIntToString(8);
    ParseIntOfIntToString(60);
    assert ParsedFields("25", "12", "2025", "8", "60", None) == Some(Civil(2025, 12, 25, 8, 60));
  }

  /** A day that is not a number makes `int()` raise `ValueError`, which becomes `None`. */
  lemma NonNumericDay()
    ensures GetTimestamp("x", "12", "2025", "8", "30", None) == None
  {
    assert ParseInt("x") == None;
  }

  /** Midnight of 1 January 1970 is a valid time whose instant is 0, which callers read as false. */
  lemma EpochIsZero()
    ensures GetTimestamp("1", "1", "1970", "12", "0", None) == Some(0)
  {
    assert IntToString(1) == "1" && IntToString(1970) == "1970" && IntToString(12) == "12" && IntToString(0) == "0";
    ParseIntOfIntToString(1);
    ParseIntOfIntToString(1970);
    ParseIntOfIntToString(12);
    ParseIntOfIntToString(0);
    assert ParsedFields("1", "1", "1970", "12", "0", None) == Some(Civil(1970, 1, 1, 0, 0));
    EpochStart();
  }

  lemma EpochStart()
    ensures ValidCivil(Civil(1970, 1, 1, 0, 0)) && ToEpoch(Civil(1970, 1, 1, 0, 0)) == 0
  {
    assert DaysBeforeYear(1970) == 719162;
  }
}
