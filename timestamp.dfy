/**
  `formatTimestamp`: an epoch-millisecond instant is shifted by nine hours,
  rendered by `Date.prototype.toISOString` (UTC calendar fields), and the
  trailing `Z` of that rendering is replaced by `+09:00`. The calendar is the
  proleptic Gregorian one of ECMAScript's time-value definitions, done here in
  integer arithmetic (`/` and `%` floor for the positive divisors used).
*/
module Kst {
  import opened JsText
  import opened Wrappers

  const MsPerSecond := 1000
  const MsPerMinute := 60000
  const MsPerHour := 3600000
  const MsPerDay := 86400000

  /** The shift applied before rendering: 9 * 60 * 60 * 1000 milliseconds. */
  const KstOffset := 32400000

  /** 0000-01-01T00:00:00.000Z and 9999-12-31T23:59:59.999Z: the instants that
      `toISOString` renders with a four-digit year. */
  const MinIsoInstant := -62167219200000
  const MaxIsoInstant := 253402300799999

  /** Integral epoch milliseconds whose +09:00 wall-clock time has a four-digit year. */
  type EpochMillis = t: int | MinIsoInstant - KstOffset <= t <= MaxIsoInstant - KstOffset

  /** Calendar fields of an instant, as `toISOString` prints them. */
  datatype CivilTime = CivilTime(year: int, month: int, day: int,
                                 hour: int, minute: int, second: int, millisecond: int)

  predicate IsLeapYear(y: int) {
    y % 4 == 0 && (y % 100 != 0 || y % 400 == 0)
  }

  function DaysInYear(y: int): int {
    if IsLeapYear(y) then 366 else 365
  }

  /** Days from 1970-01-01 to the first of January of year `y`. */
  function DayFromYear(y: int): int {
    365 * (y - 1970) + (y - 1969) / 4 - (y - 1901) / 100 + (y - 1601) / 400
  }

  /** Floor division by a positive constant steps up by one exactly at its multiples. */
  lemma DivStep(n: int, k: int, q: int)
    requires k == 4 || k == 100 || k == 400
    requires q * k == n + 1 || q * k == n + 1 - (n + 1) % k
    ensures (n + 1) / k - n / k == if (n + 1) % k == 0 then 1 else 0
  {
  }

  /** Multiples of 400 are multiples of 100, which are multiples of 4. */
  lemma LeapDivisors(y: int)
    ensures y % 100 == 0 ==> y % 4 == 0
    ensures y % 400 == 0 ==> y % 100 == 0
  {
    if y % 100 == 0 {
      assert y == 4 * (25 * (y / 100));
    }
    if y % 400 == 0 {
      assert y == 100 * (4 * (y / 400));
    }
  }

  /** DayFromYear's count of years divisible by 4 goes up by one from `y` to `y + 1`
      exactly when 4 divides `y`; likewise for 100 and 400 below. */
  lemma FourStep(y: int)
    ensures (y + 1 - 1969) / 4 - (y - 1969) / 4 == if y % 4 == 0 then 1 else 0
  {
    DivStep(y - 1969, 4, (y + 1 - 1969) / 4);
    assert (y + 1 - 1969) % 4 == y % 4;
  }

  lemma HundredStep(y: int)
    ensures (y + 1 - 1901) / 100 - (y - 1901) / 100 == if y % 100 == 0 then 1 else 0
  {
    DivStep(y - 1901, 100, (y + 1 - 1901) / 100);
    assert (y + 1 - 1901) % 100 == y % 100;
  }

  lemma FourHundredStep(y: int)
    ensures (y + 1 - 1601) / 400 - (y - 1601) / 400 == if y % 400 == 0 then 1 else 0
  {
    DivStep(y - 1601, 400, (y + 1 - 1601) / 400);
    assert (y + 1 - 1601) % 400 == y % 400;
  }

  lemma DayFromYearNext(y: int)
    ensures DayFromYear(y + 1) == DayFromYear(y) + DaysInYear(y)
  {
    var a := (y + 1 - 1969) / 4 - (y - 1969) / 4;
    var b := (y + 1 - 1901) / 100 - (y - 1901) / 100;
    var c := (y + 1 - 1601) / 400 - (y - 1601) / 400;
    FourStep(y);
    HundredStep(y);
    FourHundredStep(y);
    assert DaysInYear(y) == 365 + a - b + c by {
      LeapDivisors(y);
    }
  }

  /** A year of 365.2425 days on average: DayFromYear stays within two days of the linear estimate. */
  lemma DayFromYearNearLinear(y: int)
    ensures -506 <= 400 * DayFromYear(y) - 146097 * (y - 1970) <= 589
  {
    var n := y - 1970;
    assert 4 * ((n + 1) / 4) + (n + 1) % 4 == n + 1;
    assert 100 * ((n + 69) / 100) + (n + 69) % 100 == n + 69;
    assert 400 * ((n + 369) / 400) + (n + 369) % 400 == n + 369;
  }

  /** The days of 0000-01-01 and 10000-01-01: the bounds of MinIsoInstant and MaxIsoInstant. */
  lemma FourDigitYearDays()
    ensures DayFromYear(0) == -719528 && DayFromYear(10000) == 2932897
    ensures MinIsoInstant == DayFromYear(0) * MsPerDay
    ensures MaxIsoInstant == DayFromYear(10000) * MsPerDay - 1
  {
    assert (0 - 1969) / 4 == -493 && (0 - 1901) / 100 == -20 && (0 - 1601) / 400 == -5;
    assert (10000 - 1969) / 4 == 2007 && (10000 - 1901) / 100 == 80 && (10000 - 1601) / 400 == 20;
  }

  lemma DayFromYearIncreasing(a: int, b: int)
    requires a < b
    ensures DayFromYear(a + 1) <= DayFromYear(b)
  {
    DayFromYearNearLinear(a + 1);
    DayFromYearNearLinear(b);
  }

  /** With e the linear estimate 1970 + 400d/146097, day `d` lies in year e - 1, e or e + 1. */
  lemma YearEstimate(d: int)
    ensures var e := 1970 + 400 * d / 146097;
            DayFromYear(e - 1) <= d < DayFromYear(e + 2)
  {
    var e := 1970 + 400 * d / 146097;
    DayFromYearNearLinear(e - 1);
    DayFromYearNearLinear(e + 2);
  }

  /** The year containing day `d` (days since 1970-01-01): ECMAScript's YearFromTime. */
  function YearFromDay(d: int): (y: int)
    ensures DayFromYear(y) <= d < DayFromYear(y + 1)
  {
    var e := 1970 + 400 * d / 146097;
    YearEstimate(d);
    if DayFromYear(e + 1) <= d then e + 1
    else if DayFromYear(e) <= d then e
    else e - 1
  }

  /** Days of the year before the first of month `m` (m = 13 gives the year's length). */
  function MonthStart(m: int, leap: bool): (n: int)
    requires 1 <= m <= 13
  {
    [0, 31, 59, 90, 120, 151, 181, 212, 243, 273, 304, 334, 365][m - 1]
      + (if leap && m > 2 then 1 else 0)
  }

  function DaysInMonth(y: int, m: int): int
    requires 1 <= m <= 12
  {
    MonthStart(m + 1, IsLeapYear(y)) - MonthStart(m, IsLeapYear(y))
  }

  /** The month containing day-of-year `doy`, searching from month `m` on (ECMAScript's MonthFromTime). */
  function MonthFrom(doy: int, leap: bool, m: int): (r: int)
    requires 1 <= m <= 12
    requires MonthStart(m, leap) <= doy < MonthStart(13, leap)
    ensures m <= r <= 12
    ensures MonthStart(r, leap) <= doy < MonthStart(r + 1, leap)
    decreases 12 - m
  {
    if doy < MonthStart(m + 1, leap) then m else MonthFrom(doy, leap, m + 1)
  }

  predicate IsValidCivil(c: CivilTime) {
    && 0 <= c.year <= 9999
    && 1 <= c.month <= 12
    && 1 <= c.day <= DaysInMonth(c.year, c.month)
    && 0 <= c.hour < 24
    && 0 <= c.minute < 60
    && 0 <= c.second < 60
    && 0 <= c.millisecond < 1000
  }

  /** The calendar fields of millisecond `inDay` of day `day` (days since 1970-01-01). */
  function CivilOfDay(day: int, inDay: int): (c: CivilTime)
    requires DayFromYear(0) <= day < DayFromYear(10000)
    requires 0 <= inDay < MsPerDay
    ensures IsValidCivil(c)
  {
    var y := YearFromDay(day);
    assert 0 <= y <= 9999 by {
      if y < 0 {
        DayFromYearIncreasing(y, 0);
      } else if y > 9999 {
        DayFromYearIncreasing(9999, y);
      }
    }
    var leap := IsLeapYear(y);
    var doy := day - DayFromYear(y);
    assert doy < MonthStart(13, leap) by {
      DayFromYearNext(y);
    }
    var m := MonthFrom(doy, leap, 1);
    assert inDay / MsPerHour < 24;
    CivilTime(y, m, doy - MonthStart(m, leap) + 1,
              inDay / MsPerHour, inDay / MsPerMinute % 60, inDay / MsPerSecond % 60, inDay % MsPerSecond)
  }

  /** The UTC calendar fields of instant `t` (ECMAScript's Day and TimeWithinDay, then the fields). */
  function ToCivil(t: int): (c: CivilTime)
    requires MinIsoInstant <= t <= MaxIsoInstant
    ensures IsValidCivil(c)
  {
    FourDigitYearDays();
    CivilOfDay(t / MsPerDay, t % MsPerDay)
  }

  /** The instant whose UTC calendar fields are `c`. */
  function FromCivil(c: CivilTime): int
    requires 1 <= c.month <= 12
  {
    DayOfCivil(c) * MsPerDay + c.hour * MsPerHour + c.minute * MsPerMinute + c.second * MsPerSecond + c.millisecond
  }

  /** Whole minutes are whole seconds divided by 60, whole hours whole minutes divided by 60. */
  lemma MinutesOfSeconds(n: nat)
    ensures n / MsPerSecond / 60 == n / MsPerMinute
  {
    var q := n / MsPerSecond / 60;
    assert n == q * MsPerMinute + (n / MsPerSecond % 60) * MsPerSecond + n % MsPerSecond;
  }

  lemma HoursOfMinutes(n: nat)
    ensures n / MsPerMinute / 60 == n / MsPerHour
  {
    var q := n / MsPerMinute / 60;
    assert n == q * MsPerHour + (n / MsPerMinute % 60) * MsPerMinute + n % MsPerMinute;
  }

  /** A millisecond of the day is its hours, minutes, seconds and milliseconds. */
  lemma InDaySplit(inDay: int)
    requires 0 <= inDay < MsPerDay
    ensures inDay == inDay / MsPerHour * MsPerHour + inDay / MsPerMinute % 60 * MsPerMinute
                     + inDay / MsPerSecond % 60 * MsPerSecond + inDay % MsPerSecond
  {
    var seconds := inDay / MsPerSecond;
    var minutes := inDay / MsPerMinute;
    MinutesOfSeconds(inDay);
    HoursOfMinutes(inDay);
    assert inDay == seconds * MsPerSecond + inDay % MsPerSecond;
    assert seconds == minutes * 60 + seconds % 60;
    assert minutes == inDay / MsPerHour * 60 + minutes % 60;
  }

  /** DayOfCivil and the time-of-day sum undo CivilOfDay. */
  lemma CivilOfDayInverse(day: int, inDay: int)
    requires DayFromYear(0) <= day < DayFromYear(10000)
    requires 0 <= inDay < MsPerDay
    ensures FromCivil(CivilOfDay(day, inDay)) == day * MsPerDay + inDay
  {
    var c := CivilOfDay(day, inDay);
    assert DayOfCivil(c) == day;
    InDaySplit(inDay);
  }

  lemma FromCivilToCivil(t: int)
    requires MinIsoInstant <= t <= MaxIsoInstant
    ensures FromCivil(ToCivil(t)) == t
  {
    FourDigitYearDays();
    CivilOfDayInverse(t / MsPerDay, t % MsPerDay);
  }

  lemma ToCivilFromCivil(c: CivilTime)
    requires IsValidCivil(c)
    ensures MinIsoInstant <= FromCivil(c) <= MaxIsoInstant
    ensures ToCivil(FromCivil(c)) == c
  {
    var day := DayOfCivil(c);
    var inDay := c.hour * MsPerHour + c.minute * MsPerMinute + c.second * MsPerSecond + c.millisecond;
    TimeOfDayFields(c.hour, c.minute, c.second, c.millisecond);
    DayOfCivilInYear(c);
    var t := FromCivil(c);
    assert t == day * MsPerDay + inDay;
    FourDigitYearDays();
    SplitDay(day, inDay);
    CivilOfDayIs(c, t / MsPerDay, t % MsPerDay);
  }

  /** Days since 1970-01-01 of the date in `c`. */
  function DayOfCivil(c: CivilTime): int
    requires 1 <= c.month <= 12
  {
    DayFromYear(c.year) + MonthStart(c.month, IsLeapYear(c.year)) + c.day - 1
  }

  /** The date of `c` falls inside its year, which has four digits. */
  lemma DayOfCivilInYear(c: CivilTime)
    requires IsValidCivil(c)
    ensures DayFromYear(c.year) <= DayOfCivil(c) < DayFromYear(c.year + 1)
    ensures DayFromYear(0) <= DayOfCivil(c) < DayFromYear(10000)
  {
    DayFromYearNext(c.year);
    MonthStartIncreasing(IsLeapYear(c.year), c.month + 1, 13);
    DayFromYearIncreasing(c.year, 10000);
    DayFromYearIncreasing(-1, c.year);
  }

  /** Only one year contains a given day. */
  lemma YearFromDayUnique(y: int, d: int)
    requires DayFromYear(y) <= d < DayFromYear(y + 1)
    ensures YearFromDay(d) == y
  {
    var x := YearFromDay(d);
    if x < y {
      DayFromYearIncreasing(x, y);
    } else if x > y {
      DayFromYearIncreasing(y, x);
    }
  }

  /** CivilOfDay is the inverse of DayOfCivil and the time-of-day sum. */
  lemma CivilOfDayIs(c: CivilTime, day: int, inDay: int)
    requires IsValidCivil(c)
    requires DayFromYear(0) <= day < DayFromYear(10000) && 0 <= inDay < MsPerDay
    requires day == DayOfCivil(c)
    requires inDay / MsPerHour == c.hour && inDay / MsPerMinute % 60 == c.minute
    requires inDay / MsPerSecond % 60 == c.second && inDay % MsPerSecond == c.millisecond
    ensures CivilOfDay(day, inDay) == c
  {
    var leap := IsLeapYear(c.year);
    var doy := MonthStart(c.month, leap) + c.day - 1;
    DayOfCivilInYear(c);
    YearFromDayUnique(c.year, day);
    MonthStartIncreasing(leap, c.month + 1, 13);
    MonthUnique(doy, leap, c.month, MonthFrom(doy, leap, 1));
  }

  lemma SplitDay(day: int, inDay: int)
    requires 0 <= inDay < MsPerDay
    ensures (day * MsPerDay + inDay) / MsPerDay == day
    ensures (day * MsPerDay + inDay) % MsPerDay == inDay
  {
  }

  lemma TimeOfDayFields(h: int, m: int, s: int, ms: int)
    requires 0 <= h < 24 && 0 <= m < 60 && 0 <= s < 60 && 0 <= ms < 1000
    ensures var inDay := h * MsPerHour + m * MsPerMinute + s * MsPerSecond + ms;
            && 0 <= inDay < MsPerDay
            && inDay / MsPerHour == h
            && inDay / MsPerMinute % 60 == m
            && inDay / MsPerSecond % 60 == s
            && inDay % MsPerSecond == ms
  {
    var inDay := h * MsPerHour + m * MsPerMinute + s * MsPerSecond + ms;
    assert inDay / MsPerMinute == h * 60 + m;
    assert inDay / MsPerSecond == (h * 60 + m) * 60 + s;
  }

  lemma MonthUnique(doy: int, leap: bool, m1: int, m2: int)
    requires 1 <= m1 <= 12 && 1 <= m2 <= 12
    requires MonthStart(m1, leap) <= doy < MonthStart(m1 + 1, leap)
    requires MonthStart(m2, leap) <= doy < MonthStart(m2 + 1, leap)
    ensures m1 == m2
  {
    if m1 < m2 {
      MonthStartIncreasing(leap, m1 + 1, m2);
    } else if m2 < m1 {
      MonthStartIncreasing(leap, m2 + 1, m1);
    }
  }

  lemma MonthStartIncreasing(leap: bool, a: int, b: int)
    requires 1 <= a <= b <= 13
    ensures MonthStart(a, leap) <= MonthStart(b, leap)
  {
  }


  /** `toISOString` without its `Z`: YYYY-MM-DDTHH:mm:ss.sss, every field zero-padded. */
  function Render(c: CivilTime): (s: string)
    requires IsValidCivil(c)
    ensures |s| == 23
  {
    [ DigitChar(c.year / 100 / 10), DigitChar(c.year / 100 % 10), DigitChar(c.year % 100 / 10), DigitChar(c.year % 100 % 10),
      '-', DigitChar(c.month / 10), DigitChar(c.month % 10),
      '-', DigitChar(c.day / 10), DigitChar(c.day % 10),
      'T', DigitChar(c.hour / 10), DigitChar(c.hour % 10),
      ':', DigitChar(c.minute / 10), DigitChar(c.minute % 10),
      ':', DigitChar(c.second / 10), DigitChar(c.second % 10),
      '.', DigitChar(c.millisecond / 10 / 10), DigitChar(c.millisecond / 10 % 10), DigitChar(c.millisecond % 10) ]
  }

  /** The rendering holds no `Z`, so the one `replace` rewrites is the suffix `toISOString` appends. */
  lemma RenderHasNoZ(c: CivilTime)
    requires IsValidCivil(c)
    ensures 'Z' !in Render(c)
  {
    var s := Render(c);
    forall k | 0 <= k < |s| ensures s[k] != 'Z' {
    }
  }

  /** `new Date(t).toISOString()` for an instant with a four-digit year. */
  function ToIsoString(t: int): string
    requires MinIsoInstant <= t <= MaxIsoInstant
  {
    Render(ToCivil(t)) + "Z"
  }

  /** `formatTimestamp(t)`: `new Date(t + 9h).toISOString().replace('Z', '+09:00')`. */
  function FormatTimestamp(t: EpochMillis): (s: string)
    ensures s == Render(ToCivil(t + KstOffset)) + "+09:00"
  {
    var iso := Render(ToCivil(t + KstOffset));
    RenderHasNoZ(ToCivil(t + KstOffset));
    ReplaceFirstOccurrence(iso, 'Z', "+09:00", "");
    assert iso + ['Z'] + "" == ToIsoString(t + KstOffset);
    assert iso + "+09:00" + "" == iso + "+09:00";
    ReplaceFirst(ToIsoString(t + KstOffset), 'Z', "+09:00")
  }

  // ----- Reading a rendered date-time back (section 5.6 of RFC 3339) -----

  function TwoDigits(s: string, i: nat): int
    requires i + 2 <= |s|
  {
    10 * DigitValue(s[i]) + DigitValue(s[i + 1])
  }

  function ThreeDigits(s: string, i: nat): int
    requires i + 3 <= |s|
  {
    10 * TwoDigits(s, i) + DigitValue(s[i + 2])
  }

  function FourDigits(s: string, i: nat): int
    requires i + 4 <= |s|
  {
    100 * TwoDigits(s, i) + TwoDigits(s, i + 2)
  }

  predicate DigitsAt(s: string, i: nat, n: nat) {
    i + n <= |s| && forall k :: i <= k < i + n ==> IsDigit(s[k])
  }

  /** The table of section 5.7 of RFC 3339, with the leap-year rule of its appendix C. */
  function MaxMonthDay(year: int, month: int): int
    requires 1 <= month <= 12
  {
    if month == 2 then (if year % 4 == 0 && (year % 100 != 0 || year % 400 == 0) then 29 else 28)
    else if month == 4 || month == 6 || month == 9 || month == 11 then 30
    else 31
  }

  /** The month lengths of the ECMAScript calendar are those of RFC 3339's table. */
  lemma MonthTablesAgree(year: int, month: int)
    requires 1 <= month <= 12
    ensures DaysInMonth(year, month) == MaxMonthDay(year, month)
  {
  }

  /** full-date (date-fullyear "-" date-month "-" date-mday) at position `i`,
      with the ranges of section 5.7 of RFC 3339. */
  predicate IsFullDateAt(s: string, i: nat) {
    && DigitsAt(s, i, 4) && i + 10 <= |s|
    && s[i + 4] == '-' && DigitsAt(s, i + 5, 2) && s[i + 7] == '-' && DigitsAt(s, i + 8, 2)
    && 1 <= TwoDigits(s, i + 5) <= 12
    && 1 <= TwoDigits(s, i + 8) <= MaxMonthDay(FourDigits(s, i), TwoDigits(s, i + 5))
  }

  /** time-hour ":" time-minute ":" time-second at position `i` (a leap second 60 is admitted). */
  predicate IsPartialTimeAt(s: string, i: nat) {
    && i + 8 <= |s|
    && DigitsAt(s, i, 2) && s[i + 2] == ':' && DigitsAt(s, i + 3, 2) && s[i + 5] == ':' && DigitsAt(s, i + 6, 2)
    && TwoDigits(s, i) <= 23 && TwoDigits(s, i + 3) <= 59 && TwoDigits(s, i + 6) <= 60
  }

  /** From position `i` to the end, `s` is a time-offset: "Z" or ("+" / "-") time-hour ":" time-minute. */
  predicate IsTimeOffsetAt(s: string, i: nat) {
    || (|s| == i + 1 && (s[i] == 'Z' || s[i] == 'z'))
    || (&& |s| == i + 6 && (s[i] == '+' || s[i] == '-')
        && DigitsAt(s, i + 1, 2) && s[i + 3] == ':' && DigitsAt(s, i + 4, 2)
        && TwoDigits(s, i + 1) <= 23 && TwoDigits(s, i + 4) <= 59)
  }

  /** From position `i`: further digits of time-secfrac, then a time-offset up to the end. */
  predicate IsFractionThenOffset(s: string, i: nat)
    decreases |s| - i
  {
    IsTimeOffsetAt(s, i) || (i < |s| && IsDigit(s[i]) && IsFractionThenOffset(s, i + 1))
  }

  /** date-time of section 5.6 of RFC 3339: full-date "T" partial-time [time-secfrac] time-offset. */
  predicate IsDateTime(s: string) {
    && |s| >= 20
    && IsFullDateAt(s, 0)
    && (s[10] == 'T' || s[10] == 't')
    && IsPartialTimeAt(s, 11)
    && (|| IsTimeOffsetAt(s, 19)
        || (|s| > 20 && s[19] == '.' && IsDigit(s[20]) && IsFractionThenOffset(s, 21)))
  }

  /** The instant denoted by a date-time written YYYY-MM-DDTHH:mm:ss.sss±hh:mm, read with its offset;
      None for every other layout. */
  function InstantOf(s: string): (r: Option<int>)
    ensures r.Some? ==> IsDateTime(s)
  {
    if |s| == 29 && IsDateTime(s) && s[19] == '.' && DigitsAt(s, 20, 3) && (s[23] == '+' || s[23] == '-') then
      var local := CivilTime(FourDigits(s, 0), TwoDigits(s, 5), TwoDigits(s, 8),
                             TwoDigits(s, 11), TwoDigits(s, 14), TwoDigits(s, 17), ThreeDigits(s, 20));
      var offset := TwoDigits(s, 24) * MsPerHour + TwoDigits(s, 27) * MsPerMinute;
      Some(FromCivil(local) - (if s[23] == '+' then offset else -offset))
    else None
  }

  // ----- What formatTimestamp promises -----

  lemma TwoDigitsOf(s: string, i: nat, n: int)
    requires 0 <= n < 100 && i + 2 <= |s|
    requires s[i] == DigitChar(n / 10) && s[i + 1] == DigitChar(n % 10)
    ensures DigitsAt(s, i, 2) && TwoDigits(s, i) == n
  {
  }

  lemma ThreeDigitsOf(s: string, i: nat, n: int)
    requires 0 <= n < 1000 && i + 3 <= |s|
    requires s[i] == DigitChar(n / 10 / 10) && s[i + 1] == DigitChar(n / 10 % 10) && s[i + 2] == DigitChar(n % 10)
    ensures DigitsAt(s, i, 3) && ThreeDigits(s, i) == n
  {
    TwoDigitsOf(s, i, n / 10);
  }

  lemma FourDigitsOf(s: string, i: nat, n: int)
    requires 0 <= n < 10000 && i + 4 <= |s|
    requires s[i] == DigitChar(n / 100 / 10) && s[i + 1] == DigitChar(n / 100 % 10)
    requires s[i + 2] == DigitChar(n % 100 / 10) && s[i + 3] == DigitChar(n % 100 % 10)
    ensures DigitsAt(s, i, 4) && FourDigits(s, i) == n
  {
    TwoDigitsOf(s, i, n / 100);
    TwoDigitsOf(s, i + 2, n % 100);
  }

  /** The fields of the rendering read back as the calendar fields printed there,
      whatever follows the rendering: the year ... */
  lemma RenderedYear(c: CivilTime, suffix: string, s: string)
    requires IsValidCivil(c)
    requires s == Render(c) + suffix
    ensures DigitsAt(s, 0, 4) && FourDigits(s, 0) == c.year
  {
    FourDigitsOf(s, 0, c.year);
  }

  /** ... the month and the day ... */
  lemma RenderedMonthDay(c: CivilTime, suffix: string, s: string)
    requires IsValidCivil(c)
    requires s == Render(c) + suffix
    ensures DigitsAt(s, 5, 2) && TwoDigits(s, 5) == c.month
    ensures DigitsAt(s, 8, 2) && TwoDigits(s, 8) == c.day
    ensures s[4] == '-' && s[7] == '-' && s[10] == 'T'
  {
    TwoDigitsOf(s, 5, c.month);
    TwoDigitsOf(s, 8, c.day);
  }

  /** ... and the time of day. */
  lemma RenderedTime(c: CivilTime, suffix: string, s: string)
    requires IsValidCivil(c)
    requires s == Render(c) + suffix
    ensures DigitsAt(s, 11, 2) && TwoDigits(s, 11) == c.hour
    ensures DigitsAt(s, 14, 2) && TwoDigits(s, 14) == c.minute
    ensures DigitsAt(s, 17, 2) && TwoDigits(s, 17) == c.second
    ensures DigitsAt(s, 20, 3) && ThreeDigits(s, 20) == c.millisecond
    ensures s[13] == ':' && s[16] == ':' && s[19] == '.'
  {
    TwoDigitsOf(s, 11, c.hour);
    TwoDigitsOf(s, 14, c.minute);
    TwoDigitsOf(s, 17, c.second);
    ThreeDigitsOf(s, 20, c.millisecond);
  }

  /** The rendering followed by +09:00 is an RFC 3339 date-time carrying the fields of `c`. */
  lemma RenderedWithOffset(c: CivilTime)
    requires IsValidCivil(c)
    ensures var s := Render(c) + "+09:00";
            && |s| == 29
            && IsDateTime(s)
            && FourDigits(s, 0) == c.year && TwoDigits(s, 5) == c.month && TwoDigits(s, 8) == c.day
            && TwoDigits(s, 11) == c.hour && TwoDigits(s, 14) == c.minute && TwoDigits(s, 17) == c.second
            && s[19] == '.' && DigitsAt(s, 20, 3) && ThreeDigits(s, 20) == c.millisecond
            && s[23] == '+' && TwoDigits(s, 24) == 9 && s[26] == ':' && TwoDigits(s, 27) == 0
  {
    var s := Render(c) + "+09:00";
    RenderedYear(c, "+09:00", s);
    RenderedMonthDay(c, "+09:00", s);
    RenderedTime(c, "+09:00", s);
    MonthTablesAgree(c.year, c.month);
    assert s[23..] == "+09:00";
    assert IsTimeOffsetAt(s, 23);
    assert IsFractionThenOffset(s, 21) by {
      assert IsFractionThenOffset(s, 23);
      assert IsFractionThenOffset(s, 22);
    }
  }

  /** The output is a date-time of section 5.6 of RFC 3339 whose fields are the
      UTC calendar fields of t + 9h, followed by the literal offset +09:00. */
  lemma FormatTimestampIsDateTime(t: EpochMillis)
    ensures var s, c := FormatTimestamp(t), ToCivil(t + KstOffset);
            && |s| == 29
            && IsDateTime(s)
            && s[23..] == "+09:00"
            && FourDigits(s, 0) == c.year && TwoDigits(s, 5) == c.month && TwoDigits(s, 8) == c.day
            && TwoDigits(s, 11) == c.hour && TwoDigits(s, 14) == c.minute && TwoDigits(s, 17) == c.second
            && ThreeDigits(s, 20) == c.millisecond
  {
    var c := ToCivil(t + KstOffset);
    RenderedWithOffset(c);
    assert (Render(c) + "+09:00")[23..] == "+09:00";
  }

  lemma InstantOfRendered(c: CivilTime)
    requires IsValidCivil(c)
    ensures InstantOf(Render(c) + "+09:00") == Some(FromCivil(c) - KstOffset)
  {
    var s := Render(c) + "+09:00";
    RenderedWithOffset(c);
    assert CivilTime(FourDigits(s, 0), TwoDigits(s, 5), TwoDigits(s, 8),
                     TwoDigits(s, 11), TwoDigits(s, 14), TwoDigits(s, 17), ThreeDigits(s, 20)) == c;
  }

  lemma RenderedInstant(c: CivilTime, t: int)
    requires IsValidCivil(c) && FromCivil(c) == t + KstOffset
    ensures InstantOf(Render(c) + "+09:00") == Some(t)
  {
    InstantOfRendered(c);
  }

  /** Read back with its offset, the rendering denotes the instant t itself. */
  lemma FormatTimestampRoundTrip(t: EpochMillis)
    ensures InstantOf(FormatTimestamp(t)) == Some(t)
  {
    WallClockRoundTrip(t);
  }

  /** The +09:00 wall-clock rendering of an instant reads back as that instant. */
  lemma WallClockRoundTrip(t: int)
    requires MinIsoInstant <= t + KstOffset <= MaxIsoInstant
    ensures InstantOf(Render(ToCivil(t + KstOffset)) + "+09:00") == Some(t)
  {
    var c := ToCivil(t + KstOffset);
    assert FromCivil(c) == t + KstOffset by {
      FromCivilToCivil(t + KstOffset);
    }
    RenderedInstant(c, t);
  }

  /** Nine o'clock on 1970-01-01 is printed as 1970-01-01T09:00:00.000. */
  lemma RenderEpochKst(c: CivilTime)
    requires c == CivilTime(1970, 1, 1, 9, 0, 0, 0)
    ensures IsValidCivil(c) && Render(c) == "1970-01-01T09:00:00.000"
  {
  }

  /** The instant 0 is nine o'clock on 1970-01-01 on the +09:00 wall clock. */
  lemma CivilAtEpochKst(t: EpochMillis)
    requires t == 0
    ensures ToCivil(t + KstOffset) == CivilTime(1970, 1, 1, 9, 0, 0, 0)
  {
    var c := CivilTime(t + 1970, 1, 1, 9, 0, 0, 0);
    assert DayFromYear(c.year) == 0;
    assert FromCivil(c) == t + KstOffset;
    ToCivilFromCivil(c);
  }
}
