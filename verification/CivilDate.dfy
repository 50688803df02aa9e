/** Calendar arithmetic of the data crate's build script: a day count since
    1970-01-01 becomes a Gregorian date by nested Euclidean division over
    years that start on the first of March. */
module CivilDate {

  datatype Date = Date(year: int, month: int, day: int)

  // ----- The calendar itself (sections 5.7 and Appendix C of RFC 3339) -----

  predicate LeapYear(y: int) {
    y % 4 == 0 && (y % 100 != 0 || y % 400 == 0)
  }

  function MonthLength(y: int, m: int): int
    requires 1 <= m <= 12
  {
    if m == 2 then (if LeapYear(y) then 29 else 28)
    else if m == 4 || m == 6 || m == 9 || m == 11 then 30
    else 31
  }

  predicate ValidDate(t: Date) {
    1 <= t.month <= 12 && 1 <= t.day <= MonthLength(t.year, t.month)
  }

  /** The day after `t`, read off the month lengths alone. */
  function NextDay(t: Date): Date
    requires ValidDate(t)
  {
    if t.day < MonthLength(t.year, t.month) then t.(day := t.day + 1)
    else if t.month < 12 then Date(t.year, t.month + 1, 1)
    else Date(t.year + 1, 1, 1)
  }

  predicate Before(s: Date, t: Date) {
    s.year < t.year
    || (s.year == t.year && s.month < t.month)
    || (s.year == t.year && s.month == t.month && s.day < t.day)
  }

  // ----- Day counting, independent of the conversion -----

  function DaysBeforeYear(y: int): int {
    365 * (y - 1) + (y - 1) / 4 - (y - 1) / 100 + (y - 1) / 400
  }

  function DaysBeforeMonth(y: int, m: int): int
    requires 1 <= m <= 12
  {
    if m == 1 then 0 else DaysBeforeMonth(y, m - 1) + MonthLength(y, m - 1)
  }

  /** Days from 1970-01-01 to `t`. */
  function DayNumber(t: Date): int
    requires ValidDate(t)
  {
    DaysBeforeYear(t.year) + DaysBeforeMonth(t.year, t.month) + t.day - 1 - 719_162
  }

  /** A quotient grows by one exactly on multiples, and is shifted by eras. */
  lemma Quotients(p: int)
    ensures (p + 1) / 4 == p / 4 + if (p + 1) % 4 == 0 then 1 else 0
    ensures (p + 1) / 100 == p / 100 + if (p + 1) % 100 == 0 then 1 else 0
    ensures (p + 1) / 400 == p / 400 + if (p + 1) % 400 == 0 then 1 else 0
  {
  }

  lemma Multiples(y: int)
    ensures y % 100 == 0 ==> y % 4 == 0
    ensures y % 400 == 0 ==> y % 100 == 0
  {
    if y % 100 == 0 {
      assert y == 4 * (25 * (y / 100));
    }
    if y % 400 == 0 {
      assert y == 100 * (4 * (y / 400));
    }
  }

  lemma YearLength(y: int)
    ensures DaysBeforeYear(y + 1) == DaysBeforeYear(y) + if LeapYear(y) then 366 else 365
  {
    Quotients(y - 1);
    Multiples(y);
  }

  lemma MonthOffsets(y: int)
    ensures var l := if LeapYear(y) then 1 else 0;
      DaysBeforeMonth(y, 2) == 31 && DaysBeforeMonth(y, 3) == 59 + l
      && DaysBeforeMonth(y, 4) == 90 + l && DaysBeforeMonth(y, 5) == 120 + l
      && DaysBeforeMonth(y, 6) == 151 + l && DaysBeforeMonth(y, 7) == 181 + l
      && DaysBeforeMonth(y, 8) == 212 + l && DaysBeforeMonth(y, 9) == 243 + l
      && DaysBeforeMonth(y, 10) == 273 + l && DaysBeforeMonth(y, 11) == 304 + l
      && DaysBeforeMonth(y, 12) == 334 + l
  {
    var l := if LeapYear(y) then 1 else 0;
    assert DaysBeforeMonth(y, 2) == 31;
    assert DaysBeforeMonth(y, 4) == 90 + l;
    assert DaysBeforeMonth(y, 6) == 151 + l;
    assert DaysBeforeMonth(y, 8) == 212 + l;
    assert DaysBeforeMonth(y, 10) == 273 + l;
  }

  /** Counting one day further is moving to the next calendar day. */
  lemma NextDayCounts(t: Date)
    requires ValidDate(t)
    ensures ValidDate(NextDay(t)) && Before(t, NextDay(t))
    ensures DayNumber(NextDay(t)) == DayNumber(t) + 1
  {
    YearLength(t.year);
    MonthOffsets(t.year);
    if t.day == MonthLength(t.year, t.month) && t.month < 12 {
      assert DaysBeforeMonth(t.year, t.month + 1) == DaysBeforeMonth(t.year, t.month) + MonthLength(t.year, t.month);
    }
  }

  // ----- The conversion, in the steps of `civil_from_days` -----

  datatype Steps = Steps(shifted: int, era: int, doe: int, yoe: int, y: int, doy: int, mp: int, d: int, m: int)

  function Convert(z: int): Steps {
    var shifted := z + 719_468;
    var era := shifted / 146_097;
    var doe := shifted % 146_097;
    var yoe := (doe - doe / 1460 + doe / 36_524 - doe / 146_096) / 365;
    var y := yoe + era * 400;
    var doy := doe - (365 * yoe + yoe / 4 - yoe / 100);
    var mp := (5 * doy + 2) / 153;
    var d := doy - (153 * mp + 2) / 5 + 1;
    var m := if mp < 10 then mp + 3 else mp - 9;
    Steps(shifted, era, doe, yoe, y, doy, mp, d, m)
  }

  function CivilFromDays(z: int): Date {
    var s := Convert(z);
    Date(if s.m <= 2 then s.y + 1 else s.y, s.m, s.d)
  }

  // ----- Correctness -----

  /** Days in the first `k` March-based years of a 400-year era. */
  function EraDays(k: int): int { 365 * k + k / 4 - k / 100 }

  /** A day of the era in centuries, four-year cycles, years and days. */
  lemma EraDigits(doe: int) returns (c: int, q: int, i: int, r: int)
    requires 0 <= doe < 146_097
    ensures 0 <= c <= 3 && 0 <= q <= 24 && 0 <= i <= 3 && 0 <= r <= 365
    ensures doe == 36_524 * c + 1461 * q + 365 * i + r
    ensures r == 365 ==> i == 3 && (q == 24 ==> c == 3)
  {
    c := if doe / 36_524 < 3 then doe / 36_524 else 3;
    var rest := doe - 36_524 * c;
    q := if rest / 1461 < 24 then rest / 1461 else 24;
    rest := rest - 1461 * q;
    i := if rest / 365 < 3 then rest / 365 else 3;
    r := rest - 365 * i;
  }

  /** The year-of-era formula on a day given by its digits. */
  lemma YearFromDigits(c: int, q: int, i: int, r: int)
    requires 0 <= c <= 3 && 0 <= q <= 24 && 0 <= i <= 3 && 0 <= r <= 365
    requires r == 365 ==> i == 3 && (q == 24 ==> c == 3)
    ensures var doe := 36_524 * c + 1461 * q + 365 * i + r;
      (doe - doe / 1460 + doe / 36_524 - doe / 146_096) / 365 == 100 * c + 4 * q + i
  {
    var doe := 36_524 * c + 1461 * q + 365 * i + r;
    var over := if 24 * c + q + 365 * i + r >= 1460 then 1 else 0;
    assert doe / 1460 == 25 * c + q + over;
    assert doe / 36_524 - doe / 146_096 == c;
    assert 0 <= r - over < 365;
  }

  /** The year-of-era formula finds the March-based year that holds `doe`. */
  lemma YearOfEra(doe: int)
    requires 0 <= doe < 146_097
    ensures var yoe := (doe - doe / 1460 + doe / 36_524 - doe / 146_096) / 365;
      0 <= yoe < 400 && EraDays(yoe) <= doe <= EraDays(yoe) + 365
      && (doe == EraDays(yoe) + 365 ==> LeapYear(yoe + 1))
  {
    var c, q, i, r := EraDigits(doe);
    YearFromDigits(c, q, i, r);
    DaysOfDigits(c, q, i);
    hide EraDays, LeapYear;
  }

  /** What the digits say about the year they count to. */
  lemma DaysOfDigits(c: int, q: int, i: int)
    requires 0 <= c <= 3 && 0 <= q <= 24 && 0 <= i <= 3
    ensures var k := 100 * c + 4 * q + i;
      && 0 <= k < 400 && EraDays(k) == 36_524 * c + 1461 * q + 365 * i
      && (i == 3 && (q == 24 ==> c == 3) ==> LeapYear(k + 1))
  {
    var k := 100 * c + 4 * q + i;
    QuotientOf(k, 4, 25 * c + q, i);
    QuotientOf(k, 100, c, 4 * q + i);
    if i == 3 {
      QuotientOf(k + 1, 4, 25 * c + q + 1, 0);
      if q < 24 {
        QuotientOf(k + 1, 100, c, 4 * q + 4);
      }
    }
  }

  lemma QuotientOf(x: int, d: int, q: int, r: int)
    requires d == 4 || d == 100
    requires x == d * q + r && 0 <= r < d
    ensures x / d == q && x % d == r
  {
  }

  /** The months after February have fixed offsets from the first of March. */
  lemma MonthOfYear(y: int, doy: int)
    requires 0 <= doy <= 365 && (doy == 365 ==> LeapYear(y + 1))
    ensures var mp := (5 * doy + 2) / 153;
      var m := if mp < 10 then mp + 3 else mp - 9;
      0 <= mp <= 11 && 1 <= m <= 12
      && 1 <= doy - (153 * mp + 2) / 5 + 1 <= MonthLength(if m <= 2 then y + 1 else y, m)
  {
    var mp := (5 * doy + 2) / 153;
    assert (153 * mp + 2) / 5 <= doy < (153 * (mp + 1) + 2) / 5;
  }

  /** A March-based date counts from the first of March of year 0. */
  lemma MarchCount(t: Date)
    requires ValidDate(t)
    ensures var y := if t.month <= 2 then t.year - 1 else t.year;
      var mp := if t.month <= 2 then t.month + 9 else t.month - 3;
      DayNumber(t) + 719_468 == 365 * y + y / 4 - y / 100 + y / 400 + (153 * mp + 2) / 5 + t.day - 1
  {
    MonthOffsets(t.year);
    YearLength(t.year);
  }

  lemma ShiftQuotients(k: int, e: int)
    ensures (k + 4 * e) / 4 == k / 4 + e && (k + 4 * e) % 4 == k % 4
    ensures (k + 100 * e) / 100 == k / 100 + e && (k + 100 * e) % 100 == k % 100
    ensures (k + 400 * e) / 400 == k / 400 + e && (k + 400 * e) % 400 == k % 400
  {
  }

  /** Eras of 400 years repeat. */
  lemma EraShift(k: int, era: int)
    requires 0 <= k < 400
    ensures var y := k + era * 400;
      365 * y + y / 4 - y / 100 + y / 400 == EraDays(k) + 146_097 * era
    ensures LeapYear(k + era * 400 + 1) == LeapYear(k + 1)
  {
    EraQuotients(k, era);
    EraQuotients(k + 1, era);
    assert k / 400 == 0;
  }

  lemma EraQuotients(k: int, era: int)
    ensures var y := k + era * 400;
      && y / 4 == k / 4 + 100 * era && y / 100 == k / 100 + 4 * era && y / 400 == k / 400 + era
      && y % 4 == k % 4 && y % 100 == k % 100 && y % 400 == k % 400
  {
    ShiftQuotients(k, 100 * era);
    ShiftQuotients(k, 4 * era);
    ShiftQuotients(k, era);
  }

  lemma CountFromSteps(t: Date, y: int, doy: int)
    requires 0 <= doy <= 365 && ValidDate(t)
    requires var mp := (5 * doy + 2) / 153;
      t.month == (if mp < 10 then mp + 3 else mp - 9)
      && t.year == (if t.month <= 2 then y + 1 else y)
      && t.day == doy - (153 * mp + 2) / 5 + 1
    ensures DayNumber(t) + 719_468 == 365 * y + y / 4 - y / 100 + y / 400 + doy
  {
    var mp := (5 * doy + 2) / 153;
    assert 0 <= mp <= 11;
    MarchCount(t);
    hide *;
  }

  /** The day of the March-based year lies within it. */
  lemma DayOfYear(z: int)
    ensures var s := Convert(z);
      && 0 <= s.doy <= 365 && 0 <= s.yoe < 400 && (s.doy == 365 ==> LeapYear(s.yoe + 1))
      && z + 719_468 == s.era * 146_097 + EraDays(s.yoe) + s.doy
  {
    YearOfEra(Convert(z).doe);
    hide LeapYear;
  }

  /** For every integer day number the conversion yields a real calendar date,
      and counting the days to that date gives the number back. */
  lemma CivilRoundTrip(z: int)
    ensures ValidDate(CivilFromDays(z))
    ensures DayNumber(CivilFromDays(z)) == z
  {
    var s := Convert(z);
    DayOfYear(z);
    hide LeapYear, MonthLength, EraDays;
    EraShift(s.yoe, s.era);
    MonthOfYear(s.y, s.doy);
    CountFromSteps(CivilFromDays(z), s.y, s.doy);
  }

  lemma YearsGrow(y: int, n: nat)
    ensures DaysBeforeYear(y) + 365 * n <= DaysBeforeYear(y + n)
  {
    if n > 0 {
      YearsGrow(y, n - 1);
      YearLength(y + n - 1);
    }
  }

  lemma WithinYear(t: Date)
    requires ValidDate(t)
    ensures DaysBeforeYear(t.year) <= DayNumber(t) + 719_162 < DaysBeforeYear(t.year + 1)
  {
    YearLength(t.year);
    MonthOffsets(t.year);
  }

  lemma DayNumberGrows(s: Date, t: Date)
    requires ValidDate(s) && ValidDate(t) && Before(s, t)
    ensures DayNumber(s) < DayNumber(t)
  {
    if s.year < t.year {
      WithinYear(s);
      WithinYear(t);
      YearsGrow(s.year + 1, t.year - s.year - 1);
    } else {
      MonthOffsets(s.year);
    }
  }

  /** Every calendar date is the image of exactly its own day number. */
  lemma DaysRoundTrip(t: Date)
    requires ValidDate(t)
    ensures CivilFromDays(DayNumber(t)) == t
  {
    var u := CivilFromDays(DayNumber(t));
    CivilRoundTrip(DayNumber(t));
    if Before(u, t) {
      DayNumberGrows(u, t);
    } else if Before(t, u) {
      DayNumberGrows(t, u);
    }
  }

  lemma DayAfter(t: Date)
    requires ValidDate(t)
    ensures CivilFromDays(DayNumber(t) + 1) == NextDay(t)
  {
    NextDayCounts(t);
    DaysRoundTrip(NextDay(t));
  }

  lemma Epoch()
    ensures CivilFromDays(0) == Date(1970, 1, 1)
  {
    DaysRoundTrip(Date(1970, 1, 1));
  }

  /** Day zero is the epoch, and one day more is the next calendar day: these
      two facts determine the conversion on all integers. */
  lemma CivilSuccessor(z: int)
    ensures ValidDate(CivilFromDays(z)) && CivilFromDays(z + 1) == NextDay(CivilFromDays(z))
  {
    CivilRoundTrip(z);
    DayAfter(CivilFromDays(z));
  }

  lemma CivilMonotone(a: int, b: int)
    requires a < b
    ensures Before(CivilFromDays(a), CivilFromDays(b))
  {
    CivilRoundTrip(a);
    CivilRoundTrip(b);
    var s, t := CivilFromDays(a), CivilFromDays(b);
    if Before(t, s) {
      DayNumberGrows(t, s);
    }
  }

  // ----- Machine arithmetic -----

  predicate FitsI64(x: int) {
    -0x8000_0000_0000_0000 <= x < 0x8000_0000_0000_0000
  }

  /** Whatever 64-bit second count the clock gives, no intermediate value of
      `today` and of the conversion leaves the 64-bit range. */
  lemma NoOverflow(secs: int)
    requires FitsI64(secs)
    ensures var z := secs / 86_400; var s := Convert(z);
      && FitsI64(z) && FitsI64(s.shifted) && FitsI64(s.era) && FitsI64(s.doe)
      && FitsI64(s.doe - s.doe / 1460) && FitsI64(s.doe - s.doe / 1460 + s.doe / 36_524)
      && FitsI64(s.doe - s.doe / 1460 + s.doe / 36_524 - s.doe / 146_096)
      && FitsI64(s.yoe) && FitsI64(s.era * 400) && FitsI64(s.y)
      && FitsI64(365 * s.yoe) && FitsI64(365 * s.yoe + s.yoe / 4)
      && FitsI64(365 * s.yoe + s.yoe / 4 - s.yoe / 100)
      && FitsI64(s.doy) && FitsI64(5 * s.doy + 2) && FitsI64(s.mp)
      && FitsI64(153 * s.mp + 2) && FitsI64(s.d) && FitsI64(s.m) && FitsI64(s.y + 1)
      && 0 <= s.doe && 0 <= s.yoe && 0 <= s.doy && 0 <= s.mp
  {
    var z := secs / 86_400;
    var s := Convert(z);
    assert -0x1_0000_0000_0000 <= z < 0x1_0000_0000_0000;
    YearOfEra(s.doe);
    assert -0x1_0000_0000_0000 <= s.era < 0x1_0000_0000_0000;
  }
}
