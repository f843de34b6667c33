/**
 The week key of the weekly recommendations against the week date of ISO 8601:2004, section 4.1.4.

 A day is a number counted from 1970-01-01 in the proleptic Gregorian calendar. `Date.UTC` reads the years 0 to 99
 as 1900 to 1999, which is the only place where the key goes wrong.
 */
module IsoWeek {
  import opened ClassData

  // ---------- Calendar ----------

  predicate Leap(y: int) {
    y % 4 == 0 && (y % 100 != 0 || y % 400 == 0)
  }

  function YearDays(y: int): int {
    if Leap(y) then 366 else 365
  }

  /** The day number of 1 January of year `y`. */
  function NewYear(y: int): int
    decreases if y < 1970 then 1970 - y else y - 1970
  {
    if y == 1970 then 0
    else if y > 1970 then NewYear(y - 1) + YearDays(y - 1)
    else NewYear(y + 1) - YearDays(y)
  }

  lemma YearLength(y: int)
    ensures NewYear(y + 1) == NewYear(y) + YearDays(y)
    ensures 365 <= YearDays(y) <= 366
  {
  }

  lemma {:induction false} YearsOrdered(y: int, z: int)
    requires y < z
    ensures NewYear(y) + 365 * (z - y) <= NewYear(z) <= NewYear(y) + 366 * (z - y)
    decreases z - y
  {
    YearLength(y);
    if y + 1 < z {
      YearsOrdered(y + 1, z);
    }
  }

  /** `getUTCFullYear`. */
  function YearOf(day: int): (y: int)
    ensures NewYear(y) <= day < NewYear(y + 1)
  {
    if day >= 0 then YearUp(day, 1970) else YearDown(day, 1970)
  }

  function YearUp(day: int, y: int): (r: int)
    requires NewYear(y) <= day
    ensures NewYear(r) <= day < NewYear(r + 1)
    decreases day - NewYear(y)
  {
    YearLength(y);
    if day < NewYear(y + 1) then y else YearUp(day, y + 1)
  }

  function YearDown(day: int, y: int): (r: int)
    requires day < NewYear(y)
    ensures NewYear(r) <= day < NewYear(r + 1)
    decreases NewYear(y) - day
  {
    YearLength(y - 1);
    if NewYear(y - 1) <= day then y - 1 else YearDown(day, y - 1)
  }

  lemma YearUnique(day: int, y: int)
    requires NewYear(y) <= day < NewYear(y + 1)
    ensures YearOf(day) == y
  {
    var z := YearOf(day);
    if z < y {
      if z + 1 < y { YearsOrdered(z + 1, y); }
    } else if y < z {
      if y + 1 < z { YearsOrdered(y + 1, z); }
    }
  }

  function MonthLength(y: int, month: int): int {
    if month == 1 then (if Leap(y) then 29 else 28)
    else if month == 3 || month == 5 || month == 8 || month == 10 then 30 else 31
  }

  function DaysBeforeMonth(y: int, month: int): int
    requires 0 <= month <= 11
    decreases month
  {
    if month == 0 then 0 else DaysBeforeMonth(y, month - 1) + MonthLength(y, month - 1)
  }

  /** `month` is 0 to 11, as in JavaScript. */
  datatype Civil = Civil(year: int, month: int, day: int)

  predicate IsDate(c: Civil) {
    0 <= c.month <= 11 && 1 <= c.day <= MonthLength(c.year, c.month)
  }

  function DayNumber(c: Civil): int
    requires 0 <= c.month <= 11
  {
    NewYear(c.year) + DaysBeforeMonth(c.year, c.month) + c.day - 1
  }

  predicate TwoDigit(y: int) {
    0 <= y <= 99
  }

  /** `Date.UTC(year, month, day)`, with its two-digit years. */
  function DateUtc(c: Civil): int
    requires 0 <= c.month <= 11
  {
    DayNumber(c.(year := if TwoDigit(c.year) then 1900 + c.year else c.year))
  }

  // ---------- The key ----------

  datatype WeekKey = WeekKey(year: int, week: int)

  /** JavaScript's `Math.round(days / 7)`. */
  function RoundedWeeks(days: int): int {
    (2 * days + 7) / 14
  }

  method WeekOfYear(date: Civil) returns (key: WeekKey)
    requires IsDate(date)
    ensures key == KeyOf(date)
  {
    var target := DateUtc(date);
    var dayNr := (Weekday(target) + 6) % 7;
    target := target - dayNr + 3;
    var firstThursday := DateUtc(Civil(YearOf(target), 0, 4));
    var diff := target - firstThursday;
    var week := 1 + RoundedWeeks(diff);
    key := WeekKey(YearOf(target), week);
  }

  function ThursdayOf(day: int): int {
    day - (Weekday(day) + 6) % 7 + 3
  }

  function KeyOf(date: Civil): WeekKey
    requires IsDate(date)
  {
    var target := ThursdayOf(DateUtc(date));
    WeekKey(YearOf(target), 1 + RoundedWeeks(target - DateUtc(Civil(YearOf(target), 0, 4))))
  }

  // ---------- The standard ----------

  function MondayOf(day: int): int {
    day - (Weekday(day) + 6) % 7
  }

  /** The first Thursday on or after a day. */
  function ThursdayFrom(day: int): (t: int)
    ensures day <= t < day + 7 && Weekday(t) == 4
  {
    day + (4 - Weekday(day)) % 7
  }

  /** The Thursday of week 01: the first Thursday of the calendar year. */
  function FirstThursday(y: int): int {
    ThursdayFrom(NewYear(y))
  }

  /** Week `w` of week-year `y` runs Monday to Sunday; week 01 contains the first Thursday. */
  function WeekStart(y: int, w: int): int {
    FirstThursday(y) - 3 + 7 * (w - 1)
  }

  predicate InIsoWeek(day: int, key: WeekKey) {
    && 1 <= key.week && WeekStart(key.year, key.week) < WeekStart(key.year + 1, 1)
    && WeekStart(key.year, key.week) <= day < WeekStart(key.year, key.week) + 7
  }

  lemma WeekShift(day: int, k: int)
    ensures Weekday(day + 7 * k) == Weekday(day)
  {
  }

  /** A day within the seven that start on a Monday has that Monday. */
  lemma MondayIsStart(start: int, day: int)
    requires Weekday(start) == 1 && start <= day < start + 7
    ensures MondayOf(day) == start
  {
    var k := day - start;
    assert (day + 4) % 7 == (1 + k) % 7;
  }

  lemma WeeksAreMondays(y: int, w: int)
    ensures Weekday(WeekStart(y, w)) == 1
  {
    var t := FirstThursday(y);
    assert Weekday(t - 3) == 1;
    WeekShift(t - 3, w - 1);
  }

  /** Every week-year starts after the one before it by a whole number of weeks. */
  lemma {:induction false} WeekYearsOrdered(y: int, z: int)
    requires y < z
    ensures WeekStart(y, 1) < WeekStart(z, 1) && WeekStart(y + 1, 1) <= WeekStart(z, 1)
    decreases z - y
  {
    YearLength(y);
    if y + 1 < z {
      WeekYearsOrdered(y + 1, z);
    }
  }

  /** A day has only one ISO week, and it is determined by its Monday. */
  lemma IsoWeekUnique(day: int, day': int, a: WeekKey, b: WeekKey)
    requires InIsoWeek(day, a) && InIsoWeek(day', b)
    ensures a == b <==> MondayOf(day) == MondayOf(day')
  {
    WeeksAreMondays(a.year, a.week);
    WeeksAreMondays(b.year, b.week);
    MondayIsStart(WeekStart(a.year, a.week), day);
    MondayIsStart(WeekStart(b.year, b.week), day');
    if a.year < b.year {
      WeekYearsOrdered(a.year, b.year);
    } else if b.year < a.year {
      WeekYearsOrdered(b.year, a.year);
    }
  }

  // ---------- The key is the standard's ----------

  lemma ThursdayInWeek(day: int)
    ensures Weekday(ThursdayOf(day)) == 4 && Weekday(MondayOf(day)) == 1 && MondayOf(day) == ThursdayOf(day) - 3
    ensures MondayOf(day) <= day < MondayOf(day) + 7
  {
  }

  /** A Thursday lies a whole number of weeks after the first one of its year. */
  lemma ThursdayCount(t: int) returns (j: int)
    requires Weekday(t) == 4
    ensures 0 <= j && t == FirstThursday(YearOf(t)) + 7 * j
    ensures InIsoWeek(t, WeekKey(YearOf(t), 1 + j))
  {
    var y := YearOf(t);
    var f := FirstThursday(y);
    assert (t - f) % 7 == 0;
    j := (t - f) / 7;
    assert t == f + 7 * j;
    YearLength(y);
  }

  /** Counting from 4 January and rounding is counting from the first Thursday. */
  lemma RoundingFromJanuaryFourth(y: int, j: int)
    ensures RoundedWeeks(FirstThursday(y) + 7 * j - (NewYear(y) + 3)) == j
  {
    var e := FirstThursday(y) - (NewYear(y) + 3);
    assert -3 <= e <= 3;
    assert 2 * (e + 7 * j) + 7 == 14 * j + (2 * e + 7);
  }

  /** Neither the calendar year nor the week-year is one that `Date.UTC` misreads. */
  predicate ReadCorrectly(date: Civil)
    requires IsDate(date)
  {
    !TwoDigit(date.year) && !TwoDigit(YearOf(ThursdayOf(DayNumber(date))))
  }

  lemma {:induction false} MonthsFit(y: int, month: int)
    requires 0 <= month <= 11
    ensures 0 <= DaysBeforeMonth(y, month) && DaysBeforeMonth(y, month) + MonthLength(y, month) <= if Leap(y) then 366 else 365
  {
    assert DaysBeforeMonth(y, 0) == 0;
    assert DaysBeforeMonth(y, 1) == 31;
    assert DaysBeforeMonth(y, 2) == 31 + MonthLength(y, 1);
    assert DaysBeforeMonth(y, 3) == 62 + MonthLength(y, 1);
    assert DaysBeforeMonth(y, 4) == 92 + MonthLength(y, 1);
    assert DaysBeforeMonth(y, 5) == 123 + MonthLength(y, 1);
    assert DaysBeforeMonth(y, 6) == 153 + MonthLength(y, 1);
    assert DaysBeforeMonth(y, 7) == 184 + MonthLength(y, 1);
    assert DaysBeforeMonth(y, 8) == 215 + MonthLength(y, 1);
    assert DaysBeforeMonth(y, 9) == 245 + MonthLength(y, 1);
    assert DaysBeforeMonth(y, 10) == 276 + MonthLength(y, 1);
    assert DaysBeforeMonth(y, 11) == 306 + MonthLength(y, 1);
  }

  lemma NearYear(day: int, near: int)
    requires day - 7 <= near <= day + 7
    ensures YearOf(day) - 1 <= YearOf(near) <= YearOf(day) + 1
  {
    var y, z := YearOf(day), YearOf(near);
    YearLength(y - 1);
    YearLength(y);
    YearLength(y + 1);
    if z < y - 1 {
      if z + 1 < y - 1 { YearsOrdered(z + 1, y - 1); }
    } else if z > y + 1 {
      if y + 2 < z { YearsOrdered(y + 2, z); }
    }
  }

  /** The key of a Thursday's week, once the two `Date.UTC` calls are resolved. */
  function KeyFrom(t: int, januaryFourth: int): WeekKey {
    WeekKey(YearOf(t), 1 + RoundedWeeks(t - januaryFourth))
  }

  lemma ThursdayKey(t: int)
    requires Weekday(t) == 4
    ensures InIsoWeek(t, KeyFrom(t, NewYear(YearOf(t)) + 3))
  {
    var j := ThursdayCount(t);
    RoundingFromJanuaryFourth(YearOf(t), j);
  }

  /** A January read 1900 years too late makes the week number negative. */
  lemma MisreadWeekYear(t: int)
    ensures KeyFrom(t, NewYear(YearOf(t) + 1900) + 3).week < 1
  {
    YearsOrdered(YearOf(t) + 1, YearOf(t) + 1900);
  }

  lemma WeekOfThursday(day: int, key: WeekKey)
    requires InIsoWeek(ThursdayOf(day), key)
    ensures InIsoWeek(day, key)
  {
    ThursdayInWeek(day);
    var start := WeekStart(key.year, key.week);
    WeeksAreMondays(key.year, key.week);
    MondayIsStart(start, ThursdayOf(day));
    MondayIsStart(MondayOf(day), ThursdayOf(day));
  }

  /** The key is the date's ISO week exactly when neither year is between 0 and 99. */
  lemma KeyIsIsoWeek(date: Civil)
    requires IsDate(date)
    ensures InIsoWeek(DayNumber(date), KeyOf(date)) <==> ReadCorrectly(date)
  {
    if TwoDigit(date.year) {
      MisreadYear(date);
    } else {
      var day := DayNumber(date);
      var t := ThursdayOf(day);
      assert DateUtc(date) == day;
      JanuaryFourth(YearOf(t));
      if TwoDigit(YearOf(t)) {
        MisreadWeekYear(t);
      } else {
        ThursdayInWeek(day);
        ThursdayKey(t);
        WeekOfThursday(day, KeyFrom(t, NewYear(YearOf(t)) + 3));
      }
    }
  }

  lemma JanuaryFourth(y: int)
    ensures DateUtc(Civil(y, 0, 4)) == NewYear(if TwoDigit(y) then y + 1900 else y) + 3
  {
  }

  lemma MisreadYear(date: Civil)
    requires IsDate(date) && TwoDigit(date.year)
    ensures !InIsoWeek(DayNumber(date), KeyOf(date))
  {
    var key := KeyOf(date);
    var read := date.(year := 1900 + date.year);
    MonthsFit(read.year, read.month);
    MonthsFit(date.year, date.month);
    YearLength(date.year);
    // 29 February of a year 0 read as 1900 is 1 March, so the day may exceed the month by one.
    YearLength(read.year);
    YearLength(read.year + 1);
    var day := DateUtc(date);
    assert NewYear(read.year) <= day <= NewYear(read.year + 1) + 1;
    assert YearOf(day) == read.year || YearOf(day) == read.year + 1 by {
      if day < NewYear(read.year + 1) { YearUnique(day, read.year); } else { YearUnique(day, read.year + 1); }
    }
    NearYear(day, ThursdayOf(day));
    assert key.year >= read.year - 1;
    YearsOrdered(date.year + 1, key.year);
    assert DayNumber(date) < NewYear(date.year + 1) < WeekStart(key.year, 1);
  }

  // ---------- The key as text ----------

  function Digits(n: nat): string {
    if n < 10 then [Digit(n)] else Digits(n / 10) + [Digit(n % 10)]
  }

  function Digit(n: nat): (c: char)
    requires n < 10
    ensures '0' <= c <= '9'
  {
    '0' + n as char
  }

  function Year(y: int): string {
    if y < 0 then "-" + Digits(-y) else Digits(y)
  }

  /** `${year}-W${week}` with the week padded to two digits. */
  function Format(key: WeekKey): string
    requires 0 <= key.week
  {
    Year(key.year) + "-W" + if key.week < 10 then "0" + Digits(key.week) else Digits(key.week)
  }

  lemma {:induction false} DigitsInjective(a: nat, b: nat)
    requires Digits(a) == Digits(b)
    ensures a == b
  {
    DigitsNonEmpty(a);
    DigitsNonEmpty(b);
    if a >= 10 && b >= 10 {
      var x, y := Digits(a / 10), Digits(b / 10);
      assert Digits(a)[..|Digits(a)| - 1] == x && Digits(b)[..|Digits(b)| - 1] == y;
      DigitsInjective(a / 10, b / 10);
      assert Digits(a)[|x|] == Digit(a % 10) && Digits(b)[|y|] == Digit(b % 10);
      assert Digit(a % 10) as int == '0' as int + a % 10 && Digit(b % 10) as int == '0' as int + b % 10;
      assert a == a / 10 * 10 + a % 10 && b == b / 10 * 10 + b % 10;
    } else if a < 10 && b < 10 {
      assert Digit(a) == Digits(a)[0] == Digits(b)[0] == Digit(b);
    }
  }

  lemma {:induction false} DigitsNonEmpty(n: nat)
    ensures |Digits(n)| >= (if n < 10 then 1 else 2) && '0' <= Digits(n)[0] <= '9'
    ensures n < 10 ==> |Digits(n)| == 1
    ensures 10 <= n < 100 ==> |Digits(n)| == 2
  {
    if n >= 10 {
      DigitsNonEmpty(n / 10);
    }
  }

  lemma FormatInjective(a: WeekKey, b: WeekKey)
    requires 0 <= a.week < 100 && 0 <= b.week < 100 && Format(a) == Format(b)
    ensures a == b
  {
    DigitsNonEmpty(a.week);
    DigitsNonEmpty(b.week);
    TwoDigitsLead(a.week);
    TwoDigitsLead(b.week);
    var n := |Format(a)|;
    var wa := if a.week < 10 then "0" + Digits(a.week) else Digits(a.week);
    var wb := if b.week < 10 then "0" + Digits(b.week) else Digits(b.week);
    assert Format(a)[n - 2..] == wa && Format(b)[n - 2..] == wb;
    assert Format(a)[..n - 4] == Year(a.year) && Format(b)[..n - 4] == Year(b.year);
    DigitsInjective(a.week, b.week) by {
      if a.week < 10 && b.week < 10 {
        assert wa[1..] == Digits(a.week) && wb[1..] == Digits(b.week);
      }
    }
    YearInjective(a.year, b.year);
  }

  /** A two-digit number does not start with a zero. */
  lemma TwoDigitsLead(n: nat)
    ensures 10 <= n < 100 ==> Digits(n) != "" && Digits(n)[0] != '0'
  {
    if 10 <= n < 100 {
      assert Digits(n) == Digits(n / 10) + [Digit(n % 10)];
      assert Digits(n)[0] == Digit(n / 10);
    }
  }

  lemma YearSign(y: int)
    ensures Year(y) != "" && (Year(y)[0] == '-' <==> y < 0)
  {
    DigitsNonEmpty(if y < 0 then -y else y);
  }

  lemma YearInjective(y: int, z: int)
    requires Year(y) == Year(z)
    ensures y == z
  {
    YearSign(y);
    YearSign(z);
    if y < 0 {
      assert Year(y)[1..] == Digits(-y) && Year(z)[1..] == Digits(-z);
      DigitsInjective(-y, -z);
    } else {
      DigitsInjective(y, z);
    }
  }

  lemma WeekNumberFits(day: int, key: WeekKey)
    requires InIsoWeek(day, key)
    ensures 1 <= key.week <= 53
  {
    YearLength(key.year);
    var t, u := FirstThursday(key.year), FirstThursday(key.year + 1);
    WholeWeeks(t, u);
  }

  lemma WholeWeeks(t: int, u: int)
    requires Weekday(t) == Weekday(u) && u - t <= 372
    ensures u - t <= 371
  {
    assert (u - t) % 7 == 0;
  }

  /** Dedupe keys coincide exactly for dates of the same Monday-to-Sunday week. */
  lemma SameKeyIffSameWeek(a: Civil, b: Civil)
    requires IsDate(a) && IsDate(b) && ReadCorrectly(a) && ReadCorrectly(b)
    ensures KeyOf(a).week >= 0 && KeyOf(b).week >= 0
    ensures Format(KeyOf(a)) == Format(KeyOf(b)) <==> MondayOf(DayNumber(a)) == MondayOf(DayNumber(b))
  {
    KeyIsIsoWeek(a);
    KeyIsIsoWeek(b);
    IsoWeekUnique(DayNumber(a), DayNumber(b), KeyOf(a), KeyOf(b));
    WeekNumberFits(DayNumber(a), KeyOf(a));
    WeekNumberFits(DayNumber(b), KeyOf(b));
    if Format(KeyOf(a)) == Format(KeyOf(b)) {
      FormatInjective(KeyOf(a), KeyOf(b));
    }
  }
}
