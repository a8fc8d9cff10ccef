/** The proleptic Gregorian calendar: from a day count to year, month and day and back. Day 0 is 1 January of
    year 1; years and days may be negative. */
module Calendar {

  datatype Date = Date(year: int, month: int, day: int)

  predicate Leap(year: int) { year % 4 == 0 && (year % 100 != 0 || year % 400 == 0) }

  function YearLength(year: int): int { if Leap(year) then 366 else 365 }

  /** Days before 1 January of the year. */
  function DaysBeforeYear(year: int): int {
    var q := year - 1;
    365 * q + q / 4 - q / 100 + q / 400
  }

  function MonthLength(leap: bool, month: int): int {
    if month == 2 then (if leap then 29 else 28)
    else if month == 4 || month == 6 || month == 9 || month == 11 then 30
    else 31
  }

  /** Days of the year before the first of the month. */
  function DaysBeforeMonth(leap: bool, month: int): int
    requires 1 <= month <= 12
    decreases month
  {
    if month == 1 then 0 else DaysBeforeMonth(leap, month - 1) + MonthLength(leap, month - 1)
  }

  predicate Valid(d: Date) { 1 <= d.month <= 12 && 1 <= d.day <= MonthLength(Leap(d.year), d.month) }

  /** The day count of a date. */
  function DayNumber(d: Date): int
    requires 1 <= d.month <= 12
  {
    DaysBeforeYear(d.year) + DaysBeforeMonth(Leap(d.year), d.month) + d.day - 1
  }

  // ---------- breaking a day count down, as package time does ----------

  /** Year and zero-based day of the year, by 400, 100, 4 and 1 year cycles; the last century of a 400 year
      cycle and the last year of a 4 year cycle are one day longer. */
  function YearAndDay(n: int): (int, int) {
    var n400 := n / 146097;
    var d400 := n % 146097;
    var q100 := d400 / 36524;
    var n100 := q100 - q100 / 4;
    var d100 := d400 - 36524 * n100;
    var n4 := d100 / 1461;
    var d4 := d100 % 1461;
    var q1 := d4 / 365;
    var n1 := q1 - q1 / 4;
    (400 * n400 + 100 * n100 + 4 * n4 + n1 + 1, d4 - 365 * n1)
  }

  /** The month that the zero-based day of the year falls in, searching from `month`. */
  function MonthFrom(leap: bool, yearDay: int, month: int): (m: int)
    requires 1 <= month <= 12 && DaysBeforeMonth(leap, month) <= yearDay < (if leap then 366 else 365)
    ensures month <= m <= 12
    ensures DaysBeforeMonth(leap, m) <= yearDay < DaysBeforeMonth(leap, m) + MonthLength(leap, m)
    decreases 12 - month
  {
    if yearDay < DaysBeforeMonth(leap, month) + MonthLength(leap, month) then month
    else
      assert month == 12 ==> yearDay >= (if leap then 366 else 365) by { MonthTable(leap); }
      MonthFrom(leap, yearDay, month + 1)
  }

  function DateOf(n: int): Date {
    var (year, yearDay) := YearAndDay(n);
    YearAndDayAreRight(n);
    var month := MonthFrom(Leap(year), yearDay, 1);
    Date(year, month, yearDay - DaysBeforeMonth(Leap(year), month) + 1)
  }

  lemma MonthTable(leap: bool)
    ensures DaysBeforeMonth(leap, 12) == if leap then 335 else 334
  {
    assert DaysBeforeMonth(leap, 4) == if leap then 91 else 90;
    assert DaysBeforeMonth(leap, 7) == if leap then 182 else 181;
    assert DaysBeforeMonth(leap, 10) == if leap then 274 else 273;
  }

  /** The year formula on a year given by its cycles. */
  lemma DaysBeforeCycles(a: int, b: int, c: int, e: int)
    requires 0 <= b <= 3 && 0 <= c <= 24 && 0 <= e <= 3
    ensures DaysBeforeYear(400 * a + 100 * b + 4 * c + e + 1) == 146097 * a + 36524 * b + 1461 * c + 365 * e
    ensures Leap(400 * a + 100 * b + 4 * c + e + 1) <==> e == 3 && (c != 24 || b == 3)
  {
    var q := 400 * a + 100 * b + 4 * c + e;
    assert q / 4 == 100 * a + 25 * b + c;
    assert q / 100 == 4 * a + b;
    assert q / 400 == a;
    LeapCycles(a, b, c, e);
  }

  lemma Remainder4(q: int, r: int)
    requires 0 <= r < 4
    ensures (4 * q + r) % 4 == r
  {
  }

  lemma Remainder100(q: int, r: int)
    requires 0 <= r < 100
    ensures (100 * q + r) % 100 == r
  {
  }

  lemma Remainder400(q: int, r: int)
    requires 0 <= r < 400
    ensures (400 * q + r) % 400 == r
  {
  }

  lemma LeapCycles(a: int, b: int, c: int, e: int)
    requires 0 <= b <= 3 && 0 <= c <= 24 && 0 <= e <= 3
    ensures Leap(400 * a + 100 * b + 4 * c + e + 1) <==> e == 3 && (c != 24 || b == 3)
  {
    var y := 400 * a + 100 * b + 4 * c + e + 1;
    if e < 3 {
      Remainder4(100 * a + 25 * b + c, e + 1);
      assert y == 4 * (100 * a + 25 * b + c) + (e + 1);
    } else {
      Remainder4(100 * a + 25 * b + c + 1, 0);
      assert y == 4 * (100 * a + 25 * b + c + 1) + 0;
      if c < 24 {
        Remainder100(4 * a + b, 4 * c + 4);
        assert y == 100 * (4 * a + b) + (4 * c + 4);
      } else if b < 3 {
        Remainder100(4 * a + b + 1, 0);
        Remainder400(a, 100 * (b + 1));
        assert y == 100 * (4 * a + b + 1) + 0 && y == 400 * a + 100 * (b + 1);
      } else {
        Remainder400(a + 1, 0);
        assert y == 400 * (a + 1) + 0;
      }
    }
  }

  lemma YearAndDayAreRight(n: int)
    ensures var (year, yearDay) := YearAndDay(n);
      DaysBeforeYear(year) + yearDay == n && 0 <= yearDay < YearLength(year)
  {
    var a, d400 := n / 146097, n % 146097;
    var q100 := d400 / 36524;
    var b := q100 - q100 / 4;
    var d100 := d400 - 36524 * b;
    assert 0 <= q100 <= 4 && 0 <= b <= 3 && 0 <= d100 <= 36524 && (b != 3 ==> d100 < 36524);
    var c, d4 := d100 / 1461, d100 % 1461;
    assert 0 <= c <= 24;
    var q1 := d4 / 365;
    var e := q1 - q1 / 4;
    assert 0 <= q1 <= 4 && 0 <= e <= 3;
    var yearDay := d4 - 365 * e;
    assert 0 <= yearDay <= 365 && (e != 3 ==> yearDay < 365);
    assert c == 24 && b != 3 ==> d4 < 1460;
    DaysBeforeCycles(a, b, c, e);
  }

  /** The breakdown is right: the date of a day count is valid and counts that many days. */
  lemma DateOfIsRight(n: int)
    ensures Valid(DateOf(n)) && DayNumber(DateOf(n)) == n
  {
    YearAndDayAreRight(n);
  }

  // ---------- order ----------

  predicate DateLess(a: Date, b: Date) {
    a.year < b.year || (a.year == b.year && (a.month < b.month || (a.month == b.month && a.day < b.day)))
  }

  lemma {:induction false} YearsAdvance(y: int, z: int)
    requires y < z
    ensures DaysBeforeYear(y) + YearLength(y) <= DaysBeforeYear(z)
    decreases z - y
  {
    NextYear(z - 1);
    if y < z - 1 { YearsAdvance(y, z - 1); }
  }

  lemma NextYear(y: int)
    ensures DaysBeforeYear(y + 1) == DaysBeforeYear(y) + YearLength(y)
  {
    var q := y - 1;
    var a, r := q / 400, q % 400;
    var b, t := r / 100, r % 100;
    var c, e := t / 4, t % 4;
    assert y == 400 * a + 100 * b + 4 * c + e + 1;
    DaysBeforeCycles(a, b, c, e);
    if e < 3 { DaysBeforeCycles(a, b, c, e + 1); }
    else if c < 24 { DaysBeforeCycles(a, b, c + 1, 0); }
    else if b < 3 { DaysBeforeCycles(a, b + 1, 0, 0); }
    else { DaysBeforeCycles(a + 1, 0, 0, 0); }
  }

  lemma {:induction false} MonthsAdvance(leap: bool, m: int, k: int)
    requires 1 <= m < k <= 12
    ensures DaysBeforeMonth(leap, m) + MonthLength(leap, m) <= DaysBeforeMonth(leap, k)
    decreases k - m
  {
    if m < k - 1 { MonthsAdvance(leap, m, k - 1); }
  }

  lemma DayInYear(d: Date)
    requires Valid(d)
    ensures 0 <= DayNumber(d) - DaysBeforeYear(d.year) < YearLength(d.year)
  {
    MonthTable(Leap(d.year));
    if d.month < 12 { MonthsAdvance(Leap(d.year), d.month, 12); }
    if d.month > 1 { MonthsAdvance(Leap(d.year), 1, d.month); }
  }

  lemma DayNumberIncreases(a: Date, b: Date)
    requires Valid(a) && Valid(b) && DateLess(a, b)
    ensures DayNumber(a) < DayNumber(b)
  {
    DayInYear(a);
    DayInYear(b);
    if a.year < b.year { YearsAdvance(a.year, b.year); }
    else if a.month < b.month { MonthsAdvance(Leap(a.year), a.month, b.month); }
  }

  /** Dates compare as their day counts do. */
  lemma DateOrder(m: int, n: int)
    ensures m < n <==> DateLess(DateOf(m), DateOf(n))
    ensures m == n <==> DateOf(m) == DateOf(n)
  {
    DateOfIsRight(m);
    DateOfIsRight(n);
    if DateLess(DateOf(m), DateOf(n)) { DayNumberIncreases(DateOf(m), DateOf(n)); }
    if DateLess(DateOf(n), DateOf(m)) { DayNumberIncreases(DateOf(n), DateOf(m)); }
  }

  /** The years 0 to 9999, by their first and last day. */
  lemma FourDigitYears(n: int)
    ensures 0 <= DateOf(n).year < 10000 <==> -366 <= n < 3_652_059
  {
    YearAndDayAreRight(n);
    var year := YearAndDay(n).0;
    assert DaysBeforeYear(0) == -366 && DaysBeforeYear(10000) == 3_652_059;
    if year < 0 { YearsAdvance(year, 0); }
    if 0 < year { YearsAdvance(0, year); }
    if year < 10000 { YearsAdvance(year, 10000); }
    if 10000 < year { YearsAdvance(10000, year); }
  }

  // ---------- instants ----------

  const EPOCH_DAY := 719_162   // 1 January 1970

  /** What a wall clock shows. */
  datatype Clock = Clock(date: Date, hour: int, minute: int, second: int)

  /** The wall clock at a Unix time in milliseconds, in a zone the given number of seconds ahead of UTC. */
  function LocalSecond(time: int, offset: int): int { time / 1000 + offset }

  function ClockAt(time: int, offset: int): Clock {
    var local := LocalSecond(time, offset);
    var ofDay := local % 86_400;
    Clock(DateOf(local / 86_400 + EPOCH_DAY), ofDay / 3600, ofDay % 3600 / 60, ofDay % 60)
  }

  /** Two instants show the same year, month, day, hour and minute exactly in the same local minute. */
  lemma SameMinute(s: int, t: int, offset: int, offset': int)
    ensures var a, b := ClockAt(s, offset), ClockAt(t, offset');
      (a.date == b.date && a.hour == b.hour && a.minute == b.minute)
      <==> LocalSecond(s, offset) / 60 == LocalSecond(t, offset') / 60
  {
    var x, y := LocalSecond(s, offset), LocalSecond(t, offset');
    DateOrder(x / 86_400 + EPOCH_DAY, y / 86_400 + EPOCH_DAY);
    MinuteSplit(x);
    MinuteSplit(y);
  }

  lemma MinuteSplit(x: int)
    ensures x / 60 == 1440 * (x / 86_400) + 60 * (x % 86_400 / 3600) + x % 86_400 % 3600 / 60
    ensures 0 <= x % 86_400 / 3600 < 24 && 0 <= x % 86_400 % 3600 / 60 < 60
  {
  }
}
