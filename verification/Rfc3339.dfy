/** The timestamps of section 5.6 of RFC 3339 as package time prints and reads them, and why comparing them as
    text (section 5.1) compares instants. */
module Rfc3339 {
  import opened Text
  import opened Calendar
  import opened Options

  // ---------- printing ----------

  /** "Z", or the sign, the hours and the minutes of the offset; odd seconds are cut off. */
  function Zone(offset: int): string {
    if offset == 0 then "Z"
    else
      var minutes := (if offset < 0 then -offset else offset) / 60;
      [if offset < 0 then '-' else '+'] + (Two(minutes / 60) + ([':'] + Two(minutes % 60)))
  }

  function FromSecond(c: Clock, zone: string): string { Two(c.second) + zone }
  function FromMinute(c: Clock, zone: string): string { Two(c.minute) + ([':'] + FromSecond(c, zone)) }
  function FromHour(c: Clock, zone: string): string { Two(c.hour) + ([':'] + FromMinute(c, zone)) }
  function FromDay(c: Clock, zone: string): string { Two(c.date.day) + (['T'] + FromHour(c, zone)) }
  function FromMonth(c: Clock, zone: string): string { Two(c.date.month) + (['-'] + FromDay(c, zone)) }

  /** 2006-01-02T15:04:05 followed by the zone; the year must have at most four digits. */
  function Printed(c: Clock, zone: string): string {
    Padded(if c.date.year < 0 then 0 else c.date.year, 4) + (['-'] + FromMonth(c, zone))
  }

  function Format(time: int, offset: int): string { Printed(ClockAt(time, offset), Zone(offset)) }

  /** From the first second of year 0 to the last of year 9999. */
  predicate FourDigitYear(time: int, offset: int) { -62_167_219_200 <= LocalSecond(time, offset) < 253_402_300_800 }

  lemma FourDigitYearIsRight(time: int, offset: int)
    ensures FourDigitYear(time, offset) <==> 0 <= ClockAt(time, offset).date.year < 10000
  {
    hide DateOf;
    var day := LocalSecond(time, offset) / 86_400;
    FourDigitYears(day + EPOCH_DAY);
    assert -719_528 <= day < 2_932_897 <==> FourDigitYear(time, offset);
  }

  // ---------- text order ----------

  /** The byte order of the store's sort key. */
  predicate TextLess(a: string, b: string) {
    b != [] && (a == [] || a[0] < b[0] || (a[0] == b[0] && TextLess(a[1..], b[1..])))
  }

  lemma {:induction false} TextLessIsStrict(a: string, b: string)
    ensures !(TextLess(a, b) && TextLess(b, a))
    ensures a != b <==> TextLess(a, b) || TextLess(b, a)
  {
    if a != [] && b != [] && a[0] == b[0] {
      TextLessIsStrict(a[1..], b[1..]);
      assert a == [a[0]] + a[1..] && b == [b[0]] + b[1..];
    }
  }

  lemma {:induction false} TextLessIsTransitive(a: string, b: string, c: string)
    requires TextLess(a, b) && TextLess(b, c)
    ensures TextLess(a, c)
  {
    if a != [] && a[0] == b[0] && b[0] == c[0] { TextLessIsTransitive(a[1..], b[1..], c[1..]); }
  }

  /** Texts of equal length decide the comparison of what follows them, unless they are equal. */
  lemma {:induction false} CompareHeads(p: string, x: string, q: string, y: string)
    requires |p| == |q|
    ensures TextLess(p + x, q + y) <==> TextLess(p, q) || (p == q && TextLess(x, y))
  {
    if p == [] {
      assert p + x == x && q + y == y;
    } else {
      assert (p + x)[1..] == p[1..] + x && (q + y)[1..] == q[1..] + y;
      CompareHeads(p[1..], x, q[1..], y);
      assert p == [p[0]] + p[1..] && q == [q[0]] + q[1..];
    }
  }

  /** Digits of equal length compare as the numbers they stand for. */
  lemma {:induction false} CompareDigits(p: string, q: string)
    requires |p| == |q| && AllDigits(p) && AllDigits(q)
    ensures TextLess(p, q) <==> ValueOf(p) < ValueOf(q)
    ensures p == q <==> ValueOf(p) == ValueOf(q)
  {
    if p != [] {
      var n := |p| - 1;
      assert p == p[..n] + [p[n]] && q == q[..n] + [q[n]];
      CompareDigits(p[..n], q[..n]);
      CompareHeads(p[..n], [p[n]], q[..n], [q[n]]);
    }
  }

  lemma CompareField(m: nat, n: nat, width: nat, separator: char, x: string, y: string)
    requires (width == 2 && m < 100 && n < 100) || (width == 4 && m < 10000 && n < 10000)
    ensures TextLess(Padded(m, width) + ([separator] + x), Padded(n, width) + ([separator] + y))
            <==> m < n || (m == n && TextLess(x, y))
  {
    hide Padded, TextLess;
    PaddedLength(m, width);
    PaddedLength(n, width);
    ValueOfPadded(m, width);
    ValueOfPadded(n, width);
    CompareDigits(Padded(m, width), Padded(n, width));
    CompareHeads(Padded(m, width), [separator] + x, Padded(n, width), [separator] + y);
    CompareHeads([separator], x, [separator], y);
    TextLessIsStrict([separator], [separator]);
  }

  lemma CompareSeconds(m: nat, n: nat, x: string, y: string)
    requires m < 60 && n < 60
    ensures TextLess(Two(m) + x, Two(n) + y) <==> m < n || (m == n && TextLess(x, y))
  {
    hide Padded, TextLess;
    PaddedLength(m, 2);
    PaddedLength(n, 2);
    ValueOfPadded(m, 2);
    ValueOfPadded(n, 2);
    CompareDigits(Two(m), Two(n));
    CompareHeads(Two(m), x, Two(n), y);
  }

  // ---------- timestamps compare as local time ----------

  predicate InDay(c: Clock) { 0 <= c.hour < 24 && 0 <= c.minute < 60 && 0 <= c.second < 60 }

  predicate OfDayLess(c: Clock, d: Clock) {
    c.hour < d.hour || (c.hour == d.hour && (c.minute < d.minute || (c.minute == d.minute && c.second < d.second)))
  }

  predicate ClockLess(c: Clock, d: Clock) { DateLess(c.date, d.date) || (c.date == d.date && OfDayLess(c, d)) }

  lemma MonthsAreShort(leap: bool, month: int)
    ensures MonthLength(leap, month) <= 31
  {
  }

  lemma CompareTimes(c: Clock, x: string, d: Clock, y: string)
    requires InDay(c) && InDay(d)
    ensures TextLess(FromHour(c, x), FromHour(d, y))
            <==> OfDayLess(c, d) || (c.hour == d.hour && c.minute == d.minute && c.second == d.second && TextLess(x, y))
  {
    hide TextLess, Padded;
    CompareField(c.hour, d.hour, 2, ':', FromMinute(c, x), FromMinute(d, y));
    CompareField(c.minute, d.minute, 2, ':', FromSecond(c, x), FromSecond(d, y));
    CompareSeconds(c.second, d.second, x, y);
  }

  lemma ComparePrinted(c: Clock, x: string, d: Clock, y: string)
    requires Valid(c.date) && Valid(d.date) && InDay(c) && InDay(d)
    requires 0 <= c.date.year < 10000 && 0 <= d.date.year < 10000
    ensures TextLess(Printed(c, x), Printed(d, y)) <==> ClockLess(c, d) || (c == d && TextLess(x, y))
  {
    hide TextLess, Padded, FromHour, OfDayLess, MonthLength;
    MonthsAreShort(Leap(c.date.year), c.date.month);
    MonthsAreShort(Leap(d.date.year), d.date.month);
    CompareField(c.date.year, d.date.year, 4, '-', FromMonth(c, x), FromMonth(d, y));
    CompareField(c.date.month, d.date.month, 2, '-', FromDay(c, x), FromDay(d, y));
    CompareField(c.date.day, d.date.day, 2, 'T', FromHour(c, x), FromHour(d, y));
    CompareTimes(c, x, d, y);
  }

  /** A wall clock is in order, and is behind another exactly when its local second is. */
  lemma ClockOrder(s: int, offset: int, t: int, offset': int)
    ensures var c, d := ClockAt(s, offset), ClockAt(t, offset');
      && Valid(c.date) && InDay(c)
      && (ClockLess(c, d) <==> LocalSecond(s, offset) < LocalSecond(t, offset'))
      && (c == d <==> LocalSecond(s, offset) == LocalSecond(t, offset'))
  {
    hide DateLess, DateOf;
    var x, y := LocalSecond(s, offset), LocalSecond(t, offset');
    DateOfIsRight(x / 86_400 + EPOCH_DAY);
    DateOrder(x / 86_400 + EPOCH_DAY, y / 86_400 + EPOCH_DAY);
    SecondSplit(x);
    SecondSplit(y);
  }

  lemma SecondSplit(x: int)
    ensures x == 86_400 * (x / 86_400) + 3600 * (x % 86_400 / 3600) + 60 * (x % 86_400 % 3600 / 60) + x % 86_400 % 60
    ensures 0 <= x % 86_400 / 3600 < 24 && 0 <= x % 86_400 % 3600 / 60 < 60 && 0 <= x % 86_400 % 60 < 60
  {
    assert x % 86_400 % 3600 % 60 == x % 86_400 % 60;
  }

  /** The text of two timestamps compares as their local seconds do; between equal local seconds the zone decides. */
  lemma TextOrderIsLocalOrder(s: int, offset: int, t: int, offset': int)
    requires FourDigitYear(s, offset) && FourDigitYear(t, offset')
    ensures TextLess(Format(s, offset), Format(t, offset'))
            <==> LocalSecond(s, offset) < LocalSecond(t, offset')
                 || (LocalSecond(s, offset) == LocalSecond(t, offset') && TextLess(Zone(offset), Zone(offset')))
  {
    hide Printed, Zone, TextLess;
    ClockOrder(s, offset, t, offset');
    ClockOrder(t, offset', s, offset);
    FourDigitYearIsRight(s, offset);
    FourDigitYearIsRight(t, offset');
    ComparePrinted(ClockAt(s, offset), Zone(offset), ClockAt(t, offset'), Zone(offset'));
  }

  /** With one offset, timestamps compare as text exactly as their whole seconds do. */
  lemma TextOrderIsTimeOrder(s: int, t: int, offset: int)
    requires FourDigitYear(s, offset) && FourDigitYear(t, offset)
    ensures TextLess(Format(s, offset), Format(t, offset)) <==> s / 1000 < t / 1000
    ensures Format(s, offset) == Format(t, offset) <==> s / 1000 == t / 1000
  {
    hide Format, Zone, TextLess;
    TextOrderIsLocalOrder(s, offset, t, offset);
    TextOrderIsLocalOrder(t, offset, s, offset);
    TextLessIsStrict(Format(s, offset), Format(t, offset));
    TextLessIsStrict(Zone(offset), Zone(offset));
  }

  // ---------- reading ----------

  /** A number of fixed width and the separator after it, cut off the front. */
  function Field(s: string, width: nat, separator: char): Option<(nat, string)> {
    if |s| > width && AllDigits(s[..width]) && s[width] == separator
    then Some((ValueOf(s[..width]), s[width + 1..]))
    else None
  }

  /** The offset in seconds. Hours up to 24 and minutes up to 60 are let through. */
  function ParseZone(s: string): Option<int> {
    if s == "Z" then Some(0)
    else if |s| != 6 || s[0] !in "+-" || !AllDigits(s[4..]) then None
    else
      var (hours, rest) :- Field(s[1..], 2, ':');
      var seconds := 3600 * hours + 60 * ValueOf(s[4..]);
      if hours > 24 || ValueOf(s[4..]) > 60 then None else Some(if s[0] == '-' then -seconds else seconds)
  }

  function ParseClock(s: string): Option<(Clock, string)> {
    var (year, s1) :- Field(s, 4, '-');
    var (month, s2) :- Field(s1, 2, '-');
    var (day, s3) :- Field(s2, 2, 'T');
    var (hour, s4) :- Field(s3, 2, ':');
    var (minute, s5) :- Field(s4, 2, ':');
    if |s5| < 2 || !AllDigits(s5[..2]) then None
    else Some((Clock(Date(year, month, day), hour, minute, ValueOf(s5[..2])), s5[2..]))
  }

  /** The instant in milliseconds and the offset it was written in, for texts of exactly the printed layout. */
  function Parse(s: string): Option<(int, int)> {
    var (c, zone) :- ParseClock(s);
    var offset :- ParseZone(zone);
    if !Valid(c.date) || !InDay(c) then None
    else Some((1000 * (86_400 * (DayNumber(c.date) - EPOCH_DAY) + 3600 * c.hour + 60 * c.minute + c.second - offset),
      offset))
  }

  lemma FieldOf(n: nat, width: nat, separator: char, x: string)
    requires (width == 2 && n < 100) || (width == 4 && n < 10000)
    ensures Field(Padded(n, width) + ([separator] + x), width, separator) == Some((n, x))
  {
    hide Padded;
    PaddedLength(n, width);
    ValueOfPadded(n, width);
    var s := Padded(n, width) + ([separator] + x);
    assert s[..width] == Padded(n, width) && s[width + 1..] == x;
  }

  lemma ParseClockOf(c: Clock, zone: string)
    requires Valid(c.date) && InDay(c) && 0 <= c.date.year < 10000
    ensures ParseClock(Printed(c, zone)) == Some((c, zone))
  {
    hide Padded, MonthLength, Field;
    MonthsAreShort(Leap(c.date.year), c.date.month);
    FieldOf(c.date.year, 4, '-', FromMonth(c, zone));
    FieldOf(c.date.month, 2, '-', FromDay(c, zone));
    FieldOf(c.date.day, 2, 'T', FromHour(c, zone));
    FieldOf(c.hour, 2, ':', FromMinute(c, zone));
    FieldOf(c.minute, 2, ':', FromSecond(c, zone));
    PaddedLength(c.second, 2);
    ValueOfPadded(c.second, 2);
    var s := FromSecond(c, zone);
    assert s[..2] == Two(c.second) && s[2..] == zone;
  }

  lemma {:induction false} ValueIsShort(s: string)
    requires AllDigits(s) && |s| <= 4
    ensures |s| <= 1 ==> ValueOf(s) < 10
    ensures |s| <= 2 ==> ValueOf(s) < 100
    ensures |s| <= 3 ==> ValueOf(s) < 1000
    ensures ValueOf(s) < 10000
  {
    if s != [] { ValueIsShort(s[..|s| - 1]); }
  }

  /** What Field reads is what Padded prints. */
  lemma FieldIs(s: string, width: nat, separator: char)
    requires (width == 2 || width == 4) && Field(s, width, separator).Some?
    ensures var (n, x) := Field(s, width, separator).value;
      (width == 2 ==> n < 100) && n < 10000 && s == Padded(n, width) + ([separator] + x)
  {
    hide Padded;
    var n := ValueOf(s[..width]);
    ValueIsShort(s[..width]);
    PaddedLength(n, width);
    ValueOfPadded(n, width);
    CompareDigits(s[..width], Padded(n, width));
    assert s == s[..width] + ([separator] + s[width + 1..]);
  }

  lemma ParseClockIs(s: string)
    requires ParseClock(s).Some?
    ensures var (c, zone) := ParseClock(s).value; s == Printed(c, zone) && 0 <= c.date.year < 10000
  {
    hide Padded, Field;
    var (year, s1) := Field(s, 4, '-').value;
    var (month, s2) := Field(s1, 2, '-').value;
    var (day, s3) := Field(s2, 2, 'T').value;
    var (hour, s4) := Field(s3, 2, ':').value;
    var (minute, s5) := Field(s4, 2, ':').value;
    FieldIs(s, 4, '-');
    FieldIs(s1, 2, '-');
    FieldIs(s2, 2, 'T');
    FieldIs(s3, 2, ':');
    FieldIs(s4, 2, ':');
    var second := ValueOf(s5[..2]);
    ValueIsShort(s5[..2]);
    PaddedLength(second, 2);
    ValueOfPadded(second, 2);
    CompareDigits(s5[..2], Padded(second, 2));
    assert s5 == s5[..2] + s5[2..];
  }

  /** The text shows a date of the calendar in a year of four digits, a time of the day and a zone. */
  ghost predicate Shows(s: string, c: Clock, zone: string) {
    s == Printed(c, zone) && Valid(c.date) && InDay(c) && 0 <= c.date.year < 10000 && ParseZone(zone).Some?
  }

  /** Exactly the texts of that layout are read, each as its clock at its zone. */
  lemma ParsesExactlyStamps(s: string)
    ensures Parse(s).Some? <==> exists c, zone :: Shows(s, c, zone)
    ensures forall c, zone :: Shows(s, c, zone) ==>
      var offset := ParseZone(zone).value;
      Parse(s) == Some((1000 * (86_400 * (DayNumber(c.date) - EPOCH_DAY) + 3600 * c.hour + 60 * c.minute + c.second
                                - offset), offset))
  {
    hide Printed, ParseClock, ParseZone, DayNumber, MonthLength, Leap;
    if Parse(s).Some? {
      var (c, zone) := ParseClock(s).value;
      ParseClockIs(s);
      assert Shows(s, c, zone);
    }
    forall c, zone | Shows(s, c, zone) ensures ParseClock(s) == Some((c, zone)) { ParseClockOf(c, zone); }
  }

  /** The zones read: Z, or a sign, up to 24 hours and up to 60 minutes. */
  lemma ParsesExactlyZones(s: string)
    ensures ParseZone(s).Some? <==>
      s == "Z" || (|s| == 6 && s[0] in "+-" && AllDigits(s[1..3]) && s[3] == ':' && AllDigits(s[4..])
                   && ValueOf(s[1..3]) <= 24 && ValueOf(s[4..]) <= 60)
    ensures ParseZone(s).Some? && s != "Z" ==>
      var seconds := 3600 * ValueOf(s[1..3]) + 60 * ValueOf(s[4..]);
      ParseZone(s).value == if s[0] == '-' then -seconds else seconds
  {
    if |s| == 6 { assert s[1..][..2] == s[1..3] && s[1..][2] == s[3]; }
  }

  /** Offsets of whole minutes, up to a day. */
  predicate PlainOffset(offset: int) { offset % 60 == 0 && -86_400 <= offset <= 86_400 }

  lemma ParseZoneOf(offset: int)
    requires PlainOffset(offset)
    ensures ParseZone(Zone(offset)) == Some(offset)
  {
    hide Padded;
    if offset != 0 {
      var minutes := (if offset < 0 then -offset else offset) / 60;
      var s := Zone(offset);
      FieldOf(minutes / 60, 2, ':', Two(minutes % 60));
      PaddedLength(minutes / 60, 2);
      PaddedLength(minutes % 60, 2);
      ValueOfPadded(minutes % 60, 2);
      assert s[1..] == Two(minutes / 60) + ([':'] + Two(minutes % 60));
      assert s[4..] == Two(minutes % 60);
    }
  }

  /** Reading back what was printed gives the whole second of the instant, and the offset. */
  lemma FormatRoundTrip(time: int, offset: int)
    requires FourDigitYear(time, offset) && PlainOffset(offset)
    ensures Parse(Format(time, offset)) == Some((1000 * (time / 1000), offset))
  {
    hide Printed, ParseClock, ParseZone, Zone, DateOf, DayNumber;
    var x := LocalSecond(time, offset);
    DateOfIsRight(x / 86_400 + EPOCH_DAY);
    SecondSplit(x);
    FourDigitYearIsRight(time, offset);
    ParseClockOf(ClockAt(time, offset), Zone(offset));
    ParseZoneOf(offset);
  }
}
