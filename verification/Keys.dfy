/** The Redis keys of the scheduler and the cache key of a workflow: text built from fields, read back in one
    way only. */
module Keys {
  import opened Text
  import opened Calendar

  /** %04d, which counts the sign of a negative year among the four. */
  function Year4(year: int): string { if year < 0 then "-" + Padded(-year, 3) else Padded(year, 4) }

  lemma Year4Injective(m: int, n: int)
    ensures ':' !in Year4(m)
    ensures Year4(m) == Year4(n) ==> m == n
  {
    var a, b := if m < 0 then -m else m, if n < 0 then -n else n;
    var v, w := if m < 0 then 3 else 4, if n < 0 then 3 else 4;
    ValueOfPadded(a, v);
    ValueOfPadded(b, w);
    assert m < 0 ==> Year4(m)[1..] == Padded(a, v);
    assert n < 0 ==> Year4(n)[1..] == Padded(b, w);
    assert IsDigit(Padded(a, v)[0]) && IsDigit(Padded(b, w)[0]);
  }

  lemma TwoInjective(m: nat, n: nat)
    ensures ':' !in Two(m)
    ensures Two(m) == Two(n) ==> m == n
  {
    ValueOfPadded(m, 2);
    ValueOfPadded(n, 2);
  }

  /** A field followed by a colon is cut off in one way only. */
  lemma PeelYear(m: int, x: string, n: int, y: string)
    requires Year4(m) + ([':'] + x) == Year4(n) + ([':'] + y)
    ensures m == n && x == y
  {
    hide Year4;
    Year4Injective(m, n);
    Year4Injective(n, m);
    assert Year4(m) + [':'] + x == Year4(m) + ([':'] + x);
    assert Year4(n) + [':'] + y == Year4(n) + ([':'] + y);
    SplitAtSeparator(Year4(m), x, Year4(n), y, ':');
  }

  lemma PeelTwo(m: nat, x: string, n: nat, y: string)
    requires Two(m) + ([':'] + x) == Two(n) + ([':'] + y)
    ensures m == n && x == y
  {
    hide Two;
    TwoInjective(m, n);
    TwoInjective(n, m);
    assert Two(m) + [':'] + x == Two(m) + ([':'] + x);
    assert Two(n) + [':'] + y == Two(n) + ([':'] + y);
    SplitAtSeparator(Two(m), x, Two(n), y, ':');
  }

  function MinuteField(c: Clock, x: string): string { Two(c.minute) + ([':'] + x) }
  function HourFields(c: Clock, x: string): string { Two(c.hour) + ([':'] + MinuteField(c, x)) }
  function DayFields(c: Clock, x: string): string { Two(c.date.day) + ([':'] + HourFields(c, x)) }
  function MonthFields(c: Clock, x: string): string { Two(c.date.month) + ([':'] + DayFields(c, x)) }

  /** "YYYY:MM:DD:HH:MM:" followed by the text x. */
  function Stamped(c: Clock, x: string): string { Year4(c.date.year) + ([':'] + MonthFields(c, x)) }

  /** Two stamped texts are equal exactly when the five fields and the texts behind them are. */
  lemma StampedInjective(c: Clock, x: string, d: Clock, y: string)
    requires Valid(c.date) && Valid(d.date) && c.hour >= 0 && c.minute >= 0 && d.hour >= 0 && d.minute >= 0
    ensures Stamped(c, x) == Stamped(d, y)
            <==> c.date == d.date && c.hour == d.hour && c.minute == d.minute && x == y
  {
    hide Year4, Two;
    if Stamped(c, x) == Stamped(d, y) {
      PeelYear(c.date.year, MonthFields(c, x), d.date.year, MonthFields(d, y));
      PeelTwo(c.date.month, DayFields(c, x), d.date.month, DayFields(d, y));
      PeelTwo(c.date.day, HourFields(c, x), d.date.day, HourFields(d, y));
      PeelTwo(c.hour, MinuteField(c, x), d.hour, MinuteField(d, y));
      PeelTwo(c.minute, x, d.minute, y);
    }
  }

  /** getBucketKey and getTempKey */
  function BucketKey(time: int, offset: int, node: string): string {
    "schedule:" + Stamped(ClockAt(time, offset), node)
  }

  function TempKey(time: int, offset: int, node: string): string { BucketKey(time, offset, node + "_TEMP") }

  lemma ClockIsValid(time: int, offset: int)
    ensures var c := ClockAt(time, offset);
      Valid(c.date) && 0 <= c.hour < 24 && 0 <= c.minute < 60 && 0 <= c.second < 60
  {
    DateOfIsRight(LocalSecond(time, offset) / 86_400 + EPOCH_DAY);
    MinuteSplit(LocalSecond(time, offset));
  }

  /** Two bucket keys are equal exactly when the local minutes and the node ids are. */
  lemma BucketKeysEqual(s: int, t: int, offset: int, offset': int, node: string, node': string)
    ensures BucketKey(s, offset, node) == BucketKey(t, offset', node')
            <==> LocalSecond(s, offset) / 60 == LocalSecond(t, offset') / 60 && node == node'
  {
    var c, d := ClockAt(s, offset), ClockAt(t, offset');
    ClockIsValid(s, offset);
    ClockIsValid(t, offset');
    StampedInjective(c, node, d, node');
    SameMinute(s, t, offset, offset');
    assert BucketKey(s, offset, node)[9..] == Stamped(c, node);
    assert BucketKey(t, offset', node')[9..] == Stamped(d, node');
  }

  /** At one offset of whole minutes, two instants get the same bucket key exactly when they lie in the same
      minute, and so do their TEMP keys. */
  lemma BucketKeyInjective(s: int, t: int, offset: int, node: string)
    requires offset % 60 == 0
    ensures BucketKey(s, offset, node) == BucketKey(t, offset, node) <==> s / 60_000 == t / 60_000
    ensures TempKey(s, offset, node) == TempKey(t, offset, node) <==> s / 60_000 == t / 60_000
  {
    BucketKeysEqual(s, t, offset, offset, node, node);
    BucketKeysEqual(s, t, offset, offset, node + "_TEMP", node + "_TEMP");
    WholeMinutes(s, offset);
    WholeMinutes(t, offset);
  }

  lemma WholeMinutes(s: int, offset: int)
    requires offset % 60 == 0
    ensures LocalSecond(s, offset) / 60 == s / 60_000 + offset / 60
  {
    assert s / 1000 / 60 == s / 60_000;
  }

  /** A node's bucket keys and TEMP keys never coincide, for any two minutes and offsets; and a bucket key of one
      node is a TEMP key of another exactly when the first id is the other plus "_TEMP" and the minutes agree. */
  lemma BucketIsNeverTemp(s: int, t: int, offset: int, offset': int, node: string, node': string)
    ensures BucketKey(s, offset, node) != TempKey(t, offset', node)
    ensures BucketKey(s, offset, node) == TempKey(t, offset', node')
            <==> LocalSecond(s, offset) / 60 == LocalSecond(t, offset') / 60 && node == node' + "_TEMP"
  {
    BucketKeysEqual(s, t, offset, offset', node, node + "_TEMP");
    BucketKeysEqual(s, t, offset, offset', node, node' + "_TEMP");
    assert |node| != |node + "_TEMP"|;
  }

  /** One fixed offset is needed: when clocks go back an hour, instants an hour apart share a key. */
  lemma ClockChangeSharesKeys(s: int, offset: int, node: string)
    ensures BucketKey(s, offset, node) == BucketKey(s + 3_600_000, offset - 3600, node)
  {
    assert (s + 3_600_000) / 1000 == s / 1000 + 3600;
    BucketKeysEqual(s, s + 3_600_000, offset, offset - 3600, node, node);
  }

  // ---------- workflow cache keys ----------

  /** fmt.Sprintf("%s:%d", workflowID, version) */
  function WorkflowKey(id: string, version: int): string { id + [':'] + Decimal(version) }

  lemma DecimalHasNoColon(n: int)
    ensures ':' !in Decimal(n)
  {
    DigitsHaveNo(Digits(if n < 0 then -n else n), ':');
  }

  /** Ids may contain colons; the version does not, so the last colon splits a key in one way only. */
  lemma WorkflowKeyInjective(id: string, version: int, id': string, version': int)
    ensures WorkflowKey(id, version) == WorkflowKey(id', version') <==> id == id' && version == version'
  {
    if WorkflowKey(id, version) == WorkflowKey(id', version') {
      DecimalHasNoColon(version);
      DecimalHasNoColon(version');
      SplitAtLastSeparator(id, Decimal(version), id', Decimal(version'), ':');
      DecimalInjective(version, version');
    }
  }
}
