/** internal/domain/signal.go and internal/repository/dynamodb/signal_repo.go: signals, their composite ids, the
    deduplicating insert and the query over a window of timestamps. */
module Signals {
  import opened Text
  import opened Calendar
  import opened Options
  import opened Rfc3339

  datatype Signal = Signal(id: string, timestamp: string, signalType: string, orgId: string, createdAt: int)

  function Composite(signalType: string, orgId: string): string { signalType + ['#'] + orgId }

  function SignalId(signalType: string, orgId: string, time: int): string {
    Composite(signalType, orgId) + ['#'] + Decimal(time)
  }

  /** The signal of a time in milliseconds, stamped at the time's offset to the whole second. */
  function NewSignal(signalType: string, orgId: string, time: int, offset: int, now: int): Signal {
    Signal(SignalId(signalType, orgId, time), Format(time, offset), signalType, orgId, now)
  }

  // ---------- composite ids ----------

  /** The time is behind the last '#', so ids agree exactly when the times and the composites do. */
  lemma SignalIdsEqual(a: string, x: string, s: int, b: string, y: string, t: int)
    ensures SignalId(a, x, s) == SignalId(b, y, t) <==> Composite(a, x) == Composite(b, y) && s == t
  {
    if SignalId(a, x, s) == SignalId(b, y, t) {
      hide Composite, Decimal;
      DecimalHasNoHash(s);
      DecimalHasNoHash(t);
      SplitAtLastSeparator(Composite(a, x), Decimal(s), Composite(b, y), Decimal(t), '#');
      DecimalInjective(s, t);
    }
  }

  lemma DecimalHasNoHash(n: int)
    ensures '#' !in Decimal(n)
  {
    DigitsHaveNo(Digits(if n < 0 then -n else n), '#');
  }

  ghost predicate Determines(signalType: string, orgId: string, time: int) {
    forall b, y, t :: SignalId(b, y, t) == SignalId(signalType, orgId, time)
      ==> b == signalType && y == orgId && t == time
  }

  /** An id stands for one signal only, so that deduplication never takes one signal for another, exactly when
      neither the type nor the organisation contains a '#'. */
  lemma IdDeterminesSignal(signalType: string, orgId: string, time: int)
    ensures Determines(signalType, orgId, time) <==> '#' !in signalType && '#' !in orgId
  {
    hide SignalId;
    if '#' in signalType {
      var k :| 0 <= k < |signalType| && signalType[k] == '#';
      var b, y := signalType[..k], signalType[k + 1..] + ['#'] + orgId;
      assert Composite(b, y) == Composite(signalType, orgId);
      SignalIdsEqual(b, y, time, signalType, orgId, time);
      assert |b| != |signalType|;
    } else if '#' in orgId {
      var k :| 0 <= k < |orgId| && orgId[k] == '#';
      var b, y := signalType + ['#'] + orgId[..k], orgId[k + 1..];
      assert Composite(b, y) == Composite(signalType, orgId);
      SignalIdsEqual(b, y, time, signalType, orgId, time);
      assert |b| != |signalType|;
    } else {
      forall b, y, t | SignalId(b, y, t) == SignalId(signalType, orgId, time)
        ensures b == signalType && y == orgId && t == time {
        SignalIdsEqual(b, y, t, signalType, orgId, time);
        OneSeparator(b, y, signalType, orgId);
      }
    }
  }

  lemma OneSeparator(b: string, y: string, a: string, x: string)
    requires Composite(b, y) == Composite(a, x) && '#' !in a && '#' !in x
    ensures a == b && x == y
  {
    var s := Composite(a, x);
    assert forall k :: 0 <= k < |s| && s[k] == '#' ==> k == |a|;
    assert s[|b|] == Composite(b, y)[|b|];
    assert a == s[..|a|] && x == s[|a| + 1..];
    assert b == s[..|b|] && y == s[|b| + 1..];
  }

  // ---------- the repository ----------

  /** The key condition and the filter of GetSignalsSince. */
  predicate InWindow(s: Signal, signalType: string, orgId: string, since: string, until: string) {
    s.signalType == signalType && s.orgId == orgId && !TextLess(s.timestamp, since) && !TextLess(until, s.timestamp)
  }

  /** The table after a conditional insert, which never replaces an item. */
  function Inserted(items: map<string, Signal>, signal: Signal): map<string, Signal> {
    if signal.id in items then items else items[signal.id := signal]
  }

  function InsertedAll(items: map<string, Signal>, signals: seq<Signal>): map<string, Signal>
    decreases |signals|
  {
    if signals == [] then items else InsertedAll(Inserted(items, signals[0]), signals[1..])
  }

  /** Whatever is inserted, an item that is there stays as it is. */
  lemma {:induction false} InsertedStay(items: map<string, Signal>, signals: seq<Signal>, id: string)
    requires id in items
    ensures id in InsertedAll(items, signals) && InsertedAll(items, signals)[id] == items[id]
    decreases |signals|
  {
    if signals != [] { InsertedStay(Inserted(items, signals[0]), signals[1..], id); }
  }

  class SignalRepository {
    var items: map<string, Signal>

    ghost predicate Valid()
      reads this
    {
      forall id :: id in items ==> items[id].id == id
    }

    constructor ()
      ensures Valid() && items == map[]
    {
      items := map[];
    }

    /** The insert is conditional: an item, once there, is never replaced. */
    method Create(signal: Signal) returns (duplicate: bool)
      requires Valid()
      modifies this
      ensures Valid()
      ensures duplicate <==> signal.id in old(items)
      ensures items == if duplicate then old(items) else old(items)[signal.id := signal]
      ensures items == Inserted(old(items), signal)
    {
      duplicate := signal.id in items;
      if !duplicate {
        items := items[signal.id := signal];
      }
    }

    /** Every matching signal once, and no other. The order is the index's, which no caller relies on. */
    method GetSignalsSince(signalType: string, orgId: string, since: (int, int), until: (int, int))
        returns (signals: seq<Signal>)
      requires Valid()
      ensures forall i :: 0 <= i < |signals| ==>
        signals[i].id in items && items[signals[i].id] == signals[i]
        && InWindow(signals[i], signalType, orgId, Format(since.0, since.1), Format(until.0, until.1))
      ensures forall s :: s in items.Values && InWindow(s, signalType, orgId, Format(since.0, since.1),
        Format(until.0, until.1))
                ==> s in signals
      ensures forall i, j :: 0 <= i < j < |signals| ==> signals[i].id != signals[j].id
    {
      hide InWindow, Format;
      var sinceTimestamp, untilTimestamp := Format(since.0, since.1), Format(until.0, until.1);
      signals := [];
      var rest := items.Keys;
      while rest != {}
        invariant rest <= items.Keys
        invariant forall i :: 0 <= i < |signals| ==>
          signals[i].id in items && signals[i].id !in rest && items[signals[i].id] == signals[i]
          && InWindow(signals[i], signalType, orgId, sinceTimestamp, untilTimestamp)
        invariant forall id ::
          id in items && id !in rest && InWindow(items[id], signalType, orgId, sinceTimestamp, untilTimestamp)
          ==> items[id] in signals
        invariant forall i, j :: 0 <= i < j < |signals| ==> signals[i].id != signals[j].id
        decreases |rest|
      {
        var id :| id in rest;
        rest := rest - {id};
        if InWindow(items[id], signalType, orgId, sinceTimestamp, untilTimestamp) {
          signals := signals + [items[id]];
        }
      }
    }
  }

  // ---------- what the window selects ----------

  /** With one offset the comparison of texts selects exactly the signals of that type and organisation whose whole
      second lies in the window, both ends included. */
  lemma WindowSelectsSeconds(s: Signal, time: int, signalType: string, orgId: string, since: int, until: int,
      offset: int)
    requires FourDigitYear(time, offset) && FourDigitYear(since, offset) && FourDigitYear(until, offset)
    ensures InWindow(s.(timestamp := Format(time, offset)), signalType, orgId, Format(since, offset),
      Format(until, offset))
            <==> s.signalType == signalType && s.orgId == orgId && since / 1000 <= time / 1000 <= until / 1000
  {
    hide FourDigitYear, Format, TextLess;
    TextOrderIsTimeOrder(time, since, offset);
    TextOrderIsTimeOrder(until, time, offset);
  }

  /** One offset is needed. Between different offsets it is the local seconds that are compared: a signal is taken
      to be before the window exactly when its wall clock was, whatever the instants. */
  lemma OffsetsShiftTheWindow(time: int, offset': int, since: int, offset: int)
    requires FourDigitYear(time, offset') && FourDigitYear(since, offset)
    requires LocalSecond(time, offset') != LocalSecond(since, offset)
    ensures TextLess(Format(time, offset'), Format(since, offset)) <==> time / 1000 + offset' < since / 1000 + offset
  {
    TextOrderIsLocalOrder(time, offset', since, offset);
  }

  /** So when clocks go back an hour, a signal less than an hour after the first one is missed. */
  lemma MissedAtClockChange(time: int, since: int, offset: int, signalType: string, orgId: string, until: string,
      now: int)
    requires FourDigitYear(time, offset - 3600) && FourDigitYear(since, offset)
    requires since / 1000 <= time / 1000 < since / 1000 + 3600
    ensures !InWindow(NewSignal(signalType, orgId, time, offset - 3600, now), signalType, orgId, Format(since, offset),
      until)
  {
    OffsetsShiftTheWindow(time, offset - 3600, since, offset);
  }
}
