/** internal/service/condition_evaluator.go: the absence condition and the conjunction of conditions. Parsing of
    durations and the foreign expression language are parameters. */
module ConditionEvaluator {
  import opened Calendar
  import opened Options
  import opened Rfc3339
  import opened Signals

  /** Durations are already parsed, None if they do not parse; a numeric expression comes with its value, None if
      it does not compile, run or yield a boolean. */
  datatype Condition =
    | Absence(duration: Option<int>)
    | Numeric(value: Option<bool>)
    | UnknownType

  /** What the environment of one evaluation decides: the clock and whether the query fails. */
  datatype Moment = Moment(now: int, offset: int, queryFails: bool)

  /** Another stored signal of the same type and organisation lies in the window of texts. */
  ghost predicate Broken(items: map<string, Signal>, signal: Signal, since: string, until: string) {
    exists id :: id in items && id != signal.id && InWindow(items[id], signal.signalType, signal.orgId, since, until)
  }

  /** In the window from the signal's own timestamp, read and printed again, to now there is another such signal. */
  ghost predicate Disturbed(items: map<string, Signal>, signal: Signal, m: Moment) {
    var start := Parse(signal.timestamp);
    start.Some? && Broken(items, signal, Format(start.value.0, start.value.1), Format(m.now, m.offset))
  }

  /** The duration is only checked: a condition evaluated early or late looks at the window that has passed, not at the
      one asked for. */
  ghost function AbsenceHolds(items: map<string, Signal>, duration: Option<int>, signal: Signal,
      m: Moment): Option<bool>
  {
    if duration == None || m.queryFails || Parse(signal.timestamp) == None then None
    else Some(!Disturbed(items, signal, m))
  }

  ghost function Holds(items: map<string, Signal>, condition: Condition, signal: Signal, m: Moment): Option<bool> {
    match condition
    case Absence(duration) => AbsenceHolds(items, duration, signal, m)
    case Numeric(value) => value
    case UnknownType => None
  }

  /** What each condition evaluates to, condition j at its own moment. */
  ghost function Answers(items: map<string, Signal>, conditions: seq<Condition>, signal: Signal,
      moments: nat -> Moment): seq<Option<bool>>
  {
    seq(|conditions|, j requires 0 <= j < |conditions| => Holds(items, conditions[j], signal, moments(j)))
  }

  /** The first answer, from i on, that is not a pass, or the number of answers. */
  ghost function FirstNotPassing(answers: seq<Option<bool>>, i: nat): (k: nat)
    requires i <= |answers|
    ensures i <= k <= |answers|
    ensures forall j :: i <= j < k ==> answers[j] == Some(true)
    ensures k < |answers| ==> answers[k] != Some(true)
    decreases |answers| - i
  {
    if i == |answers| || answers[i] != Some(true) then i else FirstNotPassing(answers, i + 1)
  }

  // ---------- what the answers are, by the conditions' fields ----------

  ghost predicate Passes(items: map<string, Signal>, condition: Condition, signal: Signal, m: Moment) {
    match condition
    case Absence(duration) =>
      duration.Some? && !m.queryFails && Parse(signal.timestamp).Some? && !Disturbed(items, signal, m)
    case Numeric(value) => value == Some(true)
    case UnknownType => false
  }

  predicate Unanswered(condition: Condition, signal: Signal, m: Moment) {
    match condition
    case Absence(duration) => duration == None || m.queryFails || Parse(signal.timestamp) == None
    case Numeric(value) => value == None
    case UnknownType => true
  }

  /** Condition k is the first that does not pass. */
  ghost predicate StopsAt(items: map<string, Signal>, conditions: seq<Condition>, signal: Signal,
      moments: nat -> Moment, k: nat)
    requires k < |conditions|
  {
    && !Passes(items, conditions[k], signal, moments(k))
    && forall j :: 0 <= j < k ==> Passes(items, conditions[j], signal, moments(j))
  }

  lemma StopsOnce(items: map<string, Signal>, conditions: seq<Condition>, signal: Signal, moments: nat -> Moment,
      i: nat, k: nat)
    requires i < |conditions| && k < |conditions|
    requires StopsAt(items, conditions, signal, moments, i) && StopsAt(items, conditions, signal, moments, k)
    ensures i == k
  {
    hide Passes;
  }

  lemma ThreeAnswers(r: Option<bool>)
    ensures r == None || r == Some(true) || r == Some(false)
  {
    match r
    case None =>
    case Some(passed) => assert passed || !passed;
  }

  lemma HoldsExactly(items: map<string, Signal>, condition: Condition, signal: Signal, m: Moment)
    ensures Holds(items, condition, signal, m) == Some(true) <==> Passes(items, condition, signal, m)
    ensures Holds(items, condition, signal, m) == None <==> Unanswered(condition, signal, m)
  {
    hide Disturbed, Parse;
  }

  lemma FirstDecides(items: map<string, Signal>, conditions: seq<Condition>, signal: Signal, moments: nat -> Moment,
      r: Option<bool>)
    requires var answers := Answers(items, conditions, signal, moments);
      var k := FirstNotPassing(answers, 0);
      r == if k == |conditions| then Some(true) else answers[k]
    ensures r == Some(true) <==>
      forall j :: 0 <= j < |conditions| ==> Passes(items, conditions[j], signal, moments(j))
    ensures r == None <==>
      exists k :: 0 <= k < |conditions| && StopsAt(items, conditions, signal, moments, k)
        && Unanswered(conditions[k], signal, moments(k))
    ensures r == Some(false) <==>
      exists k :: 0 <= k < |conditions| && StopsAt(items, conditions, signal, moments, k)
        && !Unanswered(conditions[k], signal, moments(k))
  {
    hide Holds, Passes, Unanswered, StopsAt;
    forall j | 0 <= j < |conditions|
      ensures Answers(items, conditions, signal, moments)[j] == Some(true)
              <==> Passes(items, conditions[j], signal, moments(j))
      ensures Answers(items, conditions, signal, moments)[j] == None
              <==> Unanswered(conditions[j], signal, moments(j))
    {
      HoldsExactly(items, conditions[j], signal, moments(j));
    }
    var k := FirstNotPassing(Answers(items, conditions, signal, moments), 0);
    ThreeAnswers(r);
    if k < |conditions| {
      assert StopsAt(items, conditions, signal, moments, k) by { StopsHere(items, conditions, signal, moments, k); }
      forall l | 0 <= l < |conditions| && StopsAt(items, conditions, signal, moments, l) ensures l == k {
        StopsOnce(items, conditions, signal, moments, k, l);
      }
    } else {
      forall l | 0 <= l < |conditions| ensures !StopsAt(items, conditions, signal, moments, l) {
        NeverStops(items, conditions, signal, moments, l);
      }
    }
  }

  lemma StopsHere(items: map<string, Signal>, conditions: seq<Condition>, signal: Signal, moments: nat -> Moment,
      k: nat)
    requires k < |conditions| && !Passes(items, conditions[k], signal, moments(k))
    requires forall j :: 0 <= j < k ==> Passes(items, conditions[j], signal, moments(j))
    ensures StopsAt(items, conditions, signal, moments, k)
  {
  }

  lemma NeverStops(items: map<string, Signal>, conditions: seq<Condition>, signal: Signal, moments: nat -> Moment,
      k: nat)
    requires k < |conditions| && forall j :: 0 <= j < |conditions| ==> Passes(items, conditions[j], signal, moments(j))
    ensures !StopsAt(items, conditions, signal, moments, k)
  {
    hide Passes;
  }

  class Evaluator {
    const signalRepo: SignalRepository

    constructor (signalRepo: SignalRepository)
      ensures this.signalRepo == signalRepo
    {
      this.signalRepo := signalRepo;
    }

    /** Counts the signals of the window other than the one that started it. */
    method EvaluateAbsence(duration: Option<int>, signal: Signal, m: Moment) returns (r: Option<bool>)
      requires signalRepo.Valid()
      ensures r == AbsenceHolds(signalRepo.items, duration, signal, m)
    {
      hide Parse, Format, InWindow;
      if duration == None {
        return None;
      }
      var signalTime := Parse(signal.timestamp);
      if signalTime == None || m.queryFails {
        return None;
      }
      var since, until := signalTime.value, (m.now, m.offset);
      var signals := signalRepo.GetSignalsSince(signal.signalType, signal.orgId, since, until);
      var newSignalCount := 0;
      for i := 0 to |signals|
        invariant newSignalCount >= 0
        invariant newSignalCount == 0 <==> forall j :: 0 <= j < i ==> signals[j].id == signal.id
      {
        if signals[i].id != signal.id {
          newSignalCount := newSignalCount + 1;
        }
      }
      ghost var items := signalRepo.items;
      assert Broken(items, signal, Format(since.0, since.1), Format(until.0, until.1)) ==> newSignalCount > 0 by {
        if id :| id in items && id != signal.id
                 && InWindow(items[id], signal.signalType, signal.orgId, Format(since.0, since.1),
                   Format(until.0, until.1)) {
          assert items[id] in items.Values;
        }
      }
      return Some(newSignalCount == 0);
    }

    method Evaluate(condition: Condition, signal: Signal, m: Moment) returns (r: Option<bool>)
      requires signalRepo.Valid()
      ensures r == Holds(signalRepo.items, condition, signal, m)
      ensures r == Some(true) <==> Passes(signalRepo.items, condition, signal, m)
      ensures r == None <==> Unanswered(condition, signal, m)
      ensures condition.Numeric? ==> r == condition.value
      ensures condition.UnknownType? ==> r == None
      ensures condition.Absence? ==>
        && (r == None <==> condition.duration == None || m.queryFails || Parse(signal.timestamp) == None)
        && (r.Some? ==> r.value == !Disturbed(signalRepo.items, signal, m))
    {
      hide Disturbed, Parse;
      match condition
      case Absence(duration) => r := EvaluateAbsence(duration, signal, m);
      case Numeric(value) => r := value;
      case UnknownType => r := None;
    }

    /** AND with early exit: the answer is that of the first condition that does not pass, later ones are not
        looked at. */
    method EvaluateAll(conditions: seq<Condition>, signal: Signal, moments: nat -> Moment) returns (r: Option<bool>)
      requires signalRepo.Valid()
      ensures var answers := Answers(signalRepo.items, conditions, signal, moments);
        var k := FirstNotPassing(answers, 0);
        r == if k == |conditions| then Some(true) else answers[k]
      ensures r == Some(true) <==>
        forall j :: 0 <= j < |conditions| ==> Passes(signalRepo.items, conditions[j], signal, moments(j))
      ensures r == None <==>
        exists k :: 0 <= k < |conditions| && StopsAt(signalRepo.items, conditions, signal, moments, k)
          && Unanswered(conditions[k], signal, moments(k))
      ensures r == Some(false) <==>
        exists k :: 0 <= k < |conditions| && StopsAt(signalRepo.items, conditions, signal, moments, k)
          && !Unanswered(conditions[k], signal, moments(k))
    {
      hide Holds, Parse, Disturbed, StopsAt, Unanswered, Passes;
      ghost var answers := Answers(signalRepo.items, conditions, signal, moments);
      for i := 0 to |conditions|
        invariant FirstNotPassing(answers, 0) == FirstNotPassing(answers, i)
      {
        r := Evaluate(conditions[i], signal, moments(i));
        if r != Some(true) {
          FirstDecides(signalRepo.items, conditions, signal, moments, r);
          return r;
        }
      }
      FirstDecides(signalRepo.items, conditions, signal, moments, Some(true));
      return Some(true);
    }
  }

  // ---------- what the absence condition means ----------

  /** The signals were stamped at the given times, all at one offset. */
  ghost predicate StampedAt(items: map<string, Signal>, times: map<string, int>, offset: int) {
    forall id :: id in items ==>
      id in times && FourDigitYear(times[id], offset) && items[id].timestamp == Format(times[id], offset)
  }

  /** Another signal of the type and organisation came in a second from `time`'s to `now`'s. */
  ghost predicate Followed(items: map<string, Signal>, times: map<string, int>, signal: Signal, time: int, now: int) {
    exists id :: id in items && id in times && id != signal.id && Follows(items[id], times[id], signal, time, now)
  }

  predicate Follows(s: Signal, at: int, signal: Signal, time: int, now: int) {
    s.signalType == signal.signalType && s.orgId == signal.orgId && time / 1000 <= at / 1000 <= now / 1000
  }

  /** With one UTC offset and years of four digits, an absence condition that can be evaluated passes exactly when
      no other signal of its type and organisation came in a second from the signal's to the current one. */
  lemma AbsenceIsExact(items: map<string, Signal>, times: map<string, int>, duration: Option<int>, signal: Signal,
      time: int, m: Moment)
    requires PlainOffset(m.offset) && FourDigitYear(m.now, m.offset) && FourDigitYear(time, m.offset)
    requires StampedAt(items, times, m.offset)
    ensures var r := AbsenceHolds(items, duration, signal.(timestamp := Format(time, m.offset)), m);
      && (r == None <==> duration == None || m.queryFails)
      && (r == Some(true) <==> duration != None && !m.queryFails && !Followed(items, times, signal, time, m.now))
  {
    hide Parse, Format, InWindow, FourDigitYear;
    FormatRoundTrip(time, m.offset);
    ReformatIsIdentity(time, m.offset);
    forall id | id in items
      ensures InWindow(items[id], signal.signalType, signal.orgId, Format(time, m.offset), Format(m.now, m.offset))
              <==> Follows(items[id], times[id], signal, time, m.now)
    {
      WindowSelectsSeconds(items[id], times[id], signal.signalType, signal.orgId, time, m.now, m.offset);
      assert items[id].(timestamp := Format(times[id], m.offset)) == items[id];
    }
  }

  lemma ReformatIsIdentity(time: int, offset: int)
    ensures Format(1000 * (time / 1000), offset) == Format(time, offset)
  {
    assert 1000 * (time / 1000) / 1000 == time / 1000;
    SameSecondFormat(time, 1000 * (time / 1000), offset);
  }

  lemma SameSecondFormat(time: int, other: int, offset: int)
    requires time / 1000 == other / 1000
    ensures Format(time, offset) == Format(other, offset)
  {
    hide Printed, Zone, DateOf;
    assert LocalSecond(time, offset) == LocalSecond(other, offset);
  }

  /** The wall clock of the second evaluation is not behind that of the first. */
  predicate NotBefore(m: Moment, m': Moment) {
    || LocalSecond(m.now, m.offset) < LocalSecond(m'.now, m'.offset)
    || (m.offset == m'.offset && m.now / 1000 <= m'.now / 1000)
  }

  lemma NotBeforeAsText(m: Moment, m': Moment)
    requires FourDigitYear(m.now, m.offset) && FourDigitYear(m'.now, m'.offset) && NotBefore(m, m')
    ensures var a, b := Format(m.now, m.offset), Format(m'.now, m'.offset); a == b || TextLess(a, b)
  {
    hide Format, FourDigitYear, TextLess;
    if m.offset == m'.offset { TextOrderIsTimeOrder(m.now, m'.now, m.offset); }
    else { TextOrderIsLocalOrder(m.now, m.offset, m'.now, m'.offset); }
  }

  /** A later end keeps what lies in the window in it. */
  lemma WindowWidens(s: Signal, signalType: string, orgId: string, since: string, until: string, until': string)
    requires InWindow(s, signalType, orgId, since, until) && (until == until' || TextLess(until, until'))
    ensures InWindow(s, signalType, orgId, since, until')
  {
    hide TextLess;
    if TextLess(until', s.timestamp) && until != until' { TextLessIsTransitive(until, until', s.timestamp); }
  }

  /** An absence condition once found false stays false: at any later evaluation that is answered at all, whatever
      signals have been created in between and at whatever offsets the stored ones were stamped, as long as the wall
      clock has not been set back. */
  lemma AbsenceStaysFalse(items: map<string, Signal>, created: seq<Signal>, duration: Option<int>, signal: Signal,
      m: Moment, m': Moment)
    requires FourDigitYear(m.now, m.offset) && FourDigitYear(m'.now, m'.offset) && NotBefore(m, m')
    requires AbsenceHolds(items, duration, signal, m) == Some(false)
    ensures AbsenceHolds(InsertedAll(items, created), duration, signal, m') == if m'.queryFails
      then None else Some(false)
  {
    hide Parse, Format, InWindow, FourDigitYear, InsertedAll, TextLess, NotBefore;
    NotBeforeAsText(m, m');
    var start := Parse(signal.timestamp).value;
    var since, until, until' := Format(start.0, start.1), Format(m.now, m.offset), Format(m'.now, m'.offset);
    var id :| id in items && id != signal.id && InWindow(items[id], signal.signalType, signal.orgId, since, until);
    InsertedStay(items, created, id);
    WindowWidens(items[id], signal.signalType, signal.orgId, since, until, until');
  }

  /** A stored signal that breaks the condition at any evaluation whose clock is not before the signal's stamp. */
  ghost predicate Breaks(items: map<string, Signal>, signal: Signal, since: string, id: string) {
    && id in items && id != signal.id && items[id].signalType == signal.signalType && items[id].orgId == signal.orgId
    && !TextLess(items[id].timestamp, since)
  }

  /** One of those that break the condition, and none of them is stamped before it. */
  ghost predicate FirstToBreak(items: map<string, Signal>, signal: Signal, since: string, first: string) {
    && Breaks(items, signal, since, first)
    && forall id :: Breaks(items, signal, since, id) ==> !TextLess(items[id].timestamp, items[first].timestamp)
  }

  ghost predicate NoneBefore(items: map<string, Signal>, signal: Signal, since: string, ids: set<string>,
      stamp: string) {
    forall id :: id in ids && Breaks(items, signal, since, id) ==> !TextLess(items[id].timestamp, stamp)
  }

  /** There is such a first one as soon as the condition is false at all. */
  lemma SomeBreaksFirst(items: map<string, Signal>, duration: Option<int>, signal: Signal, m: Moment)
      returns (first: string)
    requires AbsenceHolds(items, duration, signal, m) == Some(false)
    ensures var start := Parse(signal.timestamp);
      start.Some? && FirstToBreak(items, signal, Format(start.value.0, start.value.1), first)
  {
    hide Parse, Format, TextLess;
    var start := Parse(signal.timestamp).value;
    var since, until := Format(start.0, start.1), Format(m.now, m.offset);
    var some :| some in items && some != signal.id && InWindow(items[some], signal.signalType, signal.orgId, since,
      until);
    first := EarliestOf(items, signal, since, items.Keys, some);
  }

  lemma EarliestOf(items: map<string, Signal>, signal: Signal, since: string, ids: set<string>, some: string)
      returns (first: string)
    requires Breaks(items, signal, since, some)
    ensures Breaks(items, signal, since, first) && !TextLess(items[some].timestamp, items[first].timestamp)
    ensures NoneBefore(items, signal, since, ids, items[first].timestamp)
    decreases |ids|
  {
    hide Breaks, TextLess;
    assert some in items by { InTable(items, signal, since, some); }
    if ids == {} {
      first := some;
      TextLessIsStrict(items[some].timestamp, items[some].timestamp);
    } else {
      var next :| next in ids;
      first := EarliestOf(items, signal, since, ids - {next}, some);
      InTable(items, signal, since, first);
      if Breaks(items, signal, since, next) {
        InTable(items, signal, since, next);
        if TextLess(items[next].timestamp, items[first].timestamp) {
          EarlierStill(items, ids - {next}, signal, since, first, next, some);
          first := next;
        }
      }
    }
  }

  lemma InTable(items: map<string, Signal>, signal: Signal, since: string, id: string)
    requires Breaks(items, signal, since, id)
    ensures id in items
  {
  }

  lemma EarlierStill(items: map<string, Signal>, ids: set<string>, signal: Signal, since: string, first: string,
      next: string, some: string)
    requires Breaks(items, signal, since, first) && Breaks(items, signal, since, next)
      && Breaks(items, signal, since, some)
    requires TextLess(items[next].timestamp, items[first].timestamp)
    requires !TextLess(items[some].timestamp, items[first].timestamp)
    requires NoneBefore(items, signal, since, ids, items[first].timestamp)
    ensures !TextLess(items[some].timestamp, items[next].timestamp)
    ensures !TextLess(items[next].timestamp, items[next].timestamp)
    ensures NoneBefore(items, signal, since, ids, items[next].timestamp)
  {
    hide TextLess;
    TextLessIsStrict(items[next].timestamp, items[next].timestamp);
    forall id | id in items && TextLess(items[id].timestamp, items[next].timestamp)
      ensures TextLess(items[id].timestamp, items[first].timestamp)
    {
      TextLessIsTransitive(items[id].timestamp, items[next].timestamp, items[first].timestamp);
    }
  }

  /** The clock does decide, for any table: an evaluation that is answered finds the condition false exactly when the
      text of its clock is not before the earliest stamp that breaks it, so a clock set back may make it true again. */
  lemma SetBackClockForgets(items: map<string, Signal>, duration: Option<int>, signal: Signal, m: Moment, first: string)
    requires duration != None && !m.queryFails && Parse(signal.timestamp).Some?
    requires var start := Parse(signal.timestamp).value; FirstToBreak(items, signal, Format(start.0, start.1), first)
    ensures AbsenceHolds(items, duration, signal, m) == Some(false)
            <==> !TextLess(Format(m.now, m.offset), items[first].timestamp)
  {
    hide Parse, Format, TextLess;
    var start := Parse(signal.timestamp).value;
    var since, until := Format(start.0, start.1), Format(m.now, m.offset);
    if id :| id in items && id != signal.id && InWindow(items[id], signal.signalType, signal.orgId, since, until) {
      assert Breaks(items, signal, since, id);
      TextLessIsStrict(items[id].timestamp, items[first].timestamp);
      if TextLess(until, items[first].timestamp) && items[first].timestamp != items[id].timestamp {
        TextLessIsTransitive(until, items[first].timestamp, items[id].timestamp);
      }
    }
    if !TextLess(until, items[first].timestamp) {
      assert InWindow(items[first], signal.signalType, signal.orgId, since, until);
    }
  }

  /** Stamps are cut to the second: another signal of the same second makes the condition false, even one that came a
      few milliseconds before the signal itself. */
  lemma SameSecondBreaks(items: map<string, Signal>, duration: Option<int>, signalType: string, orgId: string,
      time: int, other: int, created: int, created': int, m: Moment)
    requires PlainOffset(m.offset) && FourDigitYear(m.now, m.offset) && FourDigitYear(time, m.offset)
    requires duration != None && !m.queryFails && time / 1000 == other / 1000 <= m.now / 1000 && time != other
    requires var s := NewSignal(signalType, orgId, other, m.offset, created'); s.id in items && items[s.id] == s
    ensures AbsenceHolds(items, duration, NewSignal(signalType, orgId, time, m.offset, created), m) == Some(false)
  {
    hide Format, SignalId, Parse, InWindow;
    SignalIdsEqual(signalType, orgId, time, signalType, orgId, other);
    FormatRoundTrip(time, m.offset);
    ReformatIsIdentity(time, m.offset);
    var s := NewSignal(signalType, orgId, other, m.offset, created');
    WindowSelectsSeconds(s, other, signalType, orgId, time, m.now, m.offset);
    assert s.(timestamp := Format(other, m.offset)) == s;
  }
}
