/** internal/service/workflow_executor.go run by one worker: each message is handled once and the store does
    not fail. Pausing at delays and resuming must mean the same as executing the actions in one go. */
module Executor {
  import opened Domain
  import opened Options

  /** Delay carries the parsed duration in nanoseconds, or None if it does not parse. */
  datatype Action = Send | Delay(duration: Option<int>) | Unknown

  datatype Verdict = Passed | NotPassed | Broken

  /** A workflow with what its environment will answer: the verdict of each condition and, per action, whether
      the Slack or webhook call, or the scheduling of the delay, succeeds. */
  datatype Workflow = Workflow(verdicts: seq<Verdict>, actions: seq<Action>, succeeds: seq<bool>) {
    predicate Valid() { |succeeds| == |actions| }
  }

  const NANOS := 1_000_000_000
  const SHORTEST_SCHEDULED := 60

  /** int(duration.Seconds()): truncation toward zero. */
  function DelaySeconds(duration: int): int {
    if duration >= 0 then duration / NANOS else -((-duration) / NANOS)
  }

  /** A delay of a minute or more. */
  predicate IsLong(a: Action) { a.Delay? && a.duration.Some? && a.duration.value >= 60_000_000_000 }

  predicate IsShort(a: Action) { a.Delay? && a.duration.Some? && a.duration.value < 60_000_000_000 }

  /** The whole seconds of a duration; comparing them with the threshold compares the duration with a minute. */
  lemma WholeSeconds(d: int)
    ensures d >= 0 ==> DelaySeconds(d) * 1_000_000_000 <= d < (DelaySeconds(d) + 1) * 1_000_000_000
    ensures d < 0 ==> (DelaySeconds(d) - 1) * 1_000_000_000 < d <= DelaySeconds(d) * 1_000_000_000
    ensures DelaySeconds(d) >= SHORTEST_SCHEDULED <==> d >= 60_000_000_000
  {
  }

  /** Performing action i fails: a failed call, an unparsable delay, an unknown type, or a job that cannot be
      scheduled. A short delay sleeps and cannot fail. */
  predicate Fails(w: Workflow, i: nat)
    requires w.Valid() && i < |w.actions|
  {
    match w.actions[i]
    case Send => !w.succeeds[i]
    case Delay(None) => true
    case Delay(Some(_)) => IsLong(w.actions[i]) && !w.succeeds[i]
    case Unknown => true
  }

  /** Exactly when performing action i fails. */
  lemma FailsExactly(w: Workflow, i: nat)
    requires w.Valid() && i < |w.actions|
    ensures Fails(w, i) <==>
      match w.actions[i]
      case Send => !w.succeeds[i]
      case Delay(duration) => duration == None || (duration.value >= 60_000_000_000 && !w.succeeds[i])
      case Unknown => true
  {
  }

  // ---------- what the executor does, as functions ----------

  datatype End = EndCompleted | EndFailed | EndPaused(at: nat)

  /** The actions performed, the states stored, and how it ended. */
  datatype Trace = Trace(performed: seq<nat>, states: seq<RunState>, end: End)

  function Before(performed: seq<nat>, states: seq<RunState>, t: Trace): Trace {
    Trace(performed + t.performed, states + t.states, t.end)
  }

  /** One call of executeActions from action i on. */
  function Segment(w: Workflow, i: nat): (t: Trace)
    requires w.Valid()
    ensures t.end.EndPaused? ==> i <= t.end.at < |w.actions|
    decreases |w.actions| - i
  {
    if i >= |w.actions| then Trace([], [Completed], EndCompleted)
    else if Fails(w, i) then Trace([i], [ActionStarted(i), Failed], EndFailed)
    else if w.actions[i].Delay? then Trace([i], [ActionStarted(i), ActionScheduled(i)], EndPaused(i))
    else Before([i], [ActionStarted(i), ActionCompleted(i)], Segment(w, i + 1))
  }

  /** That call and every resume after it; a pause is resumed exactly when a job was scheduled for it. */
  function WholeRun(w: Workflow, i: nat): Trace
    requires w.Valid()
    decreases |w.actions| - i
  {
    var t := Segment(w, i);
    if t.end.EndPaused? && IsLong(w.actions[t.end.at])
    then Before(t.performed, t.states + [ActionCompleted(t.end.at)], WholeRun(w, t.end.at + 1))
    else t
  }

  // ---------- what a workflow means ----------

  /** The first action from i on that fails, or the number of actions. */
  function FirstFailure(w: Workflow, i: nat): (k: nat)
    requires w.Valid() && i <= |w.actions|
    ensures i <= k <= |w.actions|
    ensures forall j :: i <= j < k ==> !Fails(w, j)
    ensures k < |w.actions| ==> Fails(w, k)
    decreases |w.actions| - i
  {
    if i == |w.actions| || Fails(w, i) then i else FirstFailure(w, i + 1)
  }

  /** i, i + 1, .., k - 1 */
  function Range(i: nat, k: nat): seq<nat>
    decreases k - i
  {
    if i < k then [i] + Range(i + 1, k) else []
  }

  lemma {:induction false} RangeConcat(i: nat, m: nat, k: nat)
    requires i <= m <= k
    ensures Range(i, m) + Range(m, k) == Range(i, k)
    decreases m - i
  {
    if i < m {
      RangeConcat(i + 1, m, k);
      assert Range(i, m) + Range(m, k) == [i] + (Range(i + 1, m) + Range(m, k));
    }
  }

  /** Each number of the range once, in order. */
  lemma {:induction false} RangeAt(i: nat, k: nat, j: nat)
    requires i <= k && j < k - i
    ensures |Range(i, k)| == k - i && Range(i, k)[j] == i + j
    decreases k - i
  {
    if i + 1 < k { RangeAt(i + 1, k, if j > 0 then j - 1 else 0); }
  }

  /** Every action in order, once each, through the first failing one. */
  function Meaning(w: Workflow, i: nat): seq<nat>
    requires w.Valid() && i <= |w.actions|
  {
    var k := FirstFailure(w, i);
    Range(i, if k < |w.actions| then k + 1 else k)
  }

  /** No action that is reached is a delay under 60 s. */
  ghost predicate NoShortDelay(w: Workflow, i: nat)
    requires w.Valid() && i <= |w.actions|
  {
    forall j :: i <= j < FirstFailure(w, i) ==> !IsShort(w.actions[j])
  }

  /** One segment performs a contiguous range: to the end, to the first failure, or to the first delay. */
  lemma {:induction false} SegmentIsARange(w: Workflow, i: nat)
    requires w.Valid() && i <= |w.actions|
    ensures var t, k := Segment(w, i), FirstFailure(w, i);
      match t.end
      case EndCompleted => k == |w.actions| && t.performed == Range(i, k)
      case EndFailed => k < |w.actions| && t.performed == Range(i, k + 1)
      case EndPaused(at) => i <= at < k && w.actions[at].Delay? && t.performed == Range(i, at + 1)
                            && forall j :: i <= j < at ==> !w.actions[j].Delay?
    decreases |w.actions| - i
  {
    if i < |w.actions| && !Fails(w, i) && !w.actions[i].Delay? {
      SegmentIsARange(w, i + 1);
    }
  }

  /** A segment that does not pause has met no delay. */
  lemma {:induction false} NoDelayNoShort(w: Workflow, i: nat)
    requires w.Valid() && i <= |w.actions| && !Segment(w, i).end.EndPaused?
    ensures NoShortDelay(w, i)
    decreases |w.actions| - i
  {
    if i < |w.actions| && !Fails(w, i) { NoDelayNoShort(w, i + 1); }
  }

  /** The run ends if and only if no delay under 60 s is reached; then it performed exactly Meaning, ending
      COMPLETED if no action fails and FAILED otherwise. Else it stops for good at the first short delay. */
  ghost predicate MeansTheSame(w: Workflow, i: nat, t: Trace)
    requires w.Valid() && i <= |w.actions|
  {
    && (!t.end.EndPaused? <==> NoShortDelay(w, i))
    && (!t.end.EndPaused? ==> PerformsMeaning(w, i, t))
    && (t.end.EndPaused? ==> StopsAtShort(w, i, t))
  }

  predicate PerformsMeaning(w: Workflow, i: nat, t: Trace)
    requires w.Valid() && i <= |w.actions|
  {
    t.performed == Meaning(w, i) && (t.end == EndCompleted <==> FirstFailure(w, i) == |w.actions|)
  }

  ghost predicate StopsAtShort(w: Workflow, i: nat, t: Trace)
    requires w.Valid() && i <= |w.actions| && t.end.EndPaused?
  {
    && i <= t.end.at < FirstFailure(w, i) && IsShort(w.actions[t.end.at])
    && (forall j :: i <= j < t.end.at ==> !IsShort(w.actions[j]))
    && t.performed == Range(i, t.end.at + 1)
  }

  /** Pause and resume preserve meaning: over the first call and all its resumes every action is performed once
      and in order through the first failure, exactly when every delay reached is at least 60 s long. */
  lemma {:induction false} PauseResumePreservesMeaning(w: Workflow, i: nat)
    requires w.Valid() && i <= |w.actions|
    ensures MeansTheSame(w, i, WholeRun(w, i))
    ensures !WholeRun(w, i).end.EndPaused? <==>
      forall j :: i <= j < FirstFailure(w, i) && w.actions[j].Delay? ==>
        w.actions[j].duration.Some? && w.actions[j].duration.value >= 60_000_000_000
    decreases |w.actions| - i
  {
    SegmentIsARange(w, i);
    hide MeansTheSame, Segment, FirstFailure, Fails, Range, IsLong, IsShort;
    var t := Segment(w, i);
    if t.end.EndPaused? && IsLong(w.actions[t.end.at]) {
      PauseResumePreservesMeaning(w, t.end.at + 1);
      ResumedMeansTheSame(w, i, t.end.at, WholeRun(w, t.end.at + 1), WholeRun(w, i));
    } else {
      UnresumedMeansTheSame(w, i);
    }
    assert !WholeRun(w, i).end.EndPaused? <==> NoShortDelay(w, i) by { PausesAtShort(w, i, WholeRun(w, i)); }
    AllLong(w, i);
  }

  lemma PausesAtShort(w: Workflow, i: nat, t: Trace)
    requires w.Valid() && i <= |w.actions| && MeansTheSame(w, i, t)
    ensures !t.end.EndPaused? <==> NoShortDelay(w, i)
  {
    hide NoShortDelay, PerformsMeaning, StopsAtShort;
  }

  lemma AllLong(w: Workflow, i: nat)
    requires w.Valid() && i <= |w.actions|
    ensures NoShortDelay(w, i) <==>
      forall j :: i <= j < FirstFailure(w, i) && w.actions[j].Delay? ==>
        w.actions[j].duration.Some? && w.actions[j].duration.value >= 60_000_000_000
  {
    forall j | i <= j < FirstFailure(w, i) && w.actions[j].Delay? ensures w.actions[j].duration.Some? {
      assert !Fails(w, j);
    }
  }

  lemma UnresumedMeansTheSame(w: Workflow, i: nat)
    requires w.Valid() && i <= |w.actions|
    requires Segment(w, i).end.EndPaused? ==> !IsLong(w.actions[Segment(w, i).end.at])
    ensures MeansTheSame(w, i, Segment(w, i))
  {
    SegmentIsARange(w, i);
    hide Segment;
    var t := Segment(w, i);
    if t.end.EndPaused? { assert !Fails(w, t.end.at); } else { NoDelayNoShort(w, i); }
  }

  lemma ResumedMeansTheSame(w: Workflow, i: nat, at: nat, rest: Trace, t: Trace)
    requires w.Valid() && i <= at < |w.actions| && at < FirstFailure(w, i) && IsLong(w.actions[at])
    requires forall j :: i <= j < at ==> !w.actions[j].Delay?
    requires MeansTheSame(w, at + 1, rest)
    requires t.performed == Range(i, at + 1) + rest.performed && t.end == rest.end
    ensures MeansTheSame(w, i, t)
  {
    NoShortBefore(w, i, at);
    FirstFailureFrom(w, i, at + 1);
    if t.end.EndPaused? { ResumedStops(w, i, at, rest, t); } else { MeaningFrom(w, i, at + 1); }
    hide Meaning, NoShortDelay, StopsAtShort, IsLong, IsShort, Fails, Range, FirstFailure;
    assert t.end.EndPaused? || PerformsMeaning(w, i, t);
  }

  lemma ResumedStops(w: Workflow, i: nat, at: nat, rest: Trace, t: Trace)
    requires w.Valid() && i <= at < |w.actions| && at < FirstFailure(w, i)
    requires forall j :: i <= j <= at ==> !IsShort(w.actions[j])
    requires rest.end.EndPaused? && StopsAtShort(w, at + 1, rest)
    requires t.performed == Range(i, at + 1) + rest.performed && t.end == rest.end
    ensures StopsAtShort(w, i, t)
  {
    FirstFailureFrom(w, i, at + 1);
    RangeConcat(i, at + 1, t.end.at + 1);
    hide Fails, Range, FirstFailure, IsShort;
    forall j | i <= j < t.end.at ensures !IsShort(w.actions[j]) { assert j <= at || at + 1 <= j; }
  }

  lemma MeaningFrom(w: Workflow, i: nat, j: nat)
    requires w.Valid() && i <= j <= |w.actions| && j <= FirstFailure(w, i)
    ensures Range(i, j) + Meaning(w, j) == Meaning(w, i)
  {
    FirstFailureFrom(w, i, j);
    var k := FirstFailure(w, i);
    RangeConcat(i, j, if k < |w.actions| then k + 1 else k);
  }

  /** A stretch without delays, then a long one: what was short before it was not there. */
  lemma NoShortBefore(w: Workflow, i: nat, at: nat)
    requires w.Valid() && i <= at < |w.actions| && at < FirstFailure(w, i) && IsLong(w.actions[at])
    requires forall j :: i <= j < at ==> !w.actions[j].Delay?
    ensures NoShortDelay(w, i) <==> NoShortDelay(w, at + 1)
    ensures forall j :: i <= j <= at ==> !IsShort(w.actions[j])
  {
    FirstFailureFrom(w, i, at + 1);
  }

  lemma {:induction false} FirstFailureFrom(w: Workflow, i: nat, j: nat)
    requires w.Valid() && i <= j <= |w.actions| && j <= FirstFailure(w, i)
    ensures FirstFailure(w, j) == FirstFailure(w, i)
    decreases j - i
  {
    if i < j { FirstFailureFrom(w, i + 1, j); }
  }

  // ---------- the language of stored states ----------

  /** Which state may follow which in a workflow of c conditions and n actions, one delivery per message. */
  predicate MayFollow(c: nat, n: nat, a: RunState, b: RunState) {
    match a
    case Triggered => if c > 0 then b == Condition(0) else b == if n > 0 then ActionStarted(0) else Completed
    case Condition(i) =>
      i < c && (b == Completed || b == Failed || b == if i + 1 < c then Condition(i + 1) else if n > 0
        then ActionStarted(0) else Completed)
    case ActionStarted(i) => i < n && (b == ActionScheduled(i) || b == ActionCompleted(i) || b == Failed)
    case ActionScheduled(i) => i < n && b == ActionCompleted(i)
    case ActionCompleted(i) => i < n && b == if i + 1 < n then ActionStarted(i + 1) else Completed
    case Completed => false
    case Failed => false
  }

  ghost predicate InLanguage(c: nat, n: nat, states: seq<RunState>) {
    forall k :: 0 <= k < |states| - 1 ==> MayFollow(c, n, states[k], states[k + 1])
  }

  /** The state stored right before action i is taken up. */
  predicate Leads(c: nat, n: nat, a: RunState, i: nat) {
    MayFollow(c, n, a, if i < n then ActionStarted(i) else Completed)
  }

  lemma JoinInLanguage(c: nat, n: nat, x: seq<RunState>, y: seq<RunState>)
    requires x != [] && InLanguage(c, n, x) && InLanguage(c, n, [x[|x| - 1]] + y)
    ensures InLanguage(c, n, x + y)
  {
    var z := [x[|x| - 1]] + y;
    forall k | 0 <= k < |x + y| - 1 ensures MayFollow(c, n, (x + y)[k], (x + y)[k + 1]) {
      if k < |x| - 1 { assert MayFollow(c, n, x[k], x[k + 1]); }
      else { assert MayFollow(c, n, z[k - |x| + 1], z[k - |x| + 2]); }
    }
  }

  lemma OneMoreInLanguage(c: nat, n: nat, x: seq<RunState>, s: RunState)
    requires x != [] && InLanguage(c, n, x) && MayFollow(c, n, x[|x| - 1], s)
    ensures InLanguage(c, n, x + [s])
  {
    forall k | 0 <= k < |x| ensures MayFollow(c, n, (x + [s])[k], (x + [s])[k + 1]) {
      if k < |x| - 1 { assert MayFollow(c, n, x[k], x[k + 1]); }
    }
  }

  lemma {:induction false} SegmentInLanguage(w: Workflow, i: nat, c: nat, a: RunState)
    requires w.Valid() && i <= |w.actions| && Leads(c, |w.actions|, a, i)
    ensures InLanguage(c, |w.actions|, [a] + Segment(w, i).states)
    ensures Segment(w, i).states != []
    ensures Segment(w, i).end.EndPaused? ==>
      Segment(w, i).states[|Segment(w, i).states| - 1] == ActionScheduled(Segment(w, i).end.at)
    decreases |w.actions| - i
  {
    hide Fails, InLanguage;
    var n := |w.actions|;
    assert InLanguage(c, n, [a]) by { SingletonInLanguage(c, n, a); }
    if i >= n {
      OneMoreInLanguage(c, n, [a], Completed);
    } else {
      OneMoreInLanguage(c, n, [a], ActionStarted(i));
      var started := [a] + [ActionStarted(i)];
      if Fails(w, i) {
        OneMoreInLanguage(c, n, started, Failed);
        assert started + [Failed] == [a] + [ActionStarted(i), Failed];
      } else if w.actions[i].Delay? {
        OneMoreInLanguage(c, n, started, ActionScheduled(i));
        assert started + [ActionScheduled(i)] == [a] + [ActionStarted(i), ActionScheduled(i)];
      } else {
        var rest := Segment(w, i + 1).states;
        OneMoreInLanguage(c, n, started, ActionCompleted(i));
        SegmentInLanguage(w, i + 1, c, ActionCompleted(i));
        JoinInLanguage(c, n, started + [ActionCompleted(i)], rest);
        assert [a] + ([ActionStarted(i), ActionCompleted(i)] + rest) == started + [ActionCompleted(i)] + rest;
      }
    }
  }

  lemma SingletonInLanguage(c: nat, n: nat, a: RunState)
    ensures InLanguage(c, n, [a])
  {
  }

  /** Every state sequence of a single-delivery run is in the language: each state at most once, in order, with
      the delay completed before the next action starts. */
  lemma {:induction false} WholeRunInLanguage(w: Workflow, i: nat, c: nat, a: RunState)
    requires w.Valid() && i <= |w.actions| && Leads(c, |w.actions|, a, i)
    ensures InLanguage(c, |w.actions|, [a] + WholeRun(w, i).states)
    decreases |w.actions| - i
  {
    hide InLanguage, Segment, Fails, IsLong;
    SegmentInLanguage(w, i, c, a);
    var t := Segment(w, i);
    if t.end.EndPaused? && IsLong(w.actions[t.end.at]) {
      var at := t.end.at;
      var rest := WholeRun(w, at + 1).states;
      WholeRunInLanguage(w, at + 1, c, ActionCompleted(at));
      assert ([a] + t.states)[|t.states|] == t.states[|t.states| - 1];
      OneMoreInLanguage(c, |w.actions|, [a] + t.states, ActionCompleted(at));
      JoinInLanguage(c, |w.actions|, [a] + t.states + [ActionCompleted(at)], rest);
      assert [a] + (t.states + [ActionCompleted(at)] + rest) == [a] + t.states + [ActionCompleted(at)] + rest;
    }
  }
}
