/** Where records come from, in runs whose clock may repeat itself: for each stored version and for each copy a call
    holds, the step whose setter made it. */
module ProtocolOrigins {
  import opened Domain
  import opened Options
  import opened RedisLists
  import opened Remote
  import opened Protocol
  import opened ProtocolSafety
  import opened ProtocolRuns
  import opened ProtocolProgress
  import Sched = SchedulerSteps

  /** For each run, the steps that made its versions; for each call, the step that made the record it holds. */
  datatype Origins = Origins(stored: map<RunId, seq<nat>>, copies: map<nat, nat>)

  function StepsOf(o: Origins, r: RunId): seq<nat> { if r in o.stored then o.stored[r] else [] }

  /** A history that has grown has grown by the version of this step. */
  function Longer(steps: seq<nat>, length: nat, step: nat): seq<nat> {
    if |steps| < length then steps + [step] else steps
  }

  /** What a call's step makes of the record it holds: a new run, a version that was read, or what a setter leaves. */
  function CopyAfter(o: Origins, s: State, call: nat, c: Choice, step: nat): map<nat, nat>
    requires call in s.calls
  {
    var x := s.calls[call];
    if x.pc == Begin && x.body.Resume? then
      if c.seen < |StepsOf(o, x.body.run)| then o.copies[call := StepsOf(o, x.body.run)[c.seen]] else o.copies
    else if x.pc == Begin || Writing(s, call) then o.copies[call := step]
    else o.copies
  }

  function Tracked(o: Origins, s: State, l: Label, step: nat): Origins
    requires Possible(s, l)
  {
    var t := Step(s, l);
    Origins(map r | r in t.hist :: Longer(StepsOf(o, r), |t.hist[r]|, step),
            if l.Work? then CopyAfter(o, s, l.call, l.choice, step) else o.copies)
  }

  ghost function OriginsOf(states: seq<State>, labels: seq<Label>, n: nat): Origins
    requires IsLooseRun(states, labels) && n < |states|
  {
    if n == 0 then Origins(map[], map[]) else Tracked(OriginsOf(states, labels, n - 1), states[n - 1], labels[n - 1],
      n - 1)
  }

  /** Step k, before step n, made this record: its setter read the stamp the record carries. */
  predicate MadeBy(states: seq<State>, labels: seq<Label>, k: nat, run: Run, n: nat) {
    && k < n && k < |labels| && k + 1 < |states| && labels[k].Work? && run.updatedAt == labels[k].choice.stamp
    && labels[k].call in states[k + 1].calls && states[k + 1].calls[labels[k].call].run == run
  }

  ghost predicate VersionsKnown(states: seq<State>, labels: seq<Label>, r: RunId, steps: seq<nat>, h: seq<Run>,
      n: nat) {
    && h != [] && |steps| == |h|
    && forall k :: 0 <= k < |h| ==> h[k].runId == r && MadeBy(states, labels, steps[k], h[k], n)
  }

  ghost predicate StoreKnown(states: seq<State>, labels: seq<Label>, s: State, o: Origins, n: nat) {
    && o.stored.Keys == s.hist.Keys
    && forall r :: r in s.hist ==> VersionsKnown(states, labels, r, o.stored[r], s.hist[r], n)
  }

  ghost predicate CopyKnown(states: seq<State>, labels: seq<Label>, s: State, o: Origins, call: nat, n: nat)
    requires call in s.calls
  {
    call in o.copies && MadeBy(states, labels, o.copies[call], s.calls[call].run, n)
      && s.calls[call].run.runId in s.hist
  }

  ghost predicate CopiesKnown(states: seq<State>, labels: seq<Label>, s: State, o: Origins, n: nat) {
    forall c :: c in s.calls && HoldsRun(s.calls[c].pc) ==> CopyKnown(states, labels, s, o, c, n)
  }

  // ---------- one step ----------

  lemma LaterToo(states: seq<State>, labels: seq<Label>, k: nat, run: Run, n: nat)
    requires MadeBy(states, labels, k, run, n)
    ensures MadeBy(states, labels, k, run, n + 1)
  {
  }

  /** What a step of a call leaves of one run: nothing new, or one version, which is the call's own record. */
  ghost predicate OneMore(s: State, t: State, call: nat, r: RunId)
    requires r in t.hist
  {
    || (r in s.hist && t.hist[r] == s.hist[r])
    || (&& call in t.calls && t.calls[call].run.runId == r
        && t.hist[r] == (if r in s.hist then s.hist[r] else []) + [t.calls[call].run])
  }

  lemma WorkAddsOne(s: State, call: nat, c: Choice, r: RunId)
    requires call in s.calls && CanWork(s, call, c) && r in WorkStep(s, call, c).hist
    ensures OneMore(s, WorkStep(s, call, c), call, r)
  {
    hide CanWork, WorkStep, Accepts, WritesRun;
    StepFrames(s, call, c);
    if s.calls[call].pc == Begin {
      BeginHist(s, call, c);
      if r !in s.hist { CreatedRun(s, call, c); }
    }
  }

  lemma CreatedRun(s: State, call: nat, c: Choice)
    requires CanWork(s, call, c) && s.calls[call].pc == Begin && s.calls[call].body.Start?
    ensures var t := WorkStep(s, call, c);
      call in t.calls && t.calls[call].run == NewRun(c.newRun, c.stamp)
      && (HoldsRun(t.calls[call].pc) ==> c.newRun in t.hist)
  {
    hide Sched.Enabled, ActStep, PushStep, PauseStep, Write;
  }

  lemma ReadRun(s: State, call: nat, c: Choice)
    requires CanWork(s, call, c) && s.calls[call].pc == Begin && s.calls[call].body.Resume?
    ensures var t, r := WorkStep(s, call, c), s.calls[call].body.run;
      call in t.calls && (HoldsRun(t.calls[call].pc) ==>
        r in s.hist && c.seen < |s.hist[r]| && t.calls[call].run == s.hist[r][c.seen] && r in t.hist)
  {
    hide Sched.Enabled, ActStep, PushStep, PauseStep, Write;
  }

  /** The stamp of the call's record is the one its setter has just read. */
  lemma StampRead(s: State, call: nat, c: Choice)
    requires call in s.calls && CanWork(s, call, c)
    requires (s.calls[call].pc == Begin && s.calls[call].body.Start?) || (s.calls[call].pc != Begin && Writing(s, call))
    ensures call in WorkStep(s, call, c).calls && WorkStep(s, call, c).calls[call].run.updatedAt == c.stamp
  {
    hide CanWork, WorkStep, Accepts, WritesRun, ChangeAt;
    StepFrames(s, call, c);
    if s.calls[call].pc == Begin { CreatedRun(s, call, c); }
  }

  /** A step that stores a version has a setter. */
  lemma StoringHasSetter(s: State, call: nat, c: Choice, r: RunId)
    requires call in s.calls && CanWork(s, call, c) && r in WorkStep(s, call, c).hist
    requires !(r in s.hist && WorkStep(s, call, c).hist[r] == s.hist[r])
    ensures (s.calls[call].pc == Begin && s.calls[call].body.Start?) || (s.calls[call].pc != Begin && Writing(s, call))
  {
    hide CanWork, WorkStep, Accepts, WritesRun;
    StepFrames(s, call, c);
    if s.calls[call].pc == Begin { BeginHist(s, call, c); }
  }

  /** What step n, a call's, stands for. */
  ghost predicate WorksAt(states: seq<State>, labels: seq<Label>, n: nat, s: State, t: State, call: nat, c: Choice) {
    && n < |labels| && n + 1 < |states| && labels[n] == Work(call, c) && s == states[n] && t == states[n + 1]
    && call in s.calls && CanWork(s, call, c) && t == WorkStep(s, call, c)
  }

  lemma OneRunKnown(states: seq<State>, labels: seq<Label>, o: Origins, n: nat, s: State, t: State, call: nat,
      c: Choice, r: RunId)
    requires WorksAt(states, labels, n, s, t, call, c) && StoreKnown(states, labels, s, o, n) && r in t.hist
    ensures VersionsKnown(states, labels, r, Longer(StepsOf(o, r), |t.hist[r]|, n), t.hist[r], n + 1)
  {
    hide WorkStep, Writing, CanWork, VersionsKnown, OneMore, Longer;
    WorkAddsOne(s, call, c, r);
    if r in s.hist && t.hist[r] == s.hist[r] {
      VersionsStay(states, labels, r, o.stored[r], s.hist[r], n);
    } else {
      StoringHasSetter(s, call, c, r);
      StampRead(s, call, c);
      AddedOne(s, t, call, r);
      hide StoreKnown;
      StepsBefore(states, labels, s, o, n, r);
      VersionAdded(states, labels, r, StepsOf(o, r), if r in s.hist then s.hist[r] else [], t.hist[r], n);
    }
  }

  lemma StepsBefore(states: seq<State>, labels: seq<Label>, s: State, o: Origins, n: nat, r: RunId)
    requires StoreKnown(states, labels, s, o, n)
    ensures if r in s.hist then s.hist[r] != [] && VersionsKnown(states, labels, r, StepsOf(o, r), s.hist[r], n)
      else StepsOf(o, r) == []
  {
    hide MadeBy;
  }

  lemma WorkKeepsStoreKnown(states: seq<State>, labels: seq<Label>, o: Origins, n: nat, s: State, t: State, call: nat,
      c: Choice)
    requires WorksAt(states, labels, n, s, t, call, c) && StoreKnown(states, labels, s, o, n)
    ensures Possible(s, Work(call, c))
    ensures StoreKnown(states, labels, t, Tracked(o, s, Work(call, c), n), n + 1)
  {
    assert Step(s, Work(call, c)) == t;
    hide WorkStep, CanWork, VersionsKnown, Longer, StepsOf, CopyAfter, Step;
    forall r | r in t.hist ensures VersionsKnown(states, labels, r, Longer(StepsOf(o, r), |t.hist[r]|, n), t.hist[r],
      n + 1) {
      OneRunKnown(states, labels, o, n, s, t, call, c, r);
    }
  }

  // ---------- copies ----------

  lemma OwnCopyKnown(states: seq<State>, labels: seq<Label>, o: Origins, n: nat, s: State, t: State, call: nat,
      c: Choice)
    requires WorksAt(states, labels, n, s, t, call, c) && StoreKnown(states, labels, s, o, n)
    requires HoldsRun(s.calls[call].pc) ==> CopyKnown(states, labels, s, o, call, n)
    ensures call in t.calls
    ensures HoldsRun(t.calls[call].pc) ==>
      var copies := CopyAfter(o, s, call, c, n);
      && call in copies && MadeBy(states, labels, copies[call], t.calls[call].run, n + 1)
        && t.calls[call].run.runId in t.hist
  {
    var x := s.calls[call];
    if x.pc != Begin { WorkingHolds(s, call, c); }
    hide WorkStep, CanWork, Writing, StoreKnown, HoldsRun, VersionsKnown;
    if x.pc == Begin && x.body.Resume? {
      ReadRun(s, call, c);
      if HoldsRun(t.calls[call].pc) { ReadKnown(states, labels, s, o, n, x.body.run, c.seen); }
    } else if x.pc == Begin {
      CreatedRun(s, call, c);
      StampRead(s, call, c);
    } else {
      RunKept(s, call, c);
      if Writing(s, call) { StampRead(s, call, c); }
    }
  }

  lemma ReadKnown(states: seq<State>, labels: seq<Label>, s: State, o: Origins, n: nat, r: RunId, k: nat)
    requires StoreKnown(states, labels, s, o, n) && r in s.hist && k < |s.hist[r]|
    ensures k < |StepsOf(o, r)| && s.hist[r][k].runId == r
    ensures MadeBy(states, labels, StepsOf(o, r)[k], s.hist[r][k], n + 1)
  {
    assert VersionsKnown(states, labels, r, o.stored[r], s.hist[r], n);
  }

  lemma RunKept(s: State, call: nat, c: Choice)
    requires call in s.calls && CanWork(s, call, c) && s.calls[call].pc != Begin
    ensures var t := WorkStep(s, call, c);
      && call in t.calls && t.calls[call].run.runId == s.calls[call].run.runId
      && (!Writing(s, call) ==> t.calls[call].run == s.calls[call].run)
      && (s.calls[call].run.runId in s.hist ==> s.calls[call].run.runId in t.hist)
  {
    hide WorkStep, CanWork, WritesRun, ChangeAt, Accepts;
    StepFrames(s, call, c);
  }

  lemma WorkKeepsCopies(states: seq<State>, labels: seq<Label>, o: Origins, n: nat, s: State, t: State, call: nat,
      c: Choice)
    requires WorksAt(states, labels, n, s, t, call, c)
    requires StoreKnown(states, labels, s, o, n) && CopiesKnown(states, labels, s, o, n)
    ensures Possible(s, Work(call, c))
    ensures CopiesKnown(states, labels, t, Tracked(o, s, Work(call, c), n), n + 1)
  {
    assert Step(s, Work(call, c)) == t;
    OwnCopyKnown(states, labels, o, n, s, t, call, c);
    OtherCalls(s, t, call, c);
    hide WorkStep, CanWork, StoreKnown, MadeBy, Step, HoldsRun, StepsOf, Longer;
    forall d | d in t.calls && HoldsRun(t.calls[d].pc)
      ensures CopyKnown(states, labels, t, Tracked(o, s, Work(call, c), n), d, n + 1)
    {
      if d != call {
        assert CopyKnown(states, labels, s, o, d, n);
        LaterToo(states, labels, o.copies[d], s.calls[d].run, n);
      }
    }
  }

  /** Other calls stand still and no run is lost. */
  lemma OtherCalls(s: State, t: State, call: nat, c: Choice)
    requires call in s.calls && CanWork(s, call, c) && t == WorkStep(s, call, c)
    ensures call in t.calls && t.calls == s.calls[call := t.calls[call]]
    ensures forall r :: r in s.hist ==> r in t.hist
  {
    hide WorkStep, CanWork, WritesRun, Accepts, ChangeAt;
    StepFrames(s, call, c);
    if s.calls[call].pc == Begin { BeginHist(s, call, c); }
  }

  // ---------- all steps ----------

  ghost predicate Known(states: seq<State>, labels: seq<Label>, s: State, o: Origins, n: nat) {
    StoreKnown(states, labels, s, o, n) && CopiesKnown(states, labels, s, o, n)
  }

  lemma SideKeepsKnown(states: seq<State>, labels: seq<Label>, o: Origins, n: nat, s: State, l: Label)
    requires Known(states, labels, s, o, n) && Possible(s, l) && !l.Work?
    ensures Known(states, labels, Step(s, l), Tracked(o, s, l, n), n + 1)
  {
    SideFrame(s, l);
    hide Step, Possible, MadeBy;
    var t := Step(s, l);
    forall r | r in t.hist ensures VersionsKnown(states, labels, r, Longer(StepsOf(o, r), |t.hist[r]|, n), t.hist[r],
      n + 1) {
      VersionsStay(states, labels, r, o.stored[r], s.hist[r], n);
    }
    forall d | d in t.calls && HoldsRun(t.calls[d].pc) ensures CopyKnown(states, labels, t, Tracked(o, s, l, n), d,
      n + 1) {
      assert CopyKnown(states, labels, s, o, d, n);
      LaterToo(states, labels, o.copies[d], s.calls[d].run, n);
    }
  }

  lemma {:induction false} RunKnown(states: seq<State>, labels: seq<Label>, n: nat)
    requires IsLooseRun(states, labels) && n < |states|
    ensures Known(states, labels, states[n], OriginsOf(states, labels, n), n)
  {
    hide Step, Possible, Known, Tracked;
    if n > 0 {
      RunKnown(states, labels, n - 1);
      var s, l, o := states[n - 1], labels[n - 1], OriginsOf(states, labels, n - 1);
      assert Possible(s, l) && states[n] == Step(s, l);
      if l.Work? {
        WorkKeepsKnown(states, labels, o, n - 1, l.call, l.choice);
      } else {
        SideKeepsKnown(states, labels, o, n - 1, s, l);
      }
    } else {
      NothingKnown(states, labels);
    }
  }

  lemma NothingKnown(states: seq<State>, labels: seq<Label>)
    ensures Known(states, labels, INITIAL, Origins(map[], map[]), 0)
  {
  }

  lemma WorkKeepsKnown(states: seq<State>, labels: seq<Label>, o: Origins, n: nat, call: nat, c: Choice)
    requires IsLooseRun(states, labels) && n < |labels| && labels[n] == Work(call, c) && n + 1 < |states|
    requires Known(states, labels, states[n], o, n)
    ensures Possible(states[n], Work(call, c))
    ensures Known(states, labels, states[n + 1], Tracked(o, states[n], Work(call, c), n), n + 1)
  {
    WorkedAt(states, labels, n);
    hide WorkStep, CanWork, StoreKnown, CopiesKnown, Tracked, IsLooseRun;
    WorkKeepsStoreKnown(states, labels, o, n, states[n], states[n + 1], call, c);
    WorkKeepsCopies(states, labels, o, n, states[n], states[n + 1], call, c);
  }

  lemma AddedOne(s: State, t: State, call: nat, r: RunId)
    requires r in t.hist && OneMore(s, t, call, r) && !(r in s.hist && t.hist[r] == s.hist[r])
    ensures call in t.calls && t.hist[r] == (if r in s.hist then s.hist[r] else []) + [t.calls[call].run]
    ensures t.calls[call].run.runId == r
  {
  }

  lemma WorkedAt(states: seq<State>, labels: seq<Label>, n: nat)
    requires IsLooseRun(states, labels) && n < |labels|
    ensures Possible(states[n], labels[n]) && states[n + 1] == Step(states[n], labels[n]) && n + 1 < |states|
    ensures labels[n].Work? ==>
      labels[n].call in states[n].calls && CanWork(states[n], labels[n].call, labels[n].choice)
      && states[n + 1] == WorkStep(states[n], labels[n].call, labels[n].choice)
  {
    hide WorkStep, Sched.Enabled;
  }

  lemma VersionsStay(states: seq<State>, labels: seq<Label>, r: RunId, steps: seq<nat>, h: seq<Run>, n: nat)
    requires VersionsKnown(states, labels, r, steps, h, n)
    ensures Longer(steps, |h|, n) == steps && VersionsKnown(states, labels, r, steps, h, n + 1)
  {
    hide MadeBy;
    forall k | 0 <= k < |h| ensures MadeBy(states, labels, steps[k], h[k], n + 1) {
      LaterToo(states, labels, steps[k], h[k], n);
    }
  }

  lemma VersionAdded(states: seq<State>, labels: seq<Label>, r: RunId, steps: seq<nat>, h: seq<Run>, g: seq<Run>,
      n: nat)
    requires n < |labels| && n + 1 < |states| && labels[n].Work? && labels[n].call in states[n + 1].calls
    requires g == h + [states[n + 1].calls[labels[n].call].run]
    requires var run := states[n + 1].calls[labels[n].call].run;
      run.updatedAt == labels[n].choice.stamp && run.runId == r
    requires if h == [] then steps == [] else VersionsKnown(states, labels, r, steps, h, n)
    ensures VersionsKnown(states, labels, r, Longer(steps, |g|, n), g, n + 1)
  {
    var longer := steps + [n];
    assert Longer(steps, |g|, n) == longer;
    assert MadeBy(states, labels, n, g[|h|], n + 1);
    hide MadeBy;
    forall k | 0 <= k < |g| ensures MadeBy(states, labels, longer[k], g[k], n + 1) {
      if k < |h| { LaterToo(states, labels, steps[k], h[k], n); }
    }
  }
}
