/** A delay under 60 s is the end of the road: whatever is delivered again, no run gets behind one. */
module ProtocolShortDelays {
  import opened Domain
  import opened Options
  import opened RedisLists
  import opened Remote
  import opened Protocol
  import opened ProtocolSafety
  import opened ProtocolRuns
  import opened ProtocolProgress
  import opened ProtocolActions
  import Sched = SchedulerSteps

  /** The position is not behind action d, nor about to leave it behind. */
  predicate PcBefore(pc: Pc, d: nat) {
    match pc
    case Actions(i) => i <= d
    case Logging(i) => i <= d
    case Acting(i) => i <= d
    case Pushing(i, _) => i <= d
    case Pausing(i, _) => i <= d
    case Marking(i) => i < d
    case Finishing => false
    case _ => true
  }

  /** The version is not behind action d, which is not completed either. */
  predicate VersionBefore(run: Run, d: nat) {
    run.actionIndex <= d && (run.state.ActionCompleted? ==> run.state.index < d)
  }

  predicate ShortAt(s: State, r: RunId, d: nat) { KindAt(s, r, d) == Some(ShortDelay) }

  ghost predicate VersionsStop(s: State) {
    forall r, d: nat, k :: ShortAt(s, r, d) && r in s.hist && 0 <= k < |s.hist[r]| ==> VersionBefore(s.hist[r][k], d)
  }

  ghost predicate CallsStop(s: State) {
    forall c, d: nat :: c in s.calls && HoldsRun(s.calls[c].pc) && ShortAt(s, s.calls[c].run.runId, d) ==>
      PcBefore(s.calls[c].pc, d)
  }

  ghost predicate JobsStop(s: State) {
    forall j, d: nat :: j in s.jobs && ShortAt(s, s.jobs[j].run, d) ==> s.jobs[j].index <= d
  }

  ghost predicate Stops(s: State) { VersionsStop(s) && CallsStop(s) && JobsStop(s) }

  // ---------- the steps of a call ----------

  /** What is short after a step of a call was short before it, but for the plan of a run that the step creates. */
  lemma ShortBefore(s: State, t: State, call: nat, c: Choice, r: RunId, d: nat)
    requires Inv(s) && CanWork(s, call, c) && t == WorkStep(s, call, c) && r in s.hist && ShortAt(t, r, d)
    ensures ShortAt(s, r, d)
  {
    StoredHavePlans(s);
    hide Inv, WorkStep, CanWork;
    if s.calls[call].pc == Begin { BeginPlans(s, call, c); } else { WorkPlans(s, call, c); }
  }

  /** A job is never that of a short delay. */
  lemma JobsAreLong(s: State, j: Id, d: nat)
    requires Inv(s) && j in s.jobs && ShortAt(s, s.jobs[j].run, d)
    ensures s.jobs[j].run in s.hist && s.jobs[j].index != d
  {
    assert JobOk(s, s.jobs[j]);
  }

  lemma WorkStopsJobs(s: State, t: State, call: nat, c: Choice)
    requires Inv(s) && Stops(s) && WorkedTo(s, t, call, c)
    ensures JobsStop(t)
  {
    WorkedJobs(s, t, call, c);
    hide Inv, WorkedTo, ShortAt, VersionsStop, CanWork;
    var x := s.calls[call];
    forall j, d: nat | j in t.jobs && ShortAt(t, t.jobs[j].run, d) ensures t.jobs[j].index <= d {
      if j in s.jobs && t.jobs[j] == s.jobs[j] {
        JobIsStored(s, j);
        ShortBefore(s, t, call, c, s.jobs[j].run, d);
      } else {
        RunIsStored(s, call);
        ShortBefore(s, t, call, c, x.run.runId, d);
      }
    }
  }

  lemma WorkedJobs(s: State, t: State, call: nat, c: Choice)
    requires WorkedTo(s, t, call, c)
    ensures CanWork(s, call, c) && call in s.calls && t == WorkStep(s, call, c) && JobsFrame(s, t, call, c)
  {
    hide WorkStep, WorkFrame, StoreFrame, PcFrame, Grows, FreshStamp, JobsFrame, Sched.Enabled;
  }

  lemma JobIsStored(s: State, j: Id)
    requires Inv(s) && j in s.jobs
    ensures s.jobs[j].run in s.hist
  {
    assert JobOk(s, s.jobs[j]);
  }

  /** Where the next write of a call leaves the run. */
  lemma WriteStops(x: Call, w: Workflow, d: nat, stamp: int)
    requires PcOk(w, x.pc, x.run.state) && WritesRun(x.pc, w) && PcBefore(x.pc, d) && x.run.actionIndex <= d
    requires x.pc == Loaded ==> ResumeIndex(x.body) < d
    ensures VersionBefore(Apply(x.run, ChangeAt(x), stamp), d)
    ensures forall ok :: PcBefore(AfterWrite(x, ok), d)
  {
  }

  /** A call at the start of resumeWorkflow resumes an action before every short delay. */
  lemma ResumesBefore(s: State, call: nat, d: nat)
    requires Inv(s) && JobsStop(s) && call in s.calls && s.calls[call].pc == Loaded
    requires ShortAt(s, s.calls[call].run.runId, d)
    ensures ResumeIndex(s.calls[call].body) < d
  {
    LoadedBody(s, call);
    JobsAreLong(s, s.calls[call].body.job, d);
  }

  lemma WorkStopsVersions(s: State, t: State, log: Log, call: nat, c: Choice)
    requires Inv(s) && Progress(s, log) && Stops(s) && WorkedTo(s, t, call, c)
    ensures VersionsStop(t)
  {
    WorkedParts(s, t, call, c);
    WorkedJobs(s, t, call, c);
    hide Inv, Progress, WorkedTo, ShortAt, CanWork, Grows, VersionBefore, WorkStep, CallsStop, JobsStop;
    forall r, d: nat, k | ShortAt(t, r, d) && r in t.hist && 0 <= k < |t.hist[r]|
      ensures VersionBefore(t.hist[r][k], d) {
      if r in s.hist && k < |s.hist[r]| {
        OldVersion(s, t, r, k);
        ShortBefore(s, t, call, c, r, d);
      } else if s.calls[call].pc == Begin {
        FirstStops(s, t, call, c, r, d, k);
      } else {
        NewVersion(s, t, call, c, r, k);
        NewStops(s, t, log, call, c, d);
      }
    }
  }

  lemma FirstStops(s: State, t: State, call: nat, c: Choice, r: RunId, d: nat, k: nat)
    requires CanWork(s, call, c) && t == WorkStep(s, call, c) && s.calls[call].pc == Begin
    requires r in t.hist && k < |t.hist[r]| && (r !in s.hist || k >= |s.hist[r]|)
    ensures VersionBefore(t.hist[r][k], d)
  {
    hide WorkStep, CanWork;
    BeginHist(s, call, c);
  }

  lemma NewStops(s: State, t: State, log: Log, call: nat, c: Choice, d: nat)
    requires Inv(s) && Progress(s, log) && Stops(s) && CanWork(s, call, c) && t == WorkStep(s, call, c)
    requires s.calls[call].pc != Begin && Writing(s, call) && Applied(s, call, c)
      && ShortAt(t, s.calls[call].run.runId, d)
    ensures VersionBefore(Apply(s.calls[call].run, ChangeAt(s.calls[call]), c.stamp), d)
  {
    WritingHolds(s, call);
    hide Inv, Progress, ShortAt, WorkStep, CanWork, WritesRun, Applied, VersionBefore, PcBefore, PcOk;
    var x := s.calls[call];
    RunIsStored(s, call);
    ShortBefore(s, t, call, c, x.run.runId, d);
    InProgress(s, log, call);
    WrittenOverItself(s, call, c);
    LastStops(s, x.run.runId, d);
    if x.pc == Loaded { ResumesBefore(s, call, d); }
    WriteStops(x, Plan(s, x.run.runId), d, c.stamp);
  }

  lemma LastStops(s: State, r: RunId, d: nat)
    requires VersionsStop(s) && ShortAt(s, r, d) && r in s.hist && s.hist[r] != []
    ensures Last(s.hist[r]).actionIndex <= d
  {
    assert VersionBefore(s.hist[r][|s.hist[r]| - 1], d);
  }

  lemma WorkStopsCalls(s: State, t: State, log: Log, call: nat, c: Choice)
    requires Inv(s) && Progress(s, log) && Stops(s) && WorkedTo(s, t, call, c)
    ensures CallsStop(t)
  {
    CallsAfter(s, t, call, c);
    WorkedJobs(s, t, call, c);
    WorkedPc(s, t, call, c);
    hide Inv, Progress, WorkedTo, ShortAt, CanWork, WorkStep, VersionsStop, JobsStop, NextPc, PcBefore, HoldsRun;
    forall e, d: nat | e in t.calls && HoldsRun(t.calls[e].pc) && ShortAt(t, t.calls[e].run.runId, d)
      ensures PcBefore(t.calls[e].pc, d)
    {
      if e != call {
        RunIsStored(s, e);
        ShortBefore(s, t, call, c, s.calls[e].run.runId, d);
      } else if s.calls[call].pc == Begin {
        BeginsBefore(s, call, c, d);
      } else {
        PcStops(s, t, log, call, c, d);
      }
    }
  }

  lemma WorkedPc(s: State, t: State, call: nat, c: Choice)
    requires WorkedTo(s, t, call, c) && call in t.calls
    ensures CanWork(s, call, c) && t.calls[call].pc == NextPc(s, call, c)
    ensures s.calls[call].pc != Begin ==> t.calls[call].run.runId == s.calls[call].run.runId
  {
    hide WorkStep, WorkFrame, Grows, FreshStamp, JobsFrame, Sched.Enabled, NextPc, Accepts;
  }

  lemma BeginsBefore(s: State, call: nat, c: Choice, d: nat)
    requires CanWork(s, call, c) && s.calls[call].pc == Begin
    ensures PcBefore(NextPc(s, call, c), d)
  {
    hide Sched.Enabled;
  }

  lemma PcStops(s: State, t: State, log: Log, call: nat, c: Choice, d: nat)
    requires Inv(s) && Progress(s, log) && Stops(s) && CanWork(s, call, c) && t == WorkStep(s, call, c)
    requires s.calls[call].pc != Begin && ShortAt(t, s.calls[call].run.runId, d)
    ensures PcBefore(NextPc(s, call, c), d)
  {
    WorkingHolds(s, call, c);
    WritingHolds(s, call);
    hide Inv, Progress, ShortAt, WorkStep, CanWork, WritesRun, VersionsStop, PcBefore, PcOk, NextPc, JobsStop;
    var x := s.calls[call];
    RunIsStored(s, call);
    ShortBefore(s, t, call, c, x.run.runId, d);
    assert PcBefore(x.pc, d);
    if Writing(s, call) {
      if x.pc == Loaded { ResumesBefore(s, call, d); }
      WritingPc(s, call, c);
      AfterWriteStops(x, Plan(s, x.run.runId), d, Reported(s, call, c));
    } else {
      IdleStops(s, call, c, d);
    }
  }

  lemma AfterWriteStops(x: Call, w: Workflow, d: nat, ok: bool)
    requires WritesRun(x.pc, w) && PcBefore(x.pc, d) && (x.pc == Loaded ==> ResumeIndex(x.body) < d)
    ensures PcBefore(AfterWrite(x, ok), d)
  {
  }

  lemma IdleStops(s: State, call: nat, c: Choice, d: nat)
    requires CanWork(s, call, c) && s.calls[call].pc != Begin && !Writing(s, call)
    requires PcBefore(s.calls[call].pc, d) && ShortAt(s, s.calls[call].run.runId, d)
    ensures PcBefore(NextPc(s, call, c), d)
  {
    hide Sched.Enabled;
  }

  // ---------- all steps ----------

  lemma WorkStops(s: State, log: Log, call: nat, c: Choice)
    requires Inv(s) && Progress(s, log) && Stops(s) && CanWork(s, call, c) && FreshStamp(s, call, c)
    ensures Stops(WorkStep(s, call, c))
  {
    hide Inv, Progress, WorkedTo, WorkStep, CanWork, FreshStamp, VersionsStop, CallsStop, JobsStop;
    Worked(s, call, c);
    var t := WorkStep(s, call, c);
    WorkStopsVersions(s, t, log, call, c);
    WorkStopsCalls(s, t, log, call, c);
    WorkStopsJobs(s, t, call, c);
  }

  lemma SideStepStops(s: State, l: Label)
    requires Stops(s) && Possible(s, l) && !l.Work?
    ensures Stops(Step(s, l))
  {
    SideFrame(s, l);
    hide Step, Possible, VersionBefore, PcBefore;
    var t := Step(s, l);
    forall r, d: nat ensures ShortAt(t, r, d) == ShortAt(s, r, d) { }
  }

  lemma StepStops(s: State, log: Log, l: Label)
    requires Inv(s) && Progress(s, log) && Stops(s) && Enabled(s, l)
    ensures Stops(Step(s, l))
  {
    hide Inv, Progress, Stops, WorkStep, FreshStamp, CanWork, Sched.Enabled, Sched.Step;
    if l.Work? { WorkStops(s, log, l.call, l.choice); } else { SideStepStops(s, l); }
  }

  lemma {:induction false} RunStops(states: seq<State>, labels: seq<Label>, n: nat)
    requires IsRun(states, labels) && n < |states|
    ensures Stops(states[n])
  {
    hide Inv, Progress, Stops, Step, Enabled;
    if n > 0 {
      RunStops(states, labels, n - 1);
      RunProgress(states, labels, n - 1);
      StepStops(states[n - 1], LogOf(states, labels, n - 1), labels[n - 1]);
    } else {
      assert Stops(INITIAL) by { NothingToStop(); }
    }
  }

  lemma NothingToStop()
    ensures Stops(INITIAL)
  {
  }

  // ---------- the theorem ----------

  /** Over every run of the engine, duplicates and failures included: no version of a run is behind a delay under 60 s
      of its workflow, or has it completed; no action behind it is performed or scheduled; and the run is COMPLETED only
      by a condition that does not pass, never by its actions. */
  lemma NothingBehindAShortDelay(states: seq<State>, labels: seq<Label>, n: nat, r: RunId, d: nat)
    requires IsRun(states, labels) && n < |states| && r in states[n].hist && ShortAt(states[n], r, d)
    ensures var s, h, performed := states[n], states[n].hist[r], LogOf(states, labels, n).performed;
      && (forall k :: 0 <= k < |h| ==> VersionBefore(h[k], d))
      && (forall k :: 0 < k < |h| && h[k].state == RunState.Completed ==> h[k - 1].state.Condition?)
      && (forall p :: 0 <= p < |performed| && performed[p].run == r ==> performed[p].index <= d)
      && (forall j :: j in s.jobs && s.jobs[j].run == r ==> s.jobs[j].index < d)
  {
    hide Inv, Progress, LogOf, IsRun, EntriesOk, OncePerStart, OwnersDiffer, ActorsOk, JobsStarted, ResumesOk,
      PushersOk,
      VersionsStop, CallsStop, JobsStop, ShortAt, StartedAs;
    var s, log := states[n], LogOf(states, labels, n);
    var h := s.hist[r];
    RunStops(states, labels, n);
    RunActs(states, labels, n);
    assert VersionsStop(s) && JobsStop(s) && EntriesOk(s, log);
    VersionsBefore(s, r, d);
    forall k | 0 < k < |h| && h[k].state == RunState.Completed ensures h[k - 1].state.Condition? {
      CompletedByCondition(states, labels, n, r, d, k);
    }
    forall p | 0 <= p < |log.performed| && log.performed[p].run == r ensures log.performed[p].index <= d {
      PerformedBefore(s, log, p, d);
    }
    forall j | j in s.jobs && s.jobs[j].run == r ensures s.jobs[j].index < d { JobBefore(s, j, d); }
  }

  lemma VersionsBefore(s: State, r: RunId, d: nat)
    requires VersionsStop(s) && ShortAt(s, r, d) && r in s.hist
    ensures forall k :: 0 <= k < |s.hist[r]| ==> VersionBefore(s.hist[r][k], d)
  {
    hide ShortAt, VersionBefore;
  }

  lemma CompletedByCondition(states: seq<State>, labels: seq<Label>, n: nat, r: RunId, d: nat, k: nat)
    requires IsRun(states, labels) && n < |states| && r in states[n].hist && ShortAt(states[n], r, d)
    requires 0 < k < |states[n].hist[r]| && states[n].hist[r][k].state == RunState.Completed
    requires forall l :: 0 <= l < |states[n].hist[r]| ==> VersionBefore(states[n].hist[r][l], d)
    ensures states[n].hist[r][k - 1].state.Condition?
  {
    hide IsRun, LogOf;
    StatesFollow(states, labels, n, r, k);
    assert VersionBefore(states[n].hist[r][k - 1], d);
  }

  lemma PerformedBefore(s: State, log: Log, p: nat, d: nat)
    requires VersionsStop(s) && EntriesOk(s, log) && Progress(s, log) && p < |log.performed|
    requires Inv(s) && ShortAt(s, log.performed[p].run, d)
    ensures log.performed[p].index <= d
  {
    hide Inv, Progress, ShortAt, VersionsOk;
    var e := log.performed[p];
    assert EntryOk(s, e);
    var h := s.hist[e.run];
    var k :| 0 <= k < |h| && h[k].updatedAt == e.stamp && h[k].state == ActionStarted(e.index);
    assert VersionBefore(h[k], d);
    StoredRun(s, log, e.run);
    StartedIsAligned(Plan(s, e.run), e.run, h, log.resumed, k);
  }

  lemma StartedIsAligned(w: Workflow, r: RunId, h: seq<Run>, resumed: map<Stamp, Id>, k: nat)
    requires VersionsOk(w, r, h, resumed) && k < |h| && h[k].state.ActionStarted?
    ensures h[k].actionIndex == h[k].state.index
  {
    assert Aligned(h[k]);
  }

  lemma JobBefore(s: State, j: Id, d: nat)
    requires Inv(s) && JobsStop(s) && j in s.jobs && ShortAt(s, s.jobs[j].run, d)
    ensures s.jobs[j].index < d
  {
    JobsAreLong(s, j, d);
  }
}
