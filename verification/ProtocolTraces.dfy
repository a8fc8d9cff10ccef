/** Orderly runs of the engine are traces of the executor: without crashes and failed calls, and with each job's message
    delivered once and after its pause was stored, every run of every workflow stores the beginning of one of its
    traces. */
module ProtocolTraces {
  import opened Domain
  import opened Options
  import opened RedisLists
  import opened Remote
  import opened Protocol
  import opened ProtocolSafety
  import opened ProtocolRuns
  import opened ProtocolProgress
  import opened ProtocolActions
  import opened ProtocolRestarts
  import opened ExecutorRefinement
  import opened TraceLanguage
  import E = Executor
  import I = ExecutorImpl
  import Sched = SchedulerSteps

  // ---------- the invariant ----------

  predicate AboutToResume(x: Call) { x.body.Resume? && (x.pc == Begin || x.pc == Loaded) }

  /** Until it has written, a call that resumes a run finds it paused by its own job. */
  ghost predicate Resuming(s: State) {
    forall c :: c in s.calls && AboutToResume(s.calls[c]) ==> PausedBy(s, s.calls[c].body.run, s.calls[c].body.job)
  }

  ghost predicate JobsDiffer(s: State) {
    forall c, d :: c in s.calls && d in s.calls && c != d && s.calls[c].body.Resume? && s.calls[d].body.Resume? ==>
      s.calls[c].body.job != s.calls[d].body.job
  }

  ghost predicate FailureOk(s: State, run: Run) {
    Orphan(s, run) || (run.state.ActionStarted? && KindAt(s, run.runId, run.state.index) != Some(ShortDelay))
  }

  /** A call fails with a record that is out of the store, or at an action that may fail. */
  ghost predicate FailingOk(s: State) {
    forall c :: c in s.calls && s.calls[c].pc.Failing? ==> FailureOk(s, s.calls[c].run)
  }

  ghost predicate MarkingOk(s: State) {
    forall c :: c in s.calls && s.calls[c].pc.Marking? ==>
      KindAt(s, s.calls[c].run.runId, s.calls[c].pc.index) == Some(Regular)
  }

  ghost predicate StoreBegins(s: State) {
    forall r :: r in s.hist ==> IsBeginning(Plan(s, r), I.StatesOf(s.hist[r]))
  }

  ghost predicate Tidy(s: State) {
    Resuming(s) && JobsDiffer(s) && FailingOk(s) && MarkingOk(s) && StoreBegins(s)
  }

  /** A pause that is still the stored version keeps its author. */
  lemma PausedStays(s: State, t: State, call: nat, c: Choice, r: RunId, job: Id)
    requires Inv(s) && PausedBy(s, r, job) && call in s.calls && AuthorFrame(s, t, call, c)
    requires r in t.hist && t.hist[r] == s.hist[r]
    ensures PausedBy(t, r, job)
  {
    assert HistoryOk(r, s.hist[r], s.used);
  }

  // ---------- who writes over a pause ----------

  lemma PauseWriters(w: Workflow, pc: Pc, state: RunState)
    requires PcOk(w, pc, state) && state.ActionScheduled? && WritesRun(pc, w)
    ensures pc == Failing || pc == Loaded
  {
  }

  /** Nobody but a call that resumes it writes over a stored pause, and that is the call of its own job. */
  lemma OnlyItsJobResumes(s: State, log: Log, call: nat, c: Choice, r: RunId, job: Id)
    requires Inv(s) && Progress(s, log) && Resuming(s) && FailingOk(s) && CanWork(s, call, c)
    requires s.calls[call].pc != Begin && Writing(s, call) && Applied(s, call, c)
    requires r == s.calls[call].run.runId && PausedBy(s, r, job)
    ensures AboutToResume(s.calls[call]) && s.calls[call].body.job == job && s.calls[call].pc == Loaded
  {
    WritingHolds(s, call);
    hide Inv, Progress, CanWork, WritesRun, PcOk, Applied, KindAt;
    WrittenOverItself(s, call, c);
    InProgress(s, log, call);
    var x := s.calls[call];
    PauseWriters(Plan(s, r), x.pc, x.run.state);
    if x.pc == Failing {
      NotAnOrphan(s, x.run);
    }
    LoadedBody(s, call);
    LoadedRun(s, call);
  }

  lemma NotAnOrphan(s: State, run: Run)
    requires run.runId in s.hist && s.hist[run.runId] != [] && Last(s.hist[run.runId]) == run
    ensures !Orphan(s, run)
  {
  }

  lemma LoadedRun(s: State, call: nat)
    requires Inv(s) && call in s.calls && s.calls[call].pc == Loaded
    ensures s.calls[call].body.Resume? && s.calls[call].body.run == s.calls[call].run.runId
  {
    InvParts(s, call);
  }

  // ---------- the steps of a call keep it ----------

  lemma WorkKeepsResuming(s: State, t: State, log: Log, call: nat, c: Choice)
    requires Inv(s) && Progress(s, log) && Resuming(s) && JobsDiffer(s) && FailingOk(s)
    requires WorkedTo(s, t, call, c)
    ensures Resuming(t)
  {
    CallsAfter(s, t, call, c);
    BodiesStay(s, t, call, c);
    WorkedParts(s, t, call, c);
    WorkedAuthor(s, t, call, c);
    hide Inv, Progress, WorkedTo, CanWork, Grows, FreshStamp, AuthorFrame, WorkStep, PausedBy, FailingOk;
    forall d | d in t.calls && AboutToResume(t.calls[d]) ensures PausedBy(t, t.calls[d].body.run, t.calls[d].body.job) {
      var r, job := s.calls[d].body.run, s.calls[d].body.job;
      assert AboutToResume(s.calls[d]);
      assert PausedBy(s, r, job);
      PauseIsKept(s, t, log, call, c, d);
      PausedStays(s, t, call, c, r, job);
    }
  }

  /** While a call is about to resume a run, no step of a call but its own write changes that run. */
  lemma PauseIsKept(s: State, t: State, log: Log, call: nat, c: Choice, d: nat)
    requires Inv(s) && Progress(s, log) && Resuming(s) && JobsDiffer(s) && FailingOk(s)
    requires WorkedTo(s, t, call, c) && d in s.calls && AboutToResume(s.calls[d]) && d in t.calls
      && AboutToResume(t.calls[d])
    ensures var r := s.calls[d].body.run; r in s.hist && r in t.hist && t.hist[r] == s.hist[r]
  {
    WorkedParts(s, t, call, c);
    WorkedPcs(s, t, call, c);
    hide Inv, Progress, WorkedTo, CanWork, Grows, FreshStamp, WorkStep, FailingOk, Writing, Applied;
    var r, job := s.calls[d].body.run, s.calls[d].body.job;
    assert PausedBy(s, r, job);
    StoreGrows(s, t, r);
    if t.hist[r] != s.hist[r] {
      if s.calls[call].pc == Begin {
        BeginHist(s, call, c);
      } else {
        NewVersion(s, t, call, c, r, |s.hist[r]|);
        OnlyItsJobResumes(s, log, call, c, r, job);
      }
    }
  }

  lemma StoreGrows(s: State, t: State, r: RunId)
    requires Grows(s, t) && r in s.hist
    ensures r in t.hist && (t.hist[r] != s.hist[r] ==> |t.hist[r]| == |s.hist[r]| + 1)
  {
  }

  lemma WorkedPcs(s: State, t: State, call: nat, c: Choice)
    requires WorkedTo(s, t, call, c)
    ensures CanWork(s, call, c) && call in s.calls && call in t.calls && t == WorkStep(s, call, c)
    ensures t.calls[call].pc == NextPc(s, call, c) && t.calls[call].pc != Begin
    ensures s.calls[call].pc != Begin ==> t.calls[call].pc != Loaded
    ensures s.calls[call].pc != Begin ==> t.calls[call].run.runId == s.calls[call].run.runId
  {
    hide WorkStep, Grows, JobsFrame, FreshStamp, Sched.Enabled, NextPc, Accepts;
  }

  lemma BodiesStay(s: State, t: State, call: nat, c: Choice)
    requires WorkedTo(s, t, call, c)
    ensures call in s.calls && call in t.calls && t.calls[call].body == s.calls[call].body
    ensures t.calls[call].pc != Begin && (t.calls[call].pc == Loaded ==> s.calls[call].pc == Begin)
  {
    hide WorkStep, Grows, JobsFrame, FreshStamp, Sched.Enabled, NextPc, Accepts;
  }

  lemma WorkedAuthor(s: State, t: State, call: nat, c: Choice)
    requires WorkedTo(s, t, call, c)
    ensures call in s.calls && AuthorFrame(s, t, call, c)
  {
    hide WorkStep, WorkFrame, StoreFrame, PcFrame, Grows, JobsFrame, FreshStamp, Sched.Enabled, AuthorFrame;
    WorkAuthor(s, call, c);
  }

  lemma WorkKeepsJobsDiffer(s: State, t: State, call: nat, c: Choice)
    requires JobsDiffer(s) && WorkedTo(s, t, call, c)
    ensures JobsDiffer(t)
  {
    CallsAfter(s, t, call, c);
    BodiesStay(s, t, call, c);
    hide WorkedTo;
  }

  /** Where an orderly call gives up. */
  lemma GivesUp(s: State, log: Log, call: nat, c: Choice)
    requires Inv(s) && Progress(s, log) && CanWork(s, call, c) && Orderly(s, Work(call, c))
    requires s.calls[call].pc != Begin && NextPc(s, call, c) == Failing
    ensures || (Writing(s, call) && !Applied(s, call, c))
            || (!Writing(s, call) && s.calls[call].run.state.ActionStarted?
                && KindAt(s, s.calls[call].run.runId, s.calls[call].run.state.index) != Some(ShortDelay))
  {
    if HoldsRun(s.calls[call].pc) { InProgress(s, log, call); }
    hide Inv, Progress, Sched.Enabled, Accepts;
  }

  lemma WorkKeepsFailing(s: State, t: State, log: Log, call: nat, c: Choice)
    requires Inv(s) && Progress(s, log) && FailingOk(s) && WorkedTo(s, t, call, c) && Orderly(s, Work(call, c))
    ensures FailingOk(t)
  {
    CallsAfter(s, t, call, c);
    WorkedPcs(s, t, call, c);
    WorkedParts(s, t, call, c);
    hide Inv, Progress, WorkedTo, CanWork, Grows, FreshStamp, WorkStep, Writing, Applied, NextPc, Orderly, FailureOk;
    forall d | d in t.calls && t.calls[d].pc.Failing? ensures FailureOk(t, t.calls[d].run) {
      if d != call { FailureStays(s, t, call, c, d); } else { OwnFailure(s, t, log, call, c); }
    }
  }

  lemma FailureStays(s: State, t: State, call: nat, c: Choice, d: nat)
    requires Inv(s) && WorkedTo(s, t, call, c) && d in s.calls && s.calls[d].pc.Failing? && FailureOk(s, s.calls[d].run)
    ensures FailureOk(t, s.calls[d].run)
  {
    WorkedParts(s, t, call, c);
    WorkedPcs(s, t, call, c);
    hide Inv, WorkedTo, CanWork, Grows, FreshStamp, WorkStep, NextPc, Orphan;
    if Orphan(s, s.calls[d].run) { OrphanStays(s, t, s.calls[d].run); }
    PlanStays(s, call, c, d);
    RunIsStored(s, d);
    KindStays(s, t, s.calls[d].run.runId);
  }

  lemma KindStays(s: State, t: State, r: RunId)
    requires Plan(t, r) == Plan(s, r)
    ensures forall i: nat :: KindAt(t, r, i) == KindAt(s, r, i)
  {
  }

  lemma OwnFailure(s: State, t: State, log: Log, call: nat, c: Choice)
    requires Inv(s) && Progress(s, log) && WorkedTo(s, t, call, c) && Orderly(s, Work(call, c))
    requires call in t.calls && t.calls[call].pc.Failing?
    ensures FailureOk(t, t.calls[call].run)
  {
    WorkedPcs(s, t, call, c);
    WorkedParts(s, t, call, c);
    BeginsNoFailure(s, call, c);
    WorkingHolds(s, call, c);
    hide Inv, Progress, WorkedTo, CanWork, Grows, FreshStamp, WorkStep, Applied, NextPc, Orderly, Orphan, WritesRun;
    GivesUp(s, log, call, c);
    if Writing(s, call) {
      LostIsOrphan(s, call, c);
    } else {
      OwnRunKept(s, t, call, c);
      PlanStays(s, call, c, call);
      RunIsStored(s, call);
      KindStays(s, t, s.calls[call].run.runId);
    }
  }

  lemma BeginsNoFailure(s: State, call: nat, c: Choice)
    requires CanWork(s, call, c) && NextPc(s, call, c) == Failing
    ensures s.calls[call].pc != Begin
  {
  }

  lemma LostIsOrphan(s: State, call: nat, c: Choice)
    requires Inv(s) && CanWork(s, call, c) && FreshStamp(s, call, c) && Writing(s, call) && !Applied(s, call, c)
    requires call in WorkStep(s, call, c).calls && HoldsRun(WorkStep(s, call, c).calls[call].pc)
    ensures Orphan(WorkStep(s, call, c), WorkStep(s, call, c).calls[call].run)
  {
    hide Inv, CanWork, FreshStamp, WritesRun, Applied, WorkStep, Busy, Orphan;
    UnappliedWriteFences(s, call, c);
  }

  lemma OwnRunKept(s: State, t: State, call: nat, c: Choice)
    requires WorkedTo(s, t, call, c) && call in t.calls && s.calls[call].pc != Begin && !Writing(s, call)
    ensures t.calls[call].run == s.calls[call].run
  {
    hide WorkStep, WorkFrame, PcFrame, Grows, JobsFrame, FreshStamp, Sched.Enabled, Accepts;
  }

  lemma WorkKeepsMarking(s: State, t: State, call: nat, c: Choice)
    requires Inv(s) && MarkingOk(s) && WorkedTo(s, t, call, c)
    ensures MarkingOk(t)
  {
    CallsAfter(s, t, call, c);
    WorkedPcs(s, t, call, c);
    hide Inv, WorkedTo, CanWork, WorkStep, NextPc, KindAt;
    forall d | d in t.calls && t.calls[d].pc.Marking?
      ensures KindAt(t, t.calls[d].run.runId, t.calls[d].pc.index) == Some(Regular)
    {
      if d == call { MarksRegular(s, call, c); }
      PlanStays(s, call, c, d);
      RunIsStored(s, d);
      KindStays(s, t, s.calls[d].run.runId);
    }
  }

  lemma MarksRegular(s: State, call: nat, c: Choice)
    requires CanWork(s, call, c) && NextPc(s, call, c).Marking?
    ensures s.calls[call].pc == Acting(NextPc(s, call, c).index) && HoldsRun(s.calls[call].pc)
    ensures KindAt(s, s.calls[call].run.runId, NextPc(s, call, c).index) == Some(Regular)
  {
    hide Sched.Enabled;
  }

  // ---------- the stored states ----------

  lemma OneStateMore(w: Workflow, h: seq<Run>, b: Run)
    requires h != [] && IsBeginning(w, I.StatesOf(h)) && MayStep(w, Last(h).state, b.state)
    ensures IsBeginning(w, I.StatesOf(h + [b]))
  {
    hide MayStep;
    StatesOfMore(h, b);
    var states, more := I.StatesOf(h), I.StatesOf(h + [b]);
    forall k | 0 <= k < |more| - 1 ensures MayStep(w, more[k], more[k + 1]) {
      if k < |h| - 1 { assert MayStep(w, states[k], states[k + 1]); }
    }
  }

  /** The version an orderly write stores may follow the one it replaces. */
  lemma OrderlyWrite(s: State, log: Log, call: nat, c: Choice)
    requires Inv(s) && Progress(s, log) && Tidy(s) && CanWork(s, call, c)
    requires s.calls[call].pc != Begin && Writing(s, call) && Applied(s, call, c)
    ensures var x := s.calls[call]; MayStep(Plan(s, x.run.runId), x.run.state, Apply(x.run, ChangeAt(x), c.stamp).state)
  {
    WritingHolds(s, call);
    hide Inv, Progress, CanWork, Applied, MayStep, PcOk, JobsDiffer, StoreBegins, WritesRun, PausedBy;
    WrittenOverItself(s, call, c);
    InProgress(s, log, call);
    var x := s.calls[call];
    if x.pc == Loaded {
      assert AboutToResume(x) by { LoadedRun(s, call); }
      ResumedPause(s, call);
      ResumeMayStep(s, call, c.stamp);
    } else {
      assert x.pc.Failing? ==> FailureOk(s, x.run);
      NotAnOrphan(s, x.run);
      PauseKind(s, call);
      WriteMayStep(s, x, c.stamp);
    }
  }

  /** The version a resume is about to replace is the pause of its job's action, a long delay. */
  lemma ResumedPause(s: State, call: nat)
    requires Inv(s) && Resuming(s) && call in s.calls && s.calls[call].pc == Loaded && AboutToResume(s.calls[call])
    requires var run := s.calls[call].run;
      run.runId in s.hist && s.hist[run.runId] != [] && Last(s.hist[run.runId]) == run
    ensures var x := s.calls[call];
      x.run.state == ActionScheduled(x.body.index) && KindAt(s, x.run.runId, x.body.index) == Some(LongDelay)
  {
    var x := s.calls[call];
    var r := x.run.runId;
    LoadedRun(s, call);
    LoadedBody(s, call);
    assert PausedBy(s, r, x.body.job);
    assert PausedOk(s, r, |s.hist[r]| - 1);
  }

  lemma ResumeMayStep(s: State, call: nat, stamp: int)
    requires call in s.calls && s.calls[call].pc == Loaded && s.calls[call].body.Resume?
    requires s.calls[call].run.state == ActionScheduled(s.calls[call].body.index)
    requires KindAt(s, s.calls[call].run.runId, s.calls[call].body.index) == Some(LongDelay)
    ensures var x := s.calls[call]; MayStep(Plan(s, x.run.runId), x.run.state, Apply(x.run, ChangeAt(x), stamp).state)
  {
  }

  lemma PauseKind(s: State, call: nat)
    requires Inv(s) && call in s.calls
    ensures var x := s.calls[call];
      x.pc.Pausing? ==> KindAt(s, x.run.runId, x.pc.index) == Some(ShortDelay)
                        || KindAt(s, x.run.runId, x.pc.index) == Some(LongDelay)
  {
    InvParts(s, call);
  }

  lemma WriteMayStep(s: State, x: Call, stamp: int)
    requires var w := Plan(s, x.run.runId);
      PcOk(w, x.pc, x.run.state) && WritesRun(x.pc, w) && x.pc != Loaded && x.run.runId in s.plans
    requires x.pc.Marking? ==> KindAt(s, x.run.runId, x.pc.index) == Some(Regular)
    requires x.pc.Pausing? ==> KindAt(s, x.run.runId, x.pc.index) == Some(ShortDelay)
                               || KindAt(s, x.run.runId, x.pc.index) == Some(LongDelay)
    requires x.pc.Failing? ==>
      x.run.state.ActionStarted? && KindAt(s, x.run.runId, x.run.state.index) != Some(ShortDelay)
    ensures MayStep(Plan(s, x.run.runId), x.run.state, Apply(x.run, ChangeAt(x), stamp).state)
  {
  }

  lemma WorkKeepsBeginnings(s: State, t: State, log: Log, call: nat, c: Choice)
    requires Inv(s) && Progress(s, log) && Tidy(s) && WorkedTo(s, t, call, c)
    ensures StoreBegins(t)
  {
    WorkedPcs(s, t, call, c);
    WorkedParts(s, t, call, c);
    hide Inv, Progress, Tidy, WorkedTo, CanWork, Grows, FreshStamp, WorkStep, NextPc, IsBeginning, I.StatesOf, Plan;
    forall r | r in t.hist ensures IsBeginning(Plan(t, r), I.StatesOf(t.hist[r])) {
      if r in s.hist { OldRunBegins(s, t, log, call, c, r); } else { NewRunBegins(s, t, call, c, r); }
    }
  }

  lemma NewRunBegins(s: State, t: State, call: nat, c: Choice, r: RunId)
    requires WorkedTo(s, t, call, c) && r in t.hist && r !in s.hist
    requires Inv(s)
    ensures IsBeginning(Plan(t, r), I.StatesOf(t.hist[r]))
  {
    WorkedPcs(s, t, call, c);
    if s.calls[call].pc != Begin { WorkingHolds(s, call, c); RunIsStored(s, call); NoNewRun(s, t, call, c, r); }
    hide Inv, WorkedTo, CanWork, WorkStep, NextPc, Plan;
    if s.calls[call].pc == Begin {
      BeginHist(s, call, c);
      assert I.StatesOf([NewRun(r, c.stamp)]) == [Triggered];
    }
  }

  lemma NoNewRun(s: State, t: State, call: nat, c: Choice, r: RunId)
    requires WorkedTo(s, t, call, c) && s.calls[call].pc != Begin && s.calls[call].run.runId in s.hist
    ensures r in t.hist ==> r in s.hist
  {
    hide WorkStep, WorkFrame, PcFrame, Grows, JobsFrame, FreshStamp, Sched.Enabled, Accepts;
  }

  lemma OldRunBegins(s: State, t: State, log: Log, call: nat, c: Choice, r: RunId)
    requires Inv(s) && Progress(s, log) && Tidy(s) && WorkedTo(s, t, call, c) && r in s.hist
    ensures r in t.hist && IsBeginning(Plan(t, r), I.StatesOf(t.hist[r]))
  {
    WorkedPcs(s, t, call, c);
    WorkedParts(s, t, call, c);
    StoreGrows(s, t, r);
    hide Inv, Progress, WorkedTo, CanWork, Grows, FreshStamp, WorkStep, NextPc, IsBeginning, I.StatesOf, Writing,
      Applied,
      Resuming, JobsDiffer, FailingOk, MarkingOk, MayStep;
    StoredHavePlans(s);
    assert Plan(t, r) == Plan(s, r) by { PlanOfStored(s, call, c, r); }
    assert IsBeginning(Plan(s, r), I.StatesOf(s.hist[r]));
    if t.hist[r] != s.hist[r] {
      if s.calls[call].pc == Begin {
        BeginHist(s, call, c);
      } else {
        NewVersion(s, t, call, c, r, |s.hist[r]|);
        WritingHolds(s, call);
        WrittenOverItself(s, call, c);
        OrderlyWrite(s, log, call, c);
        OneStateMore(Plan(s, r), s.hist[r], Last(t.hist[r]));
        AppendedLast(s, t, r);
      }
    }
  }

  lemma PlanOfStored(s: State, call: nat, c: Choice, r: RunId)
    requires call in s.calls && CanWork(s, call, c) && r in s.hist && r in s.plans
    ensures Plan(WorkStep(s, call, c), r) == Plan(s, r)
  {
    hide WorkStep, CanWork;
    if s.calls[call].pc == Begin { BeginPlans(s, call, c); } else { WorkPlans(s, call, c); }
  }

  lemma AppendedLast(s: State, t: State, r: RunId)
    requires Grows(s, t) && r in s.hist && t.hist[r] != s.hist[r]
    ensures t.hist[r] != [] && t.hist[r] == s.hist[r] + [Last(t.hist[r])]
  {
  }

  // ---------- all steps ----------

  lemma WorkKeepsTidy(s: State, log: Log, call: nat, c: Choice)
    requires Inv(s) && Progress(s, log) && Tidy(s) && CanWork(s, call, c) && FreshStamp(s, call, c)
    requires Orderly(s, Work(call, c))
    ensures Tidy(WorkStep(s, call, c))
  {
    Worked(s, call, c);
    hide Inv, Progress, WorkedTo, WorkStep, CanWork, FreshStamp, Orderly, Resuming, JobsDiffer, FailingOk, MarkingOk,
      StoreBegins;
    var t := WorkStep(s, call, c);
    assert Tidy(s);
    WorkKeepsResuming(s, t, log, call, c);
    WorkKeepsJobsDiffer(s, t, call, c);
    WorkKeepsFailing(s, t, log, call, c);
    WorkKeepsMarking(s, t, call, c);
    WorkKeepsBeginnings(s, t, log, call, c);
  }

  /** What other steps leave as it was; the only new call is one that is delivered. */
  ghost predicate Beside(s: State, t: State, l: Label) {
    && t.hist == s.hist && t.plans == s.plans && t.used == s.used && t.author == s.author
    && forall c :: c in t.calls ==>
         || (c in s.calls && t.calls[c] == s.calls[c])
         || (l.Deliver? && l.message in s.queue && c == s.nextCall && t.calls[c].pc == Begin
             && t.calls[c].body == s.queue[l.message])
  }

  lemma SideBeside(s: State, l: Label)
    requires Possible(s, l) && !l.Work?
    ensures Beside(s, Step(s, l), l)
  {
    hide Sched.Enabled, Sched.Step, WorkStep;
    match l
    case Tick(tick) => TickFrame(s, tick); TickAuthor(s, tick);
    case _ =>
  }

  /** A message that is delivered finds its run paused by its job, and no call with that job. */
  ghost predicate Ready(s: State, l: Label) {
    l.Deliver? && l.message in s.queue && s.queue[l.message].Resume? ==>
      && PausedBy(s, s.queue[l.message].run, s.queue[l.message].job)
      && forall c :: c in s.calls && s.calls[c].body.Resume? ==> s.calls[c].body.job != s.queue[l.message].job
  }

  lemma BesideKeepsTidy(s: State, t: State, l: Label)
    requires Tidy(s) && Beside(s, t, l) && Ready(s, l)
    ensures Tidy(t)
  {
    hide IsBeginning, I.StatesOf, Orphan;
    assert forall r :: Plan(t, r) == Plan(s, r);
    forall c | c in t.calls && AboutToResume(t.calls[c]) ensures PausedBy(t, t.calls[c].body.run, t.calls[c].body.job) {
      assert c in s.calls && t.calls[c] == s.calls[c] ==> PausedBy(s, s.calls[c].body.run, s.calls[c].body.job);
    }
    forall c | c in t.calls && t.calls[c].pc.Failing? ensures FailureOk(t, t.calls[c].run) {
      assert FailureOk(s, s.calls[c].run);
      SameOrphans(s, t, s.calls[c].run);
    }
  }

  lemma SameOrphans(s: State, t: State, run: Run)
    requires t.hist == s.hist && t.used == s.used
    ensures Orphan(t, run) == Orphan(s, run)
  {
  }

  lemma StepKeepsTidy(s: State, log: Log, l: Label)
    requires Inv(s) && Progress(s, log) && Tidy(s) && Enabled(s, l) && Orderly(s, l) && Ready(s, l)
    ensures Tidy(Step(s, l))
  {
    hide Inv, Progress, Tidy, WorkStep, FreshStamp, CanWork, Sched.Enabled, Sched.Step, Orderly, Ready;
    if l.Work? {
      WorkKeepsTidy(s, log, l.call, l.choice);
    } else {
      SideBeside(s, l);
      BesideKeepsTidy(s, Step(s, l), l);
    }
  }

  // ---------- single runs ----------

  /** The job of every call there is was delivered before. */
  ghost predicate JobsKnown(states: seq<State>, labels: seq<Label>, n: nat)
    requires n < |states|
  {
    forall c :: c in states[n].calls && states[n].calls[c].body.Resume? ==>
      Known(states, labels, n, states[n].calls[c].body.job)
  }

  ghost predicate Known(states: seq<State>, labels: seq<Label>, n: nat, job: Id) {
    exists k :: 0 <= k < n && JobDelivered(states, labels, k) == Some(job)
  }

  lemma KnownLater(states: seq<State>, labels: seq<Label>, n: nat, job: Id)
    requires Known(states, labels, n, job) || JobDelivered(states, labels, n) == Some(job)
    ensures Known(states, labels, n + 1, job)
  {
  }

  lemma {:induction false} RunJobsKnown(states: seq<State>, labels: seq<Label>, n: nat)
    requires IsRun(states, labels) && n < |states|
    ensures JobsKnown(states, labels, n)
  {
    hide Step, Possible, Known, JobDelivered, FreshStamp;
    if n > 0 {
      RunJobsKnown(states, labels, n - 1);
      var s, l := states[n - 1], labels[n - 1];
      forall c | c in states[n].calls && states[n].calls[c].body.Resume?
        ensures Known(states, labels, n, states[n].calls[c].body.job)
      {
        BodyFrom(s, l, c);
        if c in s.calls && states[n].calls[c].body == s.calls[c].body {
          KnownLater(states, labels, n - 1, states[n].calls[c].body.job);
        } else {
          DeliversIt(states, labels, n - 1);
          KnownLater(states, labels, n - 1, states[n].calls[c].body.job);
        }
      }
    }
  }

  lemma DeliversIt(states: seq<State>, labels: seq<Label>, k: nat)
    requires k < |labels| && k < |states| && labels[k].Deliver? && labels[k].message in states[k].queue
    requires states[k].queue[labels[k].message].Resume?
    ensures JobDelivered(states, labels, k) == Some(states[k].queue[labels[k].message].job)
  {
  }

  lemma BodyFrom(s: State, l: Label, c: nat)
    requires Possible(s, l) && c in Step(s, l).calls
    ensures || (c in s.calls && Step(s, l).calls[c].body == s.calls[c].body)
            || (l.Deliver? && l.message in s.queue && Step(s, l).calls[c].body == s.queue[l.message])
  {
    hide WorkStep, Sched.Enabled, Sched.Step, NextPc;
    if l.Work? {
      StepPc(s, l.call, l.choice);
      StepFrames(s, l.call, l.choice);
    } else {
      SideBeside(s, l);
    }
  }

  lemma SingleIsReady(states: seq<State>, labels: seq<Label>, k: nat)
    requires IsSingle(states, labels) && k < |labels|
    ensures Ready(states[k], labels[k]) && Orderly(states[k], labels[k])
  {
    RunJobsKnown(states, labels, k);
    assert DeliveredInTime(states, labels, k);
    hide IsRun, PausedBy, Orderly;
    var s, l := states[k], labels[k];
    if l.Deliver? && l.message in s.queue && s.queue[l.message].Resume? {
      assert JobDelivered(states, labels, k) == Some(s.queue[l.message].job);
      forall c | c in s.calls && s.calls[c].body.Resume? ensures s.calls[c].body.job != s.queue[l.message].job {
        assert Known(states, labels, k, s.calls[c].body.job);
      }
    }
  }

  lemma SingleSteps(states: seq<State>, labels: seq<Label>, n: nat)
    requires IsSingle(states, labels) && n < |states|
    ensures IsRun(states, labels) && |states| == |labels| + 1 && states[0] == INITIAL
    ensures n > 0 ==> Enabled(states[n - 1], labels[n - 1]) && states[n] == Step(states[n - 1], labels[n - 1])
  {
    hide Step, Possible, FreshStamp, Orderly, DeliveredInTime;
  }

  lemma {:induction false} RunTidy(states: seq<State>, labels: seq<Label>, n: nat)
    requires IsSingle(states, labels) && n < |states|
    ensures Tidy(states[n])
  {
    hide Inv, Progress, Tidy, Possible, FreshStamp, Step, Orderly, Ready, IsSingle, IsRun, LogOf;
    SingleSteps(states, labels, n);
    if n > 0 {
      RunTidy(states, labels, n - 1);
      RunProgress(states, labels, n - 1);
      SingleIsReady(states, labels, n - 1);
      StepKeepsTidy(states[n - 1], LogOf(states, labels, n - 1), labels[n - 1]);
    } else {
      NothingUntidy();
    }
  }

  lemma NothingUntidy()
    ensures Tidy(INITIAL)
  {
  }

  // ---------- the theorem ----------

  /** The converse of TraceIsARun. In every orderly run of the engine that delivers each job's message once, after the
      pause it belongs to was stored, whatever else goes on beside it: each run has stored the beginning of a trace of
      its workflow, has performed only actions of that trace, and none of them twice. */
  lemma OrderlyRunsAreTraces(states: seq<State>, labels: seq<Label>, n: nat, r: RunId) returns (v: E.Workflow)
    requires IsSingle(states, labels) && n < |states| && r in states[n].hist
    ensures v.Valid() && PlanOf(v) == Plan(states[n], r)
    ensures I.StatesOf(states[n].hist[r]) <= I.RunTrace(v).states
    ensures var performed := LogOf(states, labels, n).performed;
      && (forall p :: 0 <= p < |performed| && performed[p].run == r ==> performed[p].index in I.RunTrace(v).performed)
      && (forall p, q :: 0 <= p < q < |performed| && performed[p].run == r ==> !SameAction(performed[p], performed[q]))
  {
    RunTidy(states, labels, n);
    assert IsRun(states, labels);
    hide IsSingle, IsRun, Resuming, JobsDiffer, FailingOk, MarkingOk, IsBeginning, I.StatesOf, I.RunTrace, PlanOf,
      LogOf;
    var h := I.StatesOf(states[n].hist[r]);
    v := BeginningOfATrace(Plan(states[n], r), h);
    var performed := LogOf(states, labels, n).performed;
    forall p | 0 <= p < |performed| && performed[p].run == r ensures performed[p].index in I.RunTrace(v).performed {
      EachStartPerformsOnce(states, labels, n, p);
      StartIsInTrace(states[n], performed[p], v);
    }
    forall p, q | 0 <= p < q < |performed| && performed[p].run == r ensures !SameAction(performed[p], performed[q]) {
      if SameAction(performed[p], performed[q]) {
        var k, m, l := PerformedAgainOnlyAfterGoingBack(states, labels, n, p, q);
        SameStateTwice(Plan(states[n], r), states[n].hist[r], k, l);
      }
    }
  }

  lemma StartIsInTrace(s: State, e: Performance, v: E.Workflow)
    requires EntryOk(s, e) && v.Valid() && I.StatesOf(s.hist[e.run]) <= I.RunTrace(v).states
    ensures e.index in I.RunTrace(v).performed
  {
    hide I.RunTrace;
    var h := s.hist[e.run];
    var k :| 0 <= k < |h| && h[k].updatedAt == e.stamp && h[k].state == ActionStarted(e.index);
    assert I.StatesOf(h)[k] == ActionStarted(e.index);
    assert I.RunTrace(v).states[k] == ActionStarted(e.index);
    TraceStartsWhatItPerforms(v, e.index);
  }

  lemma SameStateTwice(w: Workflow, h: seq<Run>, k: nat, l: nat)
    requires IsBeginning(w, I.StatesOf(h)) && k < l < |h|
    ensures h[k].state != h[l].state
  {
    hide IsBeginning, I.StatesOf;
    var states := I.StatesOf(h);
    assert states[k] == h[k].state && states[l] == h[l].state;
    if states[k] == states[l] { StatesDiffer(w, states, k, l); }
  }
}
