/** How runs advance in the whole engine, duplicates and failures included: the language of stored states, the indices,
    and which actions are performed again. What the theorems need to remember of a run is kept in a log beside it. */
module ProtocolProgress {
  import opened Domain
  import opened Options
  import opened RedisLists
  import opened Remote
  import opened Protocol
  import opened ProtocolSafety
  import opened ProtocolRuns
  import Executor
  import Sched = SchedulerSteps

  /** Action `index` of a run performed by the call that stored the ACTION_index_STARTED version with this stamp. */
  datatype Performance = Performance(run: RunId, index: nat, stamp: int)

  /** For each version stored by resumeWorkflow's own write, its stamp and the job of the message; and the actions
      performed, in order. */
  datatype Log = Log(resumed: map<Stamp, Id>, performed: seq<Performance>)

  function ResumedJob(body: Message): Id { if body.Resume? then body.job else "" }

  function Logged(log: Log, s: State, l: Label): Log
    requires Possible(s, l)
  {
    if !l.Work? then log
    else
      var x := s.calls[l.call];
      if x.pc == Loaded && Applied(s, l.call, l.choice)
      then log.(resumed := log.resumed[(x.run.runId, l.choice.stamp) := ResumedJob(x.body)])
      else if x.pc.Acting? then log.(performed := log.performed
        + [Performance(x.run.runId, x.pc.index, x.run.updatedAt)])
      else log
  }

  /** The log of the first n steps of a run. */
  ghost function LogOf(states: seq<State>, labels: seq<Label>, n: nat): Log
    requires IsRun(states, labels) && n < |states|
  {
    if n == 0 then Log(map[], []) else Logged(LogOf(states, labels, n - 1), states[n - 1], labels[n - 1])
  }

  // ---------- the language of stored states ----------

  /** The state a run is stored in before its action i, or its completion, is taken up. */
  function BeforeAction(w: Workflow, i: nat): RunState {
    if i > 0 then ActionCompleted(i - 1) else if w.conditions > 0 then Condition(w.conditions - 1) else Triggered
  }

  /** Which state may be stored over which by any write but resumeWorkflow's: as in a run without failures, except that
      a pause is left only when its action log row could not be updated. */
  predicate Follows(w: Workflow, a: RunState, b: RunState) {
    if a.ActionScheduled? then a.index < |w.actions| && b == Failed
    else Executor.MayFollow(w.conditions, |w.actions|, a, b)
  }

  /** The indices belong to the state. */
  predicate Aligned(run: Run) {
    match run.state
    case Triggered => run.evalIndex == 0 && run.actionIndex == 0
    case Condition(i) => run.evalIndex == i && run.actionIndex == 0
    case ActionStarted(i) => run.actionIndex == i
    case ActionScheduled(i) => run.actionIndex == i
    case ActionCompleted(i) => run.actionIndex == i
    case _ => true
  }

  /** The state of the record a call holds at each position. */
  predicate PcOk(w: Workflow, pc: Pc, state: RunState) {
    match pc
    case Conditions(i) => i <= w.conditions && state == if i == 0 then Triggered else Condition(i - 1)
    case Evaluating(i) => i < w.conditions && state == Condition(i)
    case Stopping(change) => state.Condition? && state.index < w.conditions
      && (change.MarkCompleted? || change.MarkFailed?)
    case Actions(i) => i <= |w.actions| && state == BeforeAction(w, i)
    case Logging(i) => i < |w.actions| && state == ActionStarted(i)
    case Acting(i) => i < |w.actions| && state == ActionStarted(i)
    case Pushing(i, _) => i < |w.actions| && state == ActionStarted(i)
    case Pausing(i, _) => i < |w.actions| && state == ActionStarted(i)
    case Marking(i) => i < |w.actions| && state == ActionStarted(i)
    case PauseLogging => state.ActionScheduled? && state.index < |w.actions|
    case Failing => (state.ActionStarted? || state.ActionScheduled?) && state.index < |w.actions|
    case Finishing => state == BeforeAction(w, |w.actions|)
    case _ => true
  }

  /** A write of a call past its start follows the language and keeps the indices aligned. */
  lemma WriteFollows(w: Workflow, x: Call, t: int)
    requires PcOk(w, x.pc, x.run.state) && Aligned(x.run) && WritesRun(x.pc, w) && x.pc != Loaded
    ensures var after := Apply(x.run, ChangeAt(x), t);
      Follows(w, x.run.state, after.state) && Aligned(after)
        && !(after.state.ActionCompleted? && x.run.state.ActionScheduled?)
  {
  }

  lemma WriteKeepsPcOk(w: Workflow, x: Call, t: int, ok: bool)
    requires PcOk(w, x.pc, x.run.state) && WritesRun(x.pc, w)
    requires x.pc == Loaded ==> x.body.Resume? && x.body.index < |w.actions|
    ensures PcOk(w, AfterWrite(x, ok), Apply(x.run, ChangeAt(x), t).state)
  {
  }

  lemma OtherKeepsPcOk(w: Workflow, pc: Pc, state: RunState, c: Choice)
    requires PcOk(w, pc, state) && !WritesRun(pc, w) && HoldsRun(pc) && !pc.Acting? && !pc.Pushing?
    ensures PcOk(w, AfterOther(pc, c), state)
  {
  }

  // ---------- the invariant ----------

  ghost predicate CallsProgress(s: State) {
    forall c :: c in s.calls && HoldsRun(s.calls[c].pc) ==> CallProgress(s, s.calls[c])
  }

  ghost predicate CallProgress(s: State, x: Call) {
    PcOk(Plan(s, x.run.runId), x.pc, x.run.state) && Aligned(x.run)
  }

  /** One version after another: resumed over anything, or following the language. */
  ghost predicate NextOk(w: Workflow, a: Run, b: Run, resumed: bool) {
    if resumed then b.state.ActionCompleted? && b.state.index < |w.actions|
    else Follows(w, a.state, b.state)
  }

  ghost predicate VersionsOk(w: Workflow, r: RunId, h: seq<Run>, resumed: map<Stamp, Id>) {
    && h != [] && h[0].state == Triggered
    && (forall k :: 0 <= k < |h| ==> Aligned(h[k]))
    && (forall k :: 0 <= k < |h| - 1 ==> NextOk(w, h[k], h[k + 1], (r, h[k + 1].updatedAt) in resumed))
  }

  ghost predicate StoreProgress(s: State, log: Log) {
    && (forall r :: r in s.hist ==> VersionsOk(Plan(s, r), r, s.hist[r], log.resumed))
    && log.resumed.Keys <= s.used
  }

  ghost predicate Progress(s: State, log: Log) { CallsProgress(s) && StoreProgress(s, log) }

  // ---------- every step keeps it ----------

  lemma BeginPlans(s: State, call: nat, c: Choice)
    requires CanWork(s, call, c) && s.calls[call].pc == Begin
    ensures forall r :: r in s.plans && r in s.hist ==> Plan(WorkStep(s, call, c), r) == Plan(s, r)
  {
    hide Sched.Enabled, Sched.Step, ActStep, PushStep, PauseStep, Write;
  }

  lemma ActPlans(s: State, call: nat, i: nat, c: Choice)
    requires CanWork(s, call, c) && s.calls[call].pc == Acting(i)
    ensures ActStep(s, call, i, c).plans == s.plans
  {
    hide Sched.Enabled, Sched.Step;
  }

  lemma OtherPlans(s: State, call: nat, c: Choice)
    requires CanWork(s, call, c) && s.calls[call].pc != Begin && !s.calls[call].pc.Acting?
    ensures WorkStep(s, call, c).plans == s.plans
  {
    hide Sched.Enabled, Sched.Step, BeginStep, ActStep;
  }

  lemma WorkPlans(s: State, call: nat, c: Choice)
    requires CanWork(s, call, c) && s.calls[call].pc != Begin
    ensures WorkStep(s, call, c).plans == s.plans
  {
    hide Sched.Enabled, Sched.Step, BeginStep, ActStep, PushStep, PauseStep, Write, Goto;
    if s.calls[call].pc.Acting? { ActPlans(s, call, s.calls[call].pc.index, c); } else { OtherPlans(s, call, c); }
  }

  // Authors: only storing a pause notes one, under its own stamp.

  ghost predicate AuthorFrame(s: State, t: State, call: nat, c: Choice)
    requires call in s.calls
  {
    var key := (s.calls[call].run.runId, c.stamp);
    t.author == s.author || (key !in s.used && key in t.author && t.author == s.author[key := t.author[key]])
  }

  lemma QuietAuthor(s: State, call: nat, c: Choice)
    requires CanWork(s, call, c) && !s.calls[call].pc.Pausing?
    ensures WorkStep(s, call, c).author == s.author
  {
    hide Sched.Step, Sched.Enabled, BeginStep, ActStep, PushStep, PauseStep;
    var pc := s.calls[call].pc;
    if pc == Begin { BeginAuthor(s, call, c); }
    else if pc.Acting? { ActAuthor(s, call, pc.index, c); }
    else if pc.Pushing? { PushAuthor(s, call, pc.index, pc.job, c); }
  }

  lemma WorkAuthor(s: State, call: nat, c: Choice)
    requires CanWork(s, call, c) && FreshStamp(s, call, c)
    ensures AuthorFrame(s, WorkStep(s, call, c), call, c)
  {
    hide Sched.Step, Sched.Enabled, BeginStep, ActStep, PushStep, PauseStep, Write, Goto;
    var pc := s.calls[call].pc;
    if pc.Pausing? { PauseAuthor(s, call, pc.index, pc.scheduled, c); } else { QuietAuthor(s, call, c); }
  }

  lemma BeginAuthor(s: State, call: nat, c: Choice)
    requires CanWork(s, call, c) && s.calls[call].pc == Begin
    ensures BeginStep(s, call, c).author == s.author
  {
    hide Sched.Enabled;
    if s.calls[call].body.Resume? { ReadAuthor(s, call, c); }
  }

  lemma ReadAuthor(s: State, call: nat, c: Choice)
    requires CanWork(s, call, c) && s.calls[call].pc == Begin && s.calls[call].body.Resume?
    ensures BeginStep(s, call, c).author == s.author
  {
    hide Sched.Enabled;
  }

  lemma ActAuthor(s: State, call: nat, i: nat, c: Choice)
    requires CanWork(s, call, c) && s.calls[call].pc == Acting(i)
    ensures ActStep(s, call, i, c).author == s.author
  {
    hide Sched.Enabled, Sched.Step;
  }

  lemma PushAuthor(s: State, call: nat, i: nat, job: Id, c: Choice)
    requires CanWork(s, call, c) && s.calls[call].pc == Pushing(i, job)
    ensures PushStep(s, call, i, job, c).author == s.author
  {
    hide Sched.Enabled, Sched.Step;
  }

  lemma PauseAuthor(s: State, call: nat, i: nat, scheduled: Option<Id>, c: Choice)
    requires CanWork(s, call, c) && s.calls[call].pc == Pausing(i, scheduled) && FreshStamp(s, call, c)
    ensures AuthorFrame(s, PauseStep(s, call, i, scheduled, c), call, c)
    ensures Applied(s, call, c) && scheduled.Some? ==>
      PauseStep(s, call, i, scheduled, c).author == s.author[(s.calls[call].run.runId, c.stamp) := scheduled.value]
  {
    hide Sched.Enabled, Sched.Step;
  }

  lemma TickAuthor(s: State, l: Sched.Label)
    requires Possible(s, Tick(l))
    ensures Step(s, Tick(l)).author == s.author
  {
    hide Sched.Enabled, Sched.Step, WorkStep;
  }

  /** Every other stamp is logged as resumed in both or in neither. */
  ghost predicate SameBut(resumed: map<Stamp, Id>, more: map<Stamp, Id>, stamp: Stamp) {
    forall k :: k != stamp ==> (k in resumed <==> k in more)
  }

  lemma AppendVersion(w: Workflow, r: RunId, h: seq<Run>, b: Run, resumed: map<Stamp, Id>, more: map<Stamp, Id>,
      used: set<Stamp>)
    requires HistoryOk(r, h, used) && VersionsOk(w, r, h, resumed) && (r, b.updatedAt) !in used
    requires SameBut(resumed, more, (r, b.updatedAt))
    requires NextOk(w, Last(h), b, (r, b.updatedAt) in more) && Aligned(b)
    ensures VersionsOk(w, r, h + [b], more)
  {
    hide Aligned, Follows, Extends;
    var next := h + [b];
    forall k | 0 <= k < |next| ensures Aligned(next[k]) { assert k < |h| ==> next[k] == h[k]; }
    forall k | 0 <= k < |next| - 1 ensures NextOk(w, next[k], next[k + 1], (r, next[k + 1].updatedAt) in more) {
      if k < |h| - 1 { assert NextOk(w, h[k], h[k + 1], (r, h[k + 1].updatedAt) in resumed); }
    }
  }

  lemma OldVersions(w: Workflow, r: RunId, h: seq<Run>, resumed: map<Stamp, Id>, more: map<Stamp, Id>, used: set<Stamp>,
      unused: Stamp)
    requires HistoryOk(r, h, used) && VersionsOk(w, r, h, resumed) && unused !in used
    requires SameBut(resumed, more, unused)
    ensures VersionsOk(w, r, h, more)
  {
    hide Aligned, Follows, Extends;
    forall k | 0 <= k < |h| - 1 ensures NextOk(w, h[k], h[k + 1], (r, h[k + 1].updatedAt) in more) {
      assert NextOk(w, h[k], h[k + 1], (r, h[k + 1].updatedAt) in resumed);
    }
  }

  /** The new version, if there is one, is a proper next one. */
  lemma WriteIsNext(s: State, log: Log, call: nat, c: Choice)
    requires Inv(s) && Progress(s, log) && CanWork(s, call, c) && FreshStamp(s, call, c)
    requires s.calls[call].pc != Begin && Writing(s, call)
    ensures var x, w := s.calls[call], Plan(s, s.calls[call].run.runId);
      var after := Apply(x.run, ChangeAt(x), c.stamp);
      && Aligned(after) && NextOk(w, x.run, after, x.pc == Loaded)
      && forall ok :: PcOk(w, AfterWrite(x, ok), after.state)
  {
    hide Inv, Progress, FreshStamp, Sched.Enabled;
    WritingHolds(s, call);
    var x := s.calls[call];
    var w := Plan(s, x.run.runId);
    if x.pc == Loaded { ResumeIsInPlan(s, call); }
    assert CallProgress(s, x) by { InProgress(s, log, call); }
    WriteKeepsPcOk(w, x, c.stamp, true);
    WriteKeepsPcOk(w, x, c.stamp, false);
    if x.pc != Loaded { WriteFollows(w, x, c.stamp); }
  }

  lemma InProgress(s: State, log: Log, call: nat)
    requires Progress(s, log) && call in s.calls && HoldsRun(s.calls[call].pc)
    ensures CallProgress(s, s.calls[call])
  {
  }

  lemma ResumeIsInPlan(s: State, call: nat)
    requires Inv(s) && call in s.calls && s.calls[call].pc == Loaded
    ensures var x := s.calls[call]; x.body.Resume? && x.body.index < |Plan(s, x.run.runId).actions|
  {
    var x := s.calls[call];
    assert CallOk(s, x);
    assert JobOk(s, s.jobs[x.body.job]);
  }

  /** What a step past Begin leaves of one run's history. */
  lemma OneRunKeepsVersions(s: State, t: State, log: Log, more: map<Stamp, Id>, call: nat, c: Choice, r: RunId)
    requires Inv(s) && Progress(s, log) && CanWork(s, call, c) && FreshStamp(s, call, c) && s.calls[call].pc != Begin
    requires call in t.calls && StoreFrame(s, t, call, c) && r in s.hist
    requires var x := s.calls[call];
      more == if x.pc == Loaded && Applied(s, call, c) then log.resumed[(x.run.runId, c.stamp) := ResumedJob(x.body)]
        else log.resumed
    ensures r in t.hist && VersionsOk(Plan(s, r), r, t.hist[r], more)
  {
    hide Inv, Progress, Sched.Enabled, FreshStamp, HistoryOk, VersionsOk, NextOk, Aligned, PcOk, Accepts, WritesRun;
    WritingHolds(s, call);
    var x := s.calls[call];
    StoredRun(s, log, r);
    FreshIsUnused(s, call, c);
    if Writing(s, call) && Applied(s, call, c) && r == x.run.runId {
      WriteIsNext(s, log, call, c);
      WrittenOverItself(s, call, c);
      AppendVersion(Plan(s, r), r, s.hist[r], t.calls[call].run, log.resumed, more, s.used);
    } else {
      OldVersions(Plan(s, r), r, s.hist[r], log.resumed, more, s.used, (x.run.runId, c.stamp));
    }
  }

  lemma StoredRun(s: State, log: Log, r: RunId)
    requires Inv(s) && Progress(s, log) && r in s.hist
    ensures HistoryOk(r, s.hist[r], s.used) && VersionsOk(Plan(s, r), r, s.hist[r], log.resumed)
      && log.resumed.Keys <= s.used
  {
  }

  lemma FreshIsUnused(s: State, call: nat, c: Choice)
    requires call in s.calls && FreshStamp(s, call, c) && s.calls[call].pc != Begin
    ensures (s.calls[call].run.runId, c.stamp) !in s.used
  {
  }

  lemma WrittenOverItself(s: State, call: nat, c: Choice)
    requires Inv(s) && call in s.calls && HoldsRun(s.calls[call].pc) && Applied(s, call, c)
    ensures var run := s.calls[call].run;
      run.runId in s.hist && s.hist[run.runId] != [] && Last(s.hist[run.runId]) == run
  {
    InvParts(s, call);
    AcceptedIsCurrent(s, s.calls[call].run);
  }

  lemma WorkKeepsStore(s: State, log: Log, call: nat, c: Choice)
    requires Inv(s) && Progress(s, log) && CanWork(s, call, c) && FreshStamp(s, call, c) && s.calls[call].pc != Begin
    ensures StoreProgress(WorkStep(s, call, c), Logged(log, s, Work(call, c)))
  {
    hide Inv, WorkStep, Sched.Enabled, VersionsOk, PcOk, Accepts, CallsProgress;
    var t, more := WorkStep(s, call, c), Logged(log, s, Work(call, c)).resumed;
    StepFrames(s, call, c);
    WorkPlans(s, call, c);
    WritingHolds(s, call);
    RunIsStored(s, call);
    forall r | r in t.hist ensures VersionsOk(Plan(t, r), r, t.hist[r], more) {
      OneRunKeepsVersions(s, t, log, more, call, c, r);
    }
  }

  lemma WritingHolds(s: State, call: nat)
    requires call in s.calls
    ensures s.calls[call].pc == Loaded ==> Writing(s, call)
    ensures Writing(s, call) ==> HoldsRun(s.calls[call].pc)
  {
  }

  lemma WorkingHolds(s: State, call: nat, c: Choice)
    requires CanWork(s, call, c) && s.calls[call].pc != Begin
    ensures HoldsRun(s.calls[call].pc)
  {
  }

  lemma RunIsStored(s: State, call: nat)
    requires Inv(s) && call in s.calls && HoldsRun(s.calls[call].pc)
    ensures s.calls[call].run.runId in s.hist && s.calls[call].run.runId in s.plans
  {
    InvParts(s, call);
  }

  // Begin: a new run, or a version read.

  lemma BeginKeepsStore(s: State, log: Log, call: nat, c: Choice)
    requires Inv(s) && Progress(s, log) && CanWork(s, call, c) && FreshStamp(s, call, c) && s.calls[call].pc == Begin
    ensures StoreProgress(WorkStep(s, call, c), log)
  {
    hide Inv, WorkStep, Sched.Enabled, Sched.Step, Progress, StoreFrame, VersionsOk, HistoryOk, FreshStamp;
    var t := WorkStep(s, call, c);
    BeginHist(s, call, c);
    BeginPlans(s, call, c);
    StoredHavePlans(s);
    StepFrames(s, call, c);
    forall r | r in t.hist ensures VersionsOk(Plan(t, r), r, t.hist[r], log.resumed) {
      if r in s.hist { StoredRun(s, log, r); } else { FirstVersion(Plan(t, r), r, c.stamp, log.resumed); }
    }
    assert log.resumed.Keys <= t.used by { ResumedAreUsed(s, log); }
  }

  lemma FirstVersion(w: Workflow, r: RunId, t: int, resumed: map<Stamp, Id>)
    ensures VersionsOk(w, r, [NewRun(r, t)], resumed)
  {
  }

  lemma ResumedAreUsed(s: State, log: Log)
    requires Progress(s, log)
    ensures log.resumed.Keys <= s.used
  {
  }

  lemma StoredHavePlans(s: State)
    requires Inv(s)
    ensures forall r :: r in s.hist <==> r in s.plans
  {
  }

  /** The store gains at most a new run, in its first version. */
  lemma BeginHist(s: State, call: nat, c: Choice)
    requires CanWork(s, call, c) && s.calls[call].pc == Begin
    ensures var t := WorkStep(s, call, c);
      && (forall r :: r in s.hist ==> r in t.hist && t.hist[r] == s.hist[r])
      && (forall r :: r in t.hist && r !in s.hist ==>
           s.calls[call].body.Start? && r == c.newRun && t.hist[r] == [NewRun(r, c.stamp)])
  {
    hide Sched.Enabled, Sched.Step, ActStep, PushStep, PauseStep, Write;
  }

  lemma BeginCall(s: State, t: State, log: Log, call: nat, c: Choice)
    requires Inv(s) && Progress(s, log) && CanWork(s, call, c) && s.calls[call].pc == Begin
    requires t == WorkStep(s, call, c) && call in t.calls
    ensures HoldsRun(t.calls[call].pc) ==> CallProgress(t, t.calls[call])
  {
    hide Sched.Enabled, BeginStep, ActStep, PushStep, PauseStep, Write, Goto, Inv, Progress, CallProgress;
    var x := s.calls[call];
    if x.body.Start? { StartCall(s, t, call, c); } else { ReadCall(s, t, log, call, c); }
  }

  lemma StartCall(s: State, t: State, call: nat, c: Choice)
    requires CanWork(s, call, c) && s.calls[call].pc == Begin && s.calls[call].body.Start?
    requires t == BeginStep(s, call, c) && call in t.calls
    ensures HoldsRun(t.calls[call].pc) ==> CallProgress(t, t.calls[call])
  {
    StartedCall(s, t, call, c);
    hide CanWork, BeginStep;
  }

  lemma StartedCall(s: State, t: State, call: nat, c: Choice)
    requires CanWork(s, call, c) && s.calls[call].pc == Begin && s.calls[call].body.Start?
    requires t == BeginStep(s, call, c)
    ensures call in t.calls && t.calls[call].run == NewRun(c.newRun, c.stamp)
    ensures t.calls[call].pc == if c.outcome == Done then Conditions(0) else Return(false)
  {
    hide Sched.Enabled;
  }

  lemma ReadCall(s: State, t: State, log: Log, call: nat, c: Choice)
    requires Inv(s) && Progress(s, log) && CanWork(s, call, c) && s.calls[call].pc == Begin
      && s.calls[call].body.Resume?
    requires t == BeginStep(s, call, c) && call in t.calls
    ensures HoldsRun(t.calls[call].pc) ==> CallProgress(t, t.calls[call])
  {
    RecordRead(s, t, call, c);
    hide CanWork, BeginStep, Inv, Progress, HistoryOk, NextOk;
    var r := s.calls[call].body.run;
    if HoldsRun(t.calls[call].pc) { StoredRun(s, log, r); }
  }

  lemma RecordRead(s: State, t: State, call: nat, c: Choice)
    requires CanWork(s, call, c) && s.calls[call].pc == Begin && s.calls[call].body.Resume?
    requires t == BeginStep(s, call, c)
    ensures call in t.calls
    ensures HoldsRun(t.calls[call].pc) ==>
      var r := s.calls[call].body.run;
      && t.calls[call].pc == Loaded && r in s.hist && c.seen < |s.hist[r]| && t.calls[call].run == s.hist[r][c.seen]
  {
    hide Sched.Enabled, HoldsRun;
    var x := s.calls[call];
    if c.outcome == Done && x.body.run in s.hist {
      assert t.calls[call] == x.(run := s.hist[x.body.run][c.seen], pc := Loaded);
    } else {
      assert t == Goto(s, call, Return(false));
      ReturnHoldsNothing(false);
    }
  }

  lemma ReturnHoldsNothing(ok: bool)
    ensures !HoldsRun(Return(ok))
  {
  }

  // Calls.

  /** A call the step does not touch. */
  lemma OtherCallKeepsProgress(s: State, t: State, x: Call)
    requires CallProgress(s, x) && Plan(t, x.run.runId) == Plan(s, x.run.runId)
    ensures CallProgress(t, x)
  {
  }

  lemma OwnCallKeepsProgress(s: State, log: Log, call: nat, c: Choice)
    requires Inv(s) && Progress(s, log) && CanWork(s, call, c) && FreshStamp(s, call, c) && s.calls[call].pc != Begin
    ensures var t := WorkStep(s, call, c);
      call in t.calls && (HoldsRun(t.calls[call].pc) ==> CallProgress(t, t.calls[call]))
  {
    hide Inv, Progress, WorkStep, Sched.Enabled, Accepts, PcOk, WritesRun;
    var x := s.calls[call];
    var w := Plan(s, x.run.runId);
    StepFrames(s, call, c);
    WorkPlans(s, call, c);
    StepPc(s, call, c);
    WritingHolds(s, call);
    if Writing(s, call) {
      WriteIsNext(s, log, call, c);
      assert PcOk(w, AfterWrite(x, Reported(s, call, c)), Apply(x.run, ChangeAt(x), c.stamp).state);
      assert NextPc(s, call, c) == AfterWrite(x, Reported(s, call, c)) by { WritingPc(s, call, c); }
    } else {
      InProgress(s, log, call);
      IdlePcOk(s, call, c);
    }
  }

  lemma WritingPc(s: State, call: nat, c: Choice)
    requires CanWork(s, call, c) && Writing(s, call)
    ensures NextPc(s, call, c) == AfterWrite(s.calls[call], Reported(s, call, c))
  {
    hide Sched.Enabled, Accepts;
  }

  lemma IdlePcOk(s: State, call: nat, c: Choice)
    requires CanWork(s, call, c) && s.calls[call].pc != Begin && !Writing(s, call) && CallProgress(s, s.calls[call])
    ensures PcOk(Plan(s, s.calls[call].run.runId), NextPc(s, call, c), s.calls[call].run.state)
  {
    hide Sched.Enabled;
    var x := s.calls[call];
    if !x.pc.Acting? && !x.pc.Pushing? { OtherKeepsPcOk(Plan(s, x.run.runId), x.pc, x.run.state, c); }
  }

  // All steps.

  lemma WorkKeepsProgress(s: State, log: Log, call: nat, c: Choice)
    requires Inv(s) && Progress(s, log) && CanWork(s, call, c) && FreshStamp(s, call, c)
    ensures Progress(WorkStep(s, call, c), Logged(log, s, Work(call, c)))
  {
    hide Inv, StoreProgress, CallProgress, WorkStep, Sched.Enabled, Sched.Step, FreshStamp, Applied;
    var t := WorkStep(s, call, c);
    StepFrames(s, call, c);
    if s.calls[call].pc == Begin {
      BeginKeepsStore(s, log, call, c);
      BeginCall(s, t, log, call, c);
    } else {
      WorkKeepsStore(s, log, call, c);
      OwnCallKeepsProgress(s, log, call, c);
    }
    forall d | d in t.calls && HoldsRun(t.calls[d].pc) ensures CallProgress(t, t.calls[d]) {
      if d != call {
        PlanStays(s, call, c, d);
        OtherCallKeepsProgress(s, t, s.calls[d]);
      }
    }
  }

  lemma PlanStays(s: State, call: nat, c: Choice, d: nat)
    requires Inv(s) && CanWork(s, call, c) && d in s.calls && HoldsRun(s.calls[d].pc)
    ensures Plan(WorkStep(s, call, c), s.calls[d].run.runId) == Plan(s, s.calls[d].run.runId)
  {
    RunIsStored(s, d);
    hide Inv, WorkStep, Sched.Enabled, Sched.Step;
    if s.calls[call].pc == Begin { BeginPlans(s, call, c); } else { WorkPlans(s, call, c); }
  }

  lemma StepKeepsProgress(s: State, log: Log, l: Label)
    requires Inv(s) && Progress(s, log) && Enabled(s, l)
    ensures Progress(Step(s, l), Logged(log, s, l))
  {
    hide Inv, Sched.Enabled, Sched.Step, WorkStep, FreshStamp;
    if l.Work? {
      WorkKeepsProgress(s, log, l.call, l.choice);
    } else {
      SideStepKeepsProgress(s, log, l);
    }
  }

  lemma SideStepKeepsProgress(s: State, log: Log, l: Label)
    requires Progress(s, log) && Possible(s, l) && !l.Work?
    ensures Progress(Step(s, l), log)
  {
    hide Step, VersionsOk, PcOk, Aligned;
    SideFrame(s, l);
    var t := Step(s, l);
    forall c | c in t.calls && HoldsRun(t.calls[c].pc) ensures CallProgress(t, t.calls[c]) {
      assert CallProgress(s, s.calls[c]);
    }
  }

  /** A step that is not a call's leaves runs alone; calls end or begin. */
  lemma SideFrame(s: State, l: Label)
    requires Possible(s, l) && !l.Work?
    ensures var t := Step(s, l);
      && t.hist == s.hist && t.plans == s.plans && t.used == s.used && t.jobs == s.jobs
      && (forall c :: c in t.calls ==> (c in s.calls && t.calls[c] == s.calls[c]) || t.calls[c].pc == Begin)
  {
    hide Sched.Enabled, Sched.Step, WorkStep;
    match l
    case Tick(tick) => TickFrame(s, tick);
    case _ =>
  }

  lemma TickFrame(s: State, l: Sched.Label)
    requires Possible(s, Tick(l))
    ensures var t := Step(s, Tick(l));
      t.hist == s.hist && t.plans == s.plans && t.used == s.used && t.jobs == s.jobs && t.calls == s.calls
  {
    hide WorkStep, CanWork;
  }

  lemma {:induction false} RunProgress(states: seq<State>, labels: seq<Label>, n: nat)
    requires IsRun(states, labels) && n < |states|
    ensures Inv(states[n]) && Progress(states[n], LogOf(states, labels, n))
  {
    hide Inv, Progress, Step, Enabled;
    RunInv(states, labels, n);
    if n > 0 {
      RunProgress(states, labels, n - 1);
      StepKeepsProgress(states[n - 1], LogOf(states, labels, n - 1), labels[n - 1]);
      LogStep(states, labels, n);
    } else {
      NoProgressYet();
    }
  }

  lemma LogStep(states: seq<State>, labels: seq<Label>, n: nat)
    requires IsRun(states, labels) && 0 < n < |states|
    ensures Possible(states[n - 1], labels[n - 1])
    ensures LogOf(states, labels, n) == Logged(LogOf(states, labels, n - 1), states[n - 1], labels[n - 1])
    ensures states[n] == Step(states[n - 1], labels[n - 1])
  {
    hide Step, Logged;
  }

  lemma NoProgressYet()
    ensures Progress(INITIAL, Log(map[], []))
  {
  }

  // ---------- the theorems ----------

  /** The language holds in every interleaving, duplicates and failures included: the first version of a run is
      TRIGGERED, and each later one was stored by resumeWorkflow as ACTION_i_COMPLETED, or follows the one before. */
  lemma StatesFollow(states: seq<State>, labels: seq<Label>, n: nat, r: RunId, k: nat)
    requires IsRun(states, labels) && n < |states| && r in states[n].hist && k < |states[n].hist[r]|
    ensures var s, h := states[n], states[n].hist[r];
      var resumed := (r, h[k].updatedAt) in LogOf(states, labels, n).resumed;
      && (k == 0 ==> h[k].state == Triggered)
      && (k > 0 && resumed ==> h[k].state.ActionCompleted? && h[k].state.index < |Plan(s, r).actions|)
      && (k > 0 && !resumed ==> Follows(Plan(s, r), h[k - 1].state, h[k].state))
  {
    hide Inv, Progress, LogOf, Follows, Aligned;
    RunProgress(states, labels, n);
    StoredRun(states[n], LogOf(states, labels, n), r);
    var h, resumed := states[n].hist[r], LogOf(states, labels, n).resumed;
    if k > 0 { assert NextOk(Plan(states[n], r), h[k - 1], h[k], (r, h[k].updatedAt) in resumed); }
  }

  lemma NextIndices(w: Workflow, a: Run, b: Run, resumed: bool)
    requires Extends(a, b) && NextOk(w, a, b, resumed) && Aligned(a) && Aligned(b)
    ensures a.evalIndex <= b.evalIndex
    ensures resumed ==> b.state.ActionCompleted? && b.actionIndex == b.state.index
    ensures !resumed ==> a.actionIndex <= b.actionIndex <= a.actionIndex + 1
    ensures !resumed && b.actionIndex > a.actionIndex ==> b.state.ActionStarted?
  {
  }
}