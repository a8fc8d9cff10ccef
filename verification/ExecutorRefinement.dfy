/** The two models of the executor agree: for every workflow of Executor.dfy, whatever its verdicts and failures, there
    is a run of the engine that delivers each message once and in which no remote call but a failing action fails, and
    it stores the states and performs the actions of that workflow's trace. */
module ExecutorRefinement {
  import opened Domain
  import opened Options
  import opened RedisLists
  import opened Remote
  import opened Protocol
  import opened ProtocolSafety
  import opened ProtocolRuns
  import opened ProtocolProgress
  import opened ProtocolActions
  import E = Executor
  import I = ExecutorImpl
  import Sched = SchedulerSteps

  function KindOf(a: E.Action): ActionKind {
    if E.IsLong(a) then LongDelay else if E.IsShort(a) then ShortDelay else Regular
  }

  function PlanOf(w: E.Workflow): Workflow {
    Workflow(|w.verdicts|, seq(|w.actions|, i requires 0 <= i < |w.actions| => KindOf(w.actions[i])))
  }

  function VerdictOf(v: E.Verdict): Verdict {
    match v
    case Passed => Passed
    case NotPassed => NotPassed
    case Broken => Broken
  }

  // ---------- orderly runs ----------

  /** No crash and no failed remote call; an action itself may fail. */
  predicate Orderly(s: State, l: Label) {
    match l
    case Work(call, c) => c.outcome == Done || (c.outcome == Refused && call in s.calls && s.calls[call].pc.Acting?)
    case Abandon(_) => false
    case DeadLetter(_) => false
    case Tick(Move(_, _, _, outcome)) => outcome == Done
    case Tick(Fetch(_, found, _)) => found
    case Tick(Send(_, outcome)) => outcome == Done
    case _ => true
  }

  /** The run is stored as paused, by the call that pushed this job. */
  ghost predicate PausedBy(s: State, r: RunId, job: Id) {
    && r in s.hist && s.hist[r] != [] && Last(s.hist[r]).state.ActionScheduled?
    && (r, Last(s.hist[r]).updatedAt) in s.author && s.author[(r, Last(s.hist[r]).updatedAt)] == job
  }

  /** The job whose message step k delivers. */
  function JobDelivered(states: seq<State>, labels: seq<Label>, k: nat): Option<Id> {
    if k < |labels| && k < |states| && labels[k].Deliver? && labels[k].message in states[k].queue
      && states[k].queue[labels[k].message].Resume?
    then Some(states[k].queue[labels[k].message].job) else None
  }

  ghost predicate DeliveredInTime(states: seq<State>, labels: seq<Label>, k: nat)
    requires k < |labels| && k < |states|
  {
    && (JobDelivered(states, labels, k).Some? ==>
         PausedBy(states[k], states[k].queue[labels[k].message].run, states[k].queue[labels[k].message].job))
    && (forall j :: 0 <= j < k && JobDelivered(states, labels, k).Some? ==>
         JobDelivered(states, labels, j) != JobDelivered(states, labels, k))
  }

  ghost predicate IsSingle(states: seq<State>, labels: seq<Label>) {
    && IsRun(states, labels)
    && (forall k :: 0 <= k < |labels| ==> Orderly(states[k], labels[k]) && DeliveredInTime(states, labels, k))
  }

  /** No message is delivered twice, and those to come have higher numbers. */
  ghost predicate DeliveredOnce(labels: seq<Label>, next: nat) {
    && (forall k :: 0 <= k < |labels| && labels[k].Deliver? ==> labels[k].message < next)
    && (forall k, l :: 0 <= k < l < |labels| && labels[k].Deliver? && labels[l].Deliver? ==> labels[k] != labels[l])
  }

  datatype Play = Play(states: seq<State>, labels: seq<Label>)

  /** The last state. */
  function Now(p: Play): State {
    if p.states == [] then INITIAL else p.states[|p.states| - 1]
  }

  ghost predicate IsPlay(p: Play) {
    && IsSingle(p.states, p.labels)
    && DeliveredOnce(p.labels, Now(p).nextMessage)
    && (forall k, job :: JobDelivered(p.states, p.labels, k) == Some(job) ==> job in Now(p).jobs)
  }

  /** No message of this job has been delivered. */
  ghost predicate Fresh(p: Play, job: Id) {
    forall k :: JobDelivered(p.states, p.labels, k) != Some(job)
  }

  /** The message, if it resumes a run, comes after the pause of its job, and for the first time. */
  ghost predicate Timely(p: Play, m: nat) {
    m in Now(p).queue && (Now(p).queue[m].Resume? ==>
      && PausedBy(Now(p), Now(p).queue[m].run, Now(p).queue[m].job)
      && Fresh(p, Now(p).queue[m].job) && Now(p).queue[m].job in Now(p).jobs)
  }

  ghost function LogAt(p: Play): Log
    requires IsPlay(p)
  {
    LogOf(p.states, p.labels, |p.labels|)
  }

  /** The indices of the actions performed for a run, in order. */
  function Indices(performed: seq<Performance>, r: RunId): seq<nat> {
    if performed == [] then []
    else
      var last := performed[|performed| - 1];
      Indices(performed[..|performed| - 1], r) + if last.run == r then [last.index] else []
  }

  ghost function Did(p: Play): seq<nat>
    requires IsPlay(p)
  {
    Indices(LogAt(p).performed, 0)
  }

  lemma {:induction false} LogPrefix(states: seq<State>, labels: seq<Label>, more: seq<State>, ls: seq<Label>, n: nat)
    requires IsRun(states, labels) && IsRun(more, ls) && states <= more && labels <= ls && n <= |labels|
    ensures LogOf(more, ls, n) == LogOf(states, labels, n)
  {
    hide Step, Enabled, Logged;
    if n > 0 {
      LogPrefix(states, labels, more, ls, n - 1);
      LogStep(states, labels, n);
      LogStep(more, ls, n);
    }
  }

  // ---------- frames ----------

  /** A call's step leaves the messages alone. */
  lemma WorkMessages(s: State, call: nat, c: Choice)
    requires CanWork(s, call, c)
    ensures WorkStep(s, call, c).nextMessage == s.nextMessage && WorkStep(s, call, c).queue == s.queue
  {
    hide Sched.Step, Sched.Enabled, BeginStep, ActStep, PushStep, PauseStep;
    var pc := s.calls[call].pc;
    if pc == Begin { BeginMessages(s, call, c); }
    else if pc.Acting? { ActMessages(s, call, pc.index, c); }
    else if pc.Pushing? { PushMessages(s, call, pc.index, pc.job, c); }
    else if pc.Pausing? { PauseMessages(s, call, pc.index, pc.scheduled, c); }
  }

  lemma BeginMessages(s: State, call: nat, c: Choice)
    requires CanWork(s, call, c) && s.calls[call].pc == Begin
    ensures var t := BeginStep(s, call, c); t.nextMessage == s.nextMessage && t.queue == s.queue
  {
    hide Sched.Enabled;
    if s.calls[call].body.Resume? { ReadMessages(s, call, c); }
  }

  lemma ReadMessages(s: State, call: nat, c: Choice)
    requires CanWork(s, call, c) && s.calls[call].pc == Begin && s.calls[call].body.Resume?
    ensures var t := BeginStep(s, call, c); t.nextMessage == s.nextMessage && t.queue == s.queue
  {
    hide Sched.Enabled;
  }

  lemma ActMessages(s: State, call: nat, i: nat, c: Choice)
    requires CanWork(s, call, c) && s.calls[call].pc == Acting(i)
    ensures var t := ActStep(s, call, i, c); t.nextMessage == s.nextMessage && t.queue == s.queue
  {
    hide Sched.Enabled, Sched.Step;
  }

  lemma PushMessages(s: State, call: nat, i: nat, job: Id, c: Choice)
    requires CanWork(s, call, c) && s.calls[call].pc == Pushing(i, job)
    ensures var t := PushStep(s, call, i, job, c); t.nextMessage == s.nextMessage && t.queue == s.queue
  {
    hide Sched.Enabled, Sched.Step;
  }

  lemma PauseMessages(s: State, call: nat, i: nat, scheduled: Option<Id>, c: Choice)
    requires CanWork(s, call, c) && s.calls[call].pc == Pausing(i, scheduled)
    ensures var t := PauseStep(s, call, i, scheduled, c); t.nextMessage == s.nextMessage && t.queue == s.queue
  {
    hide Sched.Enabled, Sched.Step;
  }

  lemma MessagesGrow(s: State, l: Label)
    requires Possible(s, l)
    ensures s.nextMessage <= Step(s, l).nextMessage
  {
    hide Sched.Step, Sched.Enabled, WorkStep;
    if l.Work? { WorkMessages(s, l.call, l.choice); }
  }

  // ---------- going on by one step ----------

  ghost predicate Extended(p: Play, q: Play, l: Label) {
    && IsPlay(p) && IsPlay(q) && Possible(Now(p), l) && Now(q) == Step(Now(p), l)
    && p.states <= q.states && q.labels == p.labels + [l] && LogAt(q) == Logged(LogAt(p), Now(p), l)
  }

  /** Jobs are never withdrawn. */
  lemma JobsGrow(s: State, l: Label)
    requires Possible(s, l)
    ensures s.jobs.Keys <= Step(s, l).jobs.Keys
  {
    hide Sched.Step, Sched.Enabled, WorkStep;
    if l.Work? { WorkJobs(s, l.call, l.choice); } else { SideFrame(s, l); }
  }

  lemma SameDeliveries(states: seq<State>, labels: seq<Label>, t: State, l: Label)
    requires |states| == |labels| + 1
    ensures forall k: nat :: k < |labels| ==>
      JobDelivered(states + [t], labels + [l], k) == JobDelivered(states, labels, k)
    ensures JobDelivered(states + [t], labels + [l], |labels|).Some? ==> l.Deliver?
  {
  }

  lemma GoOn(p: Play, l: Label) returns (q: Play)
    requires IsPlay(p) && Enabled(Now(p), l) && Orderly(Now(p), l)
    requires l.Deliver? ==> l !in p.labels && l.message < Now(p).nextMessage && Timely(p, l.message)
    ensures Extended(p, q, l)
  {
    hide Possible, FreshStamp, Step, Logged, PausedBy;
    var t := Step(Now(p), l);
    q := Play(p.states + [t], p.labels + [l]);
    MessagesGrow(Now(p), l);
    JobsGrow(Now(p), l);
    StaysSingle(p, l, t);
    LogStep(q.states, q.labels, |q.labels|);
    LogPrefix(p.states, p.labels, q.states, q.labels, |p.labels|);
    assert IsPlay(q) by { SameDeliveries(p.states, p.labels, t, l); LastDelivery(p, l, t); }
  }

  lemma LastDelivery(p: Play, l: Label, t: State)
    requires IsPlay(p) && (l.Deliver? ==> Timely(p, l.message))
    ensures forall job :: JobDelivered(p.states + [t], p.labels + [l], |p.labels|) == Some(job) ==> job in Now(p).jobs
    ensures forall k: nat :: k > |p.labels| ==> JobDelivered(p.states + [t], p.labels + [l], k) == None
  {
    hide Step, Possible, FreshStamp, PausedBy;
  }

  lemma StaysSingle(p: Play, l: Label, t: State)
    requires IsPlay(p) && Enabled(Now(p), l) && Orderly(Now(p), l) && t == Step(Now(p), l)
    requires l.Deliver? ==> Timely(p, l.message)
    ensures IsSingle(p.states + [t], p.labels + [l])
  {
    hide Possible, FreshStamp, Step, PausedBy, Orderly;
    var states, labels := p.states + [t], p.labels + [l];
    SameDeliveries(p.states, p.labels, t, l);
    hide JobDelivered;
    forall k | 0 <= k < |labels|
      ensures Enabled(states[k], labels[k]) && states[k + 1] == Step(states[k], labels[k])
        && Orderly(states[k], labels[k])
    {
      if k < |p.labels| { assert Enabled(p.states[k], p.labels[k]) && Orderly(p.states[k], p.labels[k]); }
    }
    forall k | 0 <= k < |labels| ensures DeliveredInTime(states, labels, k) {
      if k < |p.labels| { assert DeliveredInTime(p.states, p.labels, k); } else { DeliveredNow(p, l, t); }
    }
  }

  lemma DeliveredNow(p: Play, l: Label, t: State)
    requires IsPlay(p) && (l.Deliver? ==> Timely(p, l.message))
    ensures DeliveredInTime(p.states + [t], p.labels + [l], |p.labels|)
  {
    hide Step, Possible, FreshStamp, PausedBy, Orderly;
    SameDeliveries(p.states, p.labels, t, l);
  }

  lemma FreshStays(p: Play, q: Play, l: Label, job: Id)
    requires Extended(p, q, l) && !l.Deliver? && Fresh(p, job)
    ensures Fresh(q, job)
  {
    hide Step, Possible, FreshStamp, PausedBy, Orderly, LogAt, DeliveredInTime, DeliveredOnce;
    assert q.states == p.states + [Now(q)];
    SameDeliveries(p.states, p.labels, Now(q), l);
  }

  // ---------- one step of the call ----------

  /** Run 0 has stored these states. */
  ghost predicate Stored(s: State, w: E.Workflow, wrote: seq<RunState>) {
    && 0 in s.hist && s.hist[0] != [] && I.StatesOf(s.hist[0]) == wrote && Last(s.hist[0]).runId == 0
    && 0 in s.plans && s.plans[0] == PlanOf(w)
  }

  /** The call stands at this position and holds the stored version. */
  ghost predicate Stage(s: State, w: E.Workflow, call: nat, pc: Pc, wrote: seq<RunState>) {
    Stored(s, w, wrote) && call in s.calls && s.calls[call].pc == pc && s.calls[call].run == Last(s.hist[0])
  }

  ghost predicate Kept(s: State, t: State) {
    t.sched == s.sched && t.jobs == s.jobs && t.queue == s.queue && t.nextMessage == s.nextMessage
  }

  ghost predicate SameMessage(s: State, t: State, call: nat) {
    call in s.calls && call in t.calls && t.calls[call].message == s.calls[call].message
      && t.calls[call].body == s.calls[call].body
  }

  lemma StatesOfMore(h: seq<Run>, run: Run)
    ensures I.StatesOf(h + [run]) == I.StatesOf(h) + [run.state]
  {
    assert (h + [run])[..|h|] == h;
  }

  /** The state the next write stores. */
  function Written(x: Call): RunState { Apply(x.run, ChangeAt(x), 0).state }

  predicate PlainPc(pc: Pc) { pc != Begin && !pc.Return? && !pc.Acting? && !pc.Pushing? }

  lemma CallFrames(s: State, call: nat, c: Choice)
    requires CanWork(s, call, c) && s.calls[call].pc != Begin
    ensures var t := WorkStep(s, call, c);
      && WorkFrame(s, t, call, c) && StoreFrame(s, t, call, c) && PcFrame(s, t, call, c)
      && t.plans == s.plans && t.queue == s.queue && t.nextMessage == s.nextMessage && SameMessage(s, t, call)
  {
    hide WorkFrame, StoreFrame, Sched.Enabled, WorkStep, NextPc;
    StepFrames(s, call, c);
    StepPc(s, call, c);
    WorkPlans(s, call, c);
    WorkMessages(s, call, c);
  }

  lemma StageWrites(s: State, w: E.Workflow, call: nat, pc: Pc, wrote: seq<RunState>, c: Choice)
    requires Stage(s, w, call, pc, wrote) && WritesRun(pc, PlanOf(w)) && c.outcome == Done && (0, c.stamp) !in s.used
    ensures Enabled(s, Work(call, c)) && PlainPc(pc)
    ensures var t := WorkStep(s, call, c);
      && Kept(s, t) && SameMessage(s, t, call)
      && Stage(t, w, call, AfterWrite(s.calls[call], true), wrote + [Written(s.calls[call])])
  {
    hide WorkStep, PlanOf, AfterWrite, ChangeAt, I.StatesOf;
    WritesArePlain(s, call, c);
    CallFrames(s, call, c);
    WriteSucceeds(s, call, c);
    QuietJobs(s, call, c);
    StatesOfMore(s.hist[0], Apply(s.calls[call].run, ChangeAt(s.calls[call]), c.stamp));
    SameStateWritten(s.calls[call].run, ChangeAt(s.calls[call]), c.stamp);
  }

  lemma SameStateWritten(run: Run, change: Change, stamp: int)
    ensures var after := Apply(run, change, stamp);
      after.state == Apply(run, change, 0).state && after.runId == run.runId && after.updatedAt == stamp
  {
  }

  lemma WritesArePlain(s: State, call: nat, c: Choice)
    requires call in s.calls && WritesRun(s.calls[call].pc, Plan(s, s.calls[call].run.runId))
    ensures CanWork(s, call, c) && PlainPc(s.calls[call].pc) && Writing(s, call)
  {
  }

  lemma WriteSucceeds(s: State, call: nat, c: Choice)
    requires CanWork(s, call, c) && Writing(s, call) && c.outcome == Done
    requires s.calls[call].run.runId in s.hist && s.hist[s.calls[call].run.runId] != []
    requires s.calls[call].run == Last(s.hist[s.calls[call].run.runId])
    ensures Applied(s, call, c) && NextPc(s, call, c) == AfterWrite(s.calls[call], true)
  {
    hide Sched.Enabled, AfterWrite;
  }

  lemma StageMoves(s: State, w: E.Workflow, call: nat, pc: Pc, wrote: seq<RunState>, c: Choice)
    requires Stage(s, w, call, pc, wrote) && !WritesRun(pc, PlanOf(w)) && PlainPc(pc) && (0, c.stamp) !in s.used
    ensures Enabled(s, Work(call, c))
    ensures var t := WorkStep(s, call, c);
      && Kept(s, t) && SameMessage(s, t, call) && Stage(t, w, call, AfterOther(pc, c), wrote)
      && t.hist == s.hist && t.author == s.author
  {
    hide WorkStep, PlanOf, AfterWrite, ChangeAt, AfterOther, I.StatesOf;
    CallFrames(s, call, c);
    QuietJobs(s, call, c);
    MovesArePlain(s, call);
    QuietAuthor(s, call, c);
  }

  lemma MovesArePlain(s: State, call: nat)
    requires call in s.calls && !Writing(s, call)
    ensures !s.calls[call].pc.Pausing?
  {
  }

  /** Storing a pause notes its job. */
  lemma StagePauses(s: State, w: E.Workflow, call: nat, i: nat, job: Id, wrote: seq<RunState>, c: Choice)
    requires Stage(s, w, call, Pausing(i, Some(job)), wrote) && c.outcome == Done && (0, c.stamp) !in s.used
    ensures CanWork(s, call, c) && PausedBy(WorkStep(s, call, c), 0, job)
  {
    hide WorkStep, PlanOf, AfterWrite, I.StatesOf;
    CallFrames(s, call, c);
    WriteSucceeds(s, call, c);
    PauseNotes(s, call, i, job, c);
  }

  lemma PauseNotes(s: State, call: nat, i: nat, job: Id, c: Choice)
    requires CanWork(s, call, c) && s.calls[call].pc == Pausing(i, Some(job)) && FreshStamp(s, call, c)
      && Applied(s, call, c)
    ensures WorkStep(s, call, c).author == s.author[(s.calls[call].run.runId, c.stamp) := job]
  {
    hide Sched.Enabled, Applied, Write;
    PauseAuthor(s, call, i, Some(job), c);
  }

  /** Performing an action that schedules nothing. */
  lemma StageActs(s: State, w: E.Workflow, call: nat, i: nat, wrote: seq<RunState>, c: Choice)
    requires Stage(s, w, call, Acting(i), wrote) && (0, c.stamp) !in s.used && c.job !in s.sched.records
    requires KindAt(s, 0, i) != Some(LongDelay) || c.outcome == Refused
    ensures Enabled(s, Work(call, c))
    ensures var t := WorkStep(s, call, c);
      Kept(s, t) && SameMessage(s, t, call) && Stage(t, w, call, AfterAction(KindAt(s, 0, i), i, c), wrote)
  {
    hide WorkStep, PlanOf, AfterAction, I.StatesOf;
    CallFrames(s, call, c);
    NothingScheduled(s, call, i, c);
  }

  lemma NothingScheduled(s: State, call: nat, i: nat, c: Choice)
    requires CanWork(s, call, c) && s.calls[call].pc == Acting(i)
    requires KindAt(s, s.calls[call].run.runId, i) != Some(LongDelay) || c.outcome == Refused
    ensures WorkStep(s, call, c).sched == s.sched && WorkStep(s, call, c).jobs == s.jobs
  {
    hide Sched.Enabled, Sched.Step, PushStep, PauseStep, BeginStep;
  }

  /** Performing a long delay creates its job. */
  lemma StageSchedules(s: State, w: E.Workflow, call: nat, i: nat, wrote: seq<RunState>, c: Choice)
    requires Stage(s, w, call, Acting(i), wrote) && (0, c.stamp) !in s.used && c.job !in s.sched.records
    requires KindAt(s, 0, i) == Some(LongDelay) && c.outcome == Done
    ensures Enabled(s, Work(call, c))
    ensures var t := WorkStep(s, call, c);
      && t.sched == s.sched.(records := s.sched.records + {c.job})
      && c.job in t.jobs && t.jobs[c.job].run == 0 && t.jobs[c.job].index == i
      && SameMessage(s, t, call) && Stage(t, w, call, Pushing(i, c.job), wrote)
  {
    hide WorkStep, PlanOf, I.StatesOf;
    CallFrames(s, call, c);
    JobScheduled(s, call, i, c);
  }

  lemma JobScheduled(s: State, call: nat, i: nat, c: Choice)
    requires CanWork(s, call, c) && s.calls[call].pc == Acting(i) && c.outcome == Done
    requires KindAt(s, s.calls[call].run.runId, i) == Some(LongDelay)
    ensures var t := WorkStep(s, call, c);
      t.sched == s.sched.(records := s.sched.records + {c.job})
        && t.jobs == s.jobs[c.job := Job(s.calls[call].run.runId, i, s.calls[call].run.updatedAt)]
    ensures NextPc(s, call, c) == Pushing(i, c.job)
  {
    hide PushStep, PauseStep, BeginStep;
  }

  /** The bucket the jobs of this play go to: all are asked for time 0 at time 0. */
  const BUCKET := Sched.Bucket(1)

  predicate Calm(sched: Sched.State) { Items(sched.lists, BUCKET) == [] }

  lemma StagePushes(s: State, w: E.Workflow, call: nat, i: nat, job: Id, wrote: seq<RunState>, c: Choice)
    requires Stage(s, w, call, Pushing(i, job), wrote) && (0, c.stamp) !in s.used && Calm(s.sched)
    requires job in s.sched.records && job !in s.sched.pushed && c.outcome == Done && c.executeAt == 0 && c.now == 0
    ensures Enabled(s, Work(call, c))
    ensures var t := WorkStep(s, call, c);
      && Items(t.sched.lists, BUCKET) == [job] && t.sched.records == s.sched.records && t.jobs == s.jobs
      && SameMessage(s, t, call) && Stage(t, w, call, Pausing(i, Some(job)), wrote)
  {
    hide WorkStep, PlanOf, I.StatesOf;
    CallFrames(s, call, c);
    JobPushed(s, call, i, job, c);
    assert [] + [job] == [job];
  }

  lemma JobPushed(s: State, call: nat, i: nat, job: Id, c: Choice)
    requires CanWork(s, call, c) && s.calls[call].pc == Pushing(i, job) && c.outcome == Done && c.executeAt == 0
      && c.now == 0
    ensures var t := WorkStep(s, call, c);
      && t.sched.lists == RPush(s.sched.lists, BUCKET, job) && t.sched.records == s.sched.records && t.jobs == s.jobs
    ensures NextPc(s, call, c) == Pausing(i, Some(job))
  {
    hide ActStep, PauseStep, BeginStep;
  }

  // ---------- what has not been used ----------

  lemma AboveAll(used: set<Stamp>) returns (t: int)
    ensures forall stamp :: stamp in used ==> stamp.1 < t
    decreases |used|
  {
    if used == {} {
      t := 0;
    } else {
      var stamp :| stamp in used;
      t := AboveAll(used - {stamp});
      if t <= stamp.1 { t := stamp.1 + 1; }
    }
  }

  lemma LongerThanAll(ids: set<Id>) returns (n: nat)
    ensures forall id :: id in ids ==> |id| < n
    decreases |ids|
  {
    if ids == {} {
      n := 0;
    } else {
      var id :| id in ids;
      n := LongerThanAll(ids - {id});
      if n <= |id| { n := |id| + 1; }
    }
  }

  lemma NewSweep(sweeps: set<nat>) returns (n: nat)
    ensures forall k :: k in sweeps ==> k < n
    decreases |sweeps|
  {
    if sweeps == {} {
      n := 0;
    } else {
      var k :| k in sweeps;
      n := NewSweep(sweeps - {k});
      assert forall j :: j in sweeps ==> j == k || j in sweeps - {k};
      if n <= k { n := k + 1; }
    }
  }

  /** A clock reading and a job id that are new. */
  lemma NewChoice(s: State, verdict: Verdict, outcome: Outcome) returns (c: Choice)
    ensures (0, c.stamp) !in s.used && c.job !in s.sched.records && c.verdict == verdict && c.outcome == outcome
    ensures c.executeAt == 0 && c.now == 0 && c.newRun == 0
  {
    var stamp := AboveAll(s.used);
    var n := LongerThanAll(s.sched.records);
    c := Choice(stamp, outcome, verdict, 0, 0, seq(n, k => 'j'), 0, 0);
  }

  // ---------- one step of a play ----------

  ghost predicate At(p: Play, w: E.Workflow, call: nat, pc: Pc, wrote: seq<RunState>, did: seq<nat>) {
    IsPlay(p) && Stage(Now(p), w, call, pc, wrote) && Did(p) == did
  }

  lemma DidStays(p: Play, q: Play, l: Label)
    requires Extended(p, q, l) && (l.Work? ==> l.call in Now(p).calls && !Now(p).calls[l.call].pc.Acting?)
    ensures Did(q) == Did(p)
  {
    hide Step, Possible, IsPlay, LogAt, Applied;
  }

  lemma DidGrows(p: Play, q: Play, call: nat, c: Choice)
    requires Extended(p, q, Work(call, c)) && call in Now(p).calls
    requires Now(p).calls[call].pc.Acting? && Now(p).calls[call].run.runId == 0
    ensures Did(q) == Did(p) + [Now(p).calls[call].pc.index]
  {
    hide Step, Possible, IsPlay, LogAt, Applied;
    var performed := LogAt(p).performed;
    var x := Now(p).calls[call];
    assert (performed + [Performance(0, x.pc.index, x.run.updatedAt)])[..|performed|] == performed;
  }

  lemma PlayWrites(p: Play, w: E.Workflow, call: nat, pc: Pc, wrote: seq<RunState>, did: seq<nat>) returns (q: Play)
    requires At(p, w, call, pc, wrote, did) && WritesRun(pc, PlanOf(w))
    ensures var x := Now(p).calls[call]; At(q, w, call, AfterWrite(x, true), wrote + [Written(x)], did)
    ensures Kept(Now(p), Now(q)) && SameMessage(Now(p), Now(q), call)
    ensures pc.Pausing? && pc.scheduled.Some? ==> PausedBy(Now(q), 0, pc.scheduled.value)
    ensures forall job :: Fresh(p, job) ==> Fresh(q, job)
  {
    hide IsPlay, Stage, Did, WorkStep, Possible, FreshStamp, Written, AfterWrite, PlanOf, Extended, Kept, SameMessage,
      CanWork;
    var s := Now(p);
    var c := NewChoice(s, Passed, Done);
    StageWrites(s, w, call, pc, wrote, c);
    StagedCall(s, w, call, pc, wrote);
    if pc.Pausing? && pc.scheduled.Some? { StagePauses(s, w, call, pc.index, pc.scheduled.value, wrote, c); }
    q := GoOn(p, Work(call, c));
    ExtendedBy(p, q, call, c);
    DidStays(p, q, Work(call, c));
    AllFreshStay(p, q, Work(call, c));
  }

  lemma AllFreshStay(p: Play, q: Play, l: Label)
    requires Extended(p, q, l) && !l.Deliver?
    ensures forall job :: Fresh(p, job) ==> Fresh(q, job)
  {
    hide Extended, Fresh;
    forall job | Fresh(p, job) ensures Fresh(q, job) { FreshStays(p, q, l, job); }
  }

  lemma StagedCall(s: State, w: E.Workflow, call: nat, pc: Pc, wrote: seq<RunState>)
    requires Stage(s, w, call, pc, wrote)
    ensures call in s.calls && s.calls[call].pc == pc && s.calls[call].run.runId == 0
  {
  }

  lemma ExtendedBy(p: Play, q: Play, call: nat, c: Choice)
    requires Extended(p, q, Work(call, c))
    ensures IsPlay(p) && IsPlay(q) && CanWork(Now(p), call, c) && Now(q) == WorkStep(Now(p), call, c)
  {
    hide WorkStep, IsPlay, CanWork, LogAt;
  }

  lemma PlayMoves(p: Play, w: E.Workflow, call: nat, pc: Pc, wrote: seq<RunState>, did: seq<nat>, verdict: Verdict)
    returns (q: Play, c: Choice)
    requires At(p, w, call, pc, wrote, did) && !WritesRun(pc, PlanOf(w)) && PlainPc(pc)
    ensures c.outcome == Done && c.verdict == verdict && At(q, w, call, AfterOther(pc, c), wrote, did)
    ensures Kept(Now(p), Now(q)) && SameMessage(Now(p), Now(q), call)
    ensures Now(q).hist == Now(p).hist && Now(q).author == Now(p).author
    ensures forall job :: Fresh(p, job) ==> Fresh(q, job)
  {
    hide IsPlay, Stage, Did, WorkStep, Possible, FreshStamp, AfterOther, PlanOf, Extended, Kept, SameMessage, CanWork;
    var s := Now(p);
    c := NewChoice(s, verdict, Done);
    StageMoves(s, w, call, pc, wrote, c);
    StagedCall(s, w, call, pc, wrote);
    q := GoOn(p, Work(call, c));
    ExtendedBy(p, q, call, c);
    DidStays(p, q, Work(call, c));
    AllFreshStay(p, q, Work(call, c));
  }

  lemma PlayActs(p: Play, w: E.Workflow, call: nat, i: nat, wrote: seq<RunState>, did: seq<nat>, outcome: Outcome)
    returns (q: Play, c: Choice)
    requires At(p, w, call, Acting(i), wrote, did) && (outcome == Done || outcome == Refused)
    requires KindAt(Now(p), 0, i) != Some(LongDelay) || outcome == Refused
    ensures c.outcome == outcome && At(q, w, call, AfterAction(KindAt(Now(p), 0, i), i, c), wrote, did + [i])
    ensures Kept(Now(p), Now(q)) && SameMessage(Now(p), Now(q), call)
  {
    hide IsPlay, Stage, Did, WorkStep, Possible, FreshStamp, AfterAction, PlanOf, Extended, Kept, SameMessage, CanWork;
    var s := Now(p);
    c := NewChoice(s, Passed, outcome);
    StageActs(s, w, call, i, wrote, c);
    StagedCall(s, w, call, Acting(i), wrote);
    q := GoOn(p, Work(call, c));
    ExtendedBy(p, q, call, c);
    DidGrows(p, q, call, c);
  }

  /** The job of the delay at action i waits to be pushed. */
  ghost predicate Scheduled(s: State, job: Id, i: nat) {
    job in s.jobs && s.jobs[job].run == 0 && s.jobs[job].index == i && job in s.sched.records && job !in s.sched.pushed
  }

  lemma PlaySchedules(p: Play, w: E.Workflow, call: nat, i: nat, wrote: seq<RunState>, did: seq<nat>)
      returns (q: Play, job: Id)
    requires At(p, w, call, Acting(i), wrote, did) && KindAt(Now(p), 0, i) == Some(LongDelay) && Calm(Now(p).sched)
    ensures At(q, w, call, Pushing(i, job), wrote, did + [i]) && Scheduled(Now(q), job, i) && Calm(Now(q).sched)
    ensures Fresh(q, job)
    ensures SameMessage(Now(p), Now(q), call)
  {
    PushedHaveRecords(p);
    hide IsPlay, Stage, Did, WorkStep, Possible, FreshStamp, PlanOf, Extended, SameMessage, CanWork;
    var s := Now(p);
    var c := NewChoice(s, Passed, Done);
    StageSchedules(s, w, call, i, wrote, c);
    StagedCall(s, w, call, Acting(i), wrote);
    job := c.job;
    q := GoOn(p, Work(call, c));
    ExtendedBy(p, q, call, c);
    DidGrows(p, q, call, c);
    NewJobIsFresh(p, job);
    FreshStays(p, q, Work(call, c), job);
  }

  lemma NewJobIsFresh(p: Play, job: Id)
    requires IsPlay(p) && job !in Now(p).sched.records
    ensures Fresh(p, job)
  {
    hide Step, Enabled, Sched.Inv, JobDelivered;
    RunInv(p.states, p.labels, |p.labels|);
    JobsAreRecords(Now(p));
  }

  lemma JobsAreRecords(s: State)
    requires Inv(s)
    ensures s.sched.records == s.jobs.Keys
  {
  }

  lemma PushedHaveRecords(p: Play)
    requires IsPlay(p)
    ensures Now(p).sched.pushed.Keys <= Now(p).sched.records
  {
    hide Step, Enabled, Sched.Inv;
    SchedulerInv(p.states, p.labels, |p.labels|);
  }

  /** The job of the delay at action i is all there is in the bucket. */
  ghost predicate InBucket(s: State, job: Id, i: nat) {
    job in s.jobs && s.jobs[job].run == 0 && s.jobs[job].index == i && Items(s.sched.lists, BUCKET) == [job]
  }

  lemma PlayPushes(p: Play, w: E.Workflow, call: nat, i: nat, job: Id, wrote: seq<RunState>, did: seq<nat>)
      returns (q: Play)
    requires At(p, w, call, Pushing(i, job), wrote, did) && Scheduled(Now(p), job, i) && Calm(Now(p).sched)
    ensures At(q, w, call, Pausing(i, Some(job)), wrote, did) && InBucket(Now(q), job, i)
    ensures Fresh(p, job) ==> Fresh(q, job)
    ensures SameMessage(Now(p), Now(q), call)
  {
    hide IsPlay, Stage, Did, WorkStep, Possible, FreshStamp, PlanOf, Extended, SameMessage, CanWork;
    var s := Now(p);
    var c := NewChoice(s, Passed, Done);
    StagePushes(s, w, call, i, job, wrote, c);
    StagedCall(s, w, call, Pushing(i, job), wrote);
    q := GoOn(p, Work(call, c));
    ExtendedBy(p, q, call, c);
    DidStays(p, q, Work(call, c));
    AllFreshStay(p, q, Work(call, c));
  }

  // ---------- the scheduler hands the job back ----------

  lemma MoveStep(s: State, job: Id, i: nat, n: nat)
    requires InBucket(s, job, i) && n !in s.sched.sweeps
    ensures var l := Tick(Sched.Move(n, Sched.Main, 60_000, Done));
      && Enabled(s, l) && Orderly(s, l)
      && var t := Step(s, l);
         && n in t.sched.sweeps && t.sched.sweeps[n] == Sched.Sweep(1, [job], Sched.Fetching)
         && t == s.(sched := t.sched) && Calm(t.sched)
  {
    hide WorkStep;
    Sched.TransferKeepsIds(s.sched.lists, 1, BUCKET, job);
  }

  lemma FetchStep(s: State, job: Id, n: nat)
    requires n in s.sched.sweeps && s.sched.sweeps[n] == Sched.Sweep(1, [job], Sched.Fetching) && Calm(s.sched)
    ensures var l := Tick(Sched.Fetch(n, true, Done));
      && Enabled(s, l) && Orderly(s, l)
      && var t := Step(s, l);
         && n in t.sched.sweeps && t.sched.sweeps[n] == Sched.Sweep(1, [job], Sched.Sending)
         && t == s.(sched := t.sched) && Calm(t.sched)
  {
    hide WorkStep;
  }

  lemma SendStep(s: State, job: Id, n: nat)
    requires n in s.sched.sweeps && s.sched.sweeps[n] == Sched.Sweep(1, [job], Sched.Sending) && Calm(s.sched)
      && job in s.jobs
    ensures var l := Tick(Sched.Send(n, Done));
      && Enabled(s, l) && Orderly(s, l)
      && var t := Step(s, l);
         && t == s.(sched := t.sched, queue := t.queue, nextMessage := s.nextMessage + 1)
         && s.nextMessage in t.queue && t.queue[s.nextMessage] == Details(s, job) && Calm(t.sched)
  {
    hide WorkStep;
  }

  /** Between two calls: the run is stored, nobody works on it. */
  ghost predicate Resting(p: Play, w: E.Workflow, wrote: seq<RunState>, did: seq<nat>) {
    IsPlay(p) && Stored(Now(p), w, wrote) && Did(p) == did
  }

  /** The message that resumes action i is undelivered, and the run is paused by its job. */
  ghost predicate Arrived(p: Play, m: nat, i: nat) {
    && Timely(p, m) && m in Now(p).queue && Now(p).queue[m].Resume? && Now(p).queue[m].run == 0
      && Now(p).queue[m].index == i
    && Deliver(m) !in p.labels && m < Now(p).nextMessage
  }

  lemma NotYetDelivered(p: Play)
    requires IsPlay(p)
    ensures Deliver(Now(p).nextMessage) !in p.labels
  {
    hide IsRun, Orderly;
  }

  lemma PlaySweep(p: Play, w: E.Workflow, i: nat, job: Id, wrote: seq<RunState>, did: seq<nat>)
      returns (q: Play, m: nat)
    requires Resting(p, w, wrote, did) && InBucket(Now(p), job, i) && PausedBy(Now(p), 0, job) && Fresh(p, job)
    ensures Resting(q, w, wrote, did) && Calm(Now(q).sched) && Arrived(q, m, i)
  {
    hide IsPlay, Did, Step, Enabled, Orderly, Calm, Extended, Fresh;
    var s := Now(p);
    var n := NewSweep(s.sched.sweeps.Keys);
    MoveStep(s, job, i, n);
    var a := GoOn(p, Tick(Sched.Move(n, Sched.Main, 60_000, Done)));
    TickExtends(p, a, Sched.Move(n, Sched.Main, 60_000, Done));
    FetchStep(Now(a), job, n);
    var b := GoOn(a, Tick(Sched.Fetch(n, true, Done)));
    TickExtends(a, b, Sched.Fetch(n, true, Done));
    SendStep(Now(b), job, n);
    q := GoOn(b, Tick(Sched.Send(n, Done)));
    TickExtends(b, q, Sched.Send(n, Done));
    m := s.nextMessage;
    NotYetDelivered(b);
  }

  lemma TickExtends(p: Play, q: Play, l: Sched.Label)
    requires Extended(p, q, Tick(l))
    ensures IsPlay(p) && IsPlay(q) && Possible(Now(p), Tick(l)) && Now(q) == Step(Now(p), Tick(l)) && Did(q) == Did(p)
    ensures q.labels == p.labels + [Tick(l)]
    ensures forall job :: Fresh(p, job) ==> Fresh(q, job)
  {
    AllFreshStay(p, q, Tick(l));
    hide Step, Possible, IsPlay, Did, LogAt, Fresh;
    DidStays(p, q, Tick(l));
  }

  // ---------- a delay, from the action to the resumed run ----------

  lemma PlayDelete(p: Play, w: E.Workflow, call: nat, wrote: seq<RunState>, did: seq<nat>) returns (q: Play)
    requires At(p, w, call, Return(true), wrote, did)
    ensures Resting(q, w, wrote, did) && Now(q).sched == Now(p).sched && Now(q).jobs == Now(p).jobs
    ensures Now(q).hist == Now(p).hist && Now(q).author == Now(p).author
    ensures forall job :: Fresh(p, job) ==> Fresh(q, job)
  {
    hide IsPlay, Did, WorkStep, Extended, Stored, Fresh;
    q := GoOn(p, Delete(call));
    DeleteStep(Now(p), w, call, wrote);
    DeleteExtends(p, q, call);
    AllFreshStay(p, q, Delete(call));
  }

  lemma DeleteStep(s: State, w: E.Workflow, call: nat, wrote: seq<RunState>)
    requires Stage(s, w, call, Return(true), wrote)
    ensures Possible(s, Delete(call))
    ensures var t := Step(s, Delete(call));
      Stored(t, w, wrote) && t.sched == s.sched && t.jobs == s.jobs && t.hist == s.hist && t.author == s.author
  {
    hide WorkStep;
  }

  lemma DeleteExtends(p: Play, q: Play, call: nat)
    requires Extended(p, q, Delete(call))
    ensures IsPlay(p) && IsPlay(q) && Possible(Now(p), Delete(call)) && Now(q) == Step(Now(p), Delete(call))
      && Did(q) == Did(p)
  {
    hide Step, Possible, IsPlay, Did, LogAt;
    DidStays(p, q, Delete(call));
  }

  lemma DeliverStep(s: State, w: E.Workflow, m: nat, wrote: seq<RunState>, c: Choice) returns (t: State)
    requires Stored(s, w, wrote) && m in s.queue && s.queue[m].Resume? && s.queue[m].run == 0
    requires c.outcome == Done && c.seen == |s.hist[0]| - 1
    ensures Enabled(s, Deliver(m)) && t == Step(s, Deliver(m))
    ensures Enabled(t, Work(s.nextCall, c)) && s.nextCall in t.calls && t.calls[s.nextCall].pc == Begin
    ensures var u := Step(t, Work(s.nextCall, c));
      Stage(u, w, s.nextCall, Loaded, wrote) && u.calls[s.nextCall].body == s.queue[m] && u.sched == s.sched
  {
    hide Sched.Enabled, Sched.Step, ActStep, PushStep, PauseStep, Write, Goto, WorkStep, PlanOf, I.StatesOf, CanWork;
    DeliveredRunIsRead(s, m, c);
    t := Step(s, Deliver(m));
  }

  lemma PlayDelivers(p: Play, w: E.Workflow, m: nat, i: nat, wrote: seq<RunState>, did: seq<nat>)
      returns (q: Play, call: nat)
    requires Resting(p, w, wrote, did) && Arrived(p, m, i) && Calm(Now(p).sched)
    ensures At(q, w, call, Actions(i + 1), wrote + [ActionCompleted(i)], did) && Calm(Now(q).sched)
  {
    hide IsPlay, Did, Step, Enabled, Calm, Extended, Stored, Stage, PlanOf;
    var s := Now(p);
    call := s.nextCall;
    StoredRuns(s, w, wrote);
    var c := NewChoice(s, Passed, Done);
    c := c.(seen := |s.hist[0]| - 1);
    var t := DeliverStep(s, w, m, wrote, c);
    var a := GoOn(p, Deliver(m));
    DeliverExtends(p, a, m);
    var b := GoOn(a, Work(call, c));
    ReadExtends(a, b, call, c);
    StagedCall(Now(b), w, call, Loaded, wrote);
    q := PlayWrites(b, w, call, Loaded, wrote, did);
    ResumeWritten(Now(b).calls[call]);
  }

  lemma StoredRuns(s: State, w: E.Workflow, wrote: seq<RunState>)
    requires Stored(s, w, wrote)
    ensures 0 in s.hist && |s.hist[0]| > 0
  {
  }

  lemma DeliverExtends(p: Play, q: Play, m: nat)
    requires Extended(p, q, Deliver(m))
    ensures IsPlay(p) && IsPlay(q) && Possible(Now(p), Deliver(m)) && Now(q) == Step(Now(p), Deliver(m))
      && Did(q) == Did(p)
  {
    hide Step, Possible, IsPlay, Did, LogAt;
    DidStays(p, q, Deliver(m));
  }

  lemma ReadExtends(p: Play, q: Play, call: nat, c: Choice)
    requires Extended(p, q, Work(call, c)) && call in Now(p).calls && Now(p).calls[call].pc == Begin
    ensures IsPlay(p) && IsPlay(q) && Possible(Now(p), Work(call, c)) && Now(q) == Step(Now(p), Work(call, c))
      && Did(q) == Did(p)
  {
    hide Step, Possible, IsPlay, Did, LogAt;
    DidStays(p, q, Work(call, c));
  }

  lemma ResumeWritten(x: Call)
    requires x.pc == Loaded && x.body.Resume?
    ensures Written(x) == ActionCompleted(x.body.index) && AfterWrite(x, true) == Actions(x.body.index + 1)
  {
  }

  // ---------- one action ----------

  /** What each write of the call leaves, and where it leads. */
  lemma WrittenAt(x: Call)
    ensures match x.pc
      case Conditions(i) => Written(x) == Condition(i) && AfterWrite(x, true) == Evaluating(i)
      case Stopping(change) => AfterWrite(x, true) == Return(true) && Written(x) == Apply(x.run, change, 0).state
      case Actions(i) => Written(x) == ActionStarted(i) && AfterWrite(x, true) == Logging(i)
      case Pausing(i, _) => Written(x) == ActionScheduled(i) && AfterWrite(x, true) == PauseLogging
      case Marking(i) => Written(x) == ActionCompleted(i) && AfterWrite(x, true) == Actions(i + 1)
      case Failing => Written(x) == RunState.Failed && AfterWrite(x, true) == Return(false)
      case Finishing => Written(x) == RunState.Completed && AfterWrite(x, true) == Return(true)
      case _ => true
  {
  }

  lemma KindsAgree(p: Play, w: E.Workflow, call: nat, pc: Pc, wrote: seq<RunState>, did: seq<nat>, i: nat)
    requires At(p, w, call, pc, wrote, did)
    ensures i < |PlanOf(w).actions| <==> i < |w.actions|
    ensures i < |w.actions| ==> KindAt(Now(p), 0, i) == Some(KindOf(w.actions[i]))
  {
    hide IsPlay, Did, KindOf;
  }

  lemma CallThere(p: Play, w: E.Workflow, call: nat, pc: Pc, wrote: seq<RunState>, did: seq<nat>)
    requires At(p, w, call, pc, wrote, did)
    ensures call in Now(p).calls && Now(p).calls[call].pc == pc
  {
    hide IsPlay, Did, Stored;
  }

  lemma PlayStarts(p: Play, w: E.Workflow, call: nat, i: nat, wrote: seq<RunState>, did: seq<nat>) returns (q: Play)
    requires At(p, w, call, Actions(i), wrote, did) && i < |w.actions|
    ensures At(q, w, call, Acting(i), wrote + [ActionStarted(i)], did) && Now(q).sched == Now(p).sched
  {
    hide At, PlanOf, Written, AfterWrite;
    KindsAgree(p, w, call, Actions(i), wrote, did, i);
    CallThere(p, w, call, Actions(i), wrote, did);
    WrittenAt(Now(p).calls[call]);
    var a := PlayWrites(p, w, call, Actions(i), wrote, did);
    var b, c := PlayMoves(a, w, call, Logging(i), wrote + [ActionStarted(i)], did, Passed);
    q := b;
  }

  /** A failing action: performed, and the run is FAILED. */
  lemma PlayFails(p: Play, w: E.Workflow, call: nat, i: nat, wrote: seq<RunState>, did: seq<nat>) returns (q: Play)
    requires At(p, w, call, Acting(i), wrote, did) && KindAt(Now(p), 0, i) != Some(ShortDelay)
    ensures At(q, w, call, Return(false), wrote + [RunState.Failed], did + [i])
  {
    hide At, PlanOf, Written, AfterWrite;
    var a, c := PlayActs(p, w, call, i, wrote, did, Refused);
    CallThere(a, w, call, Failing, wrote, did + [i]);
    WrittenAt(Now(a).calls[call]);
    q := PlayWrites(a, w, call, Failing, wrote, did + [i]);
  }

  lemma PlayRegular(p: Play, w: E.Workflow, call: nat, i: nat, wrote: seq<RunState>, did: seq<nat>) returns (q: Play)
    requires At(p, w, call, Acting(i), wrote, did) && KindAt(Now(p), 0, i) == Some(Regular)
    ensures At(q, w, call, Actions(i + 1), wrote + [ActionCompleted(i)], did + [i]) && Now(q).sched == Now(p).sched
  {
    hide At, PlanOf, Written, AfterWrite;
    var a, c := PlayActs(p, w, call, i, wrote, did, Done);
    CallThere(a, w, call, Marking(i), wrote, did + [i]);
    WrittenAt(Now(a).calls[call]);
    q := PlayWrites(a, w, call, Marking(i), wrote, did + [i]);
  }

  /** Storing a pause and ending the call. */
  lemma PlayPause(p: Play, w: E.Workflow, call: nat, i: nat, scheduled: Option<Id>, wrote: seq<RunState>, did: seq<nat>)
      returns (q: Play)
    requires At(p, w, call, Pausing(i, scheduled), wrote, did)
    ensures At(q, w, call, Return(true), wrote + [ActionScheduled(i)], did)
    ensures Now(q).sched == Now(p).sched && Now(q).jobs == Now(p).jobs
    ensures scheduled.Some? ==> PausedBy(Now(q), 0, scheduled.value)
    ensures forall job :: Fresh(p, job) ==> Fresh(q, job)
  {
    hide At, PlanOf, Written, AfterWrite, Fresh;
    CallThere(p, w, call, Pausing(i, scheduled), wrote, did);
    WrittenAt(Now(p).calls[call]);
    var a := PlayWrites(p, w, call, Pausing(i, scheduled), wrote, did);
    var b, c := PlayMoves(a, w, call, PauseLogging, wrote + [ActionScheduled(i)], did, Passed);
    q := b;
  }

  lemma PlayShort(p: Play, w: E.Workflow, call: nat, i: nat, wrote: seq<RunState>, did: seq<nat>) returns (q: Play)
    requires At(p, w, call, Acting(i), wrote, did) && KindAt(Now(p), 0, i) == Some(ShortDelay)
    ensures At(q, w, call, Return(true), wrote + [ActionScheduled(i)], did + [i])
  {
    hide At;
    var a, c := PlayActs(p, w, call, i, wrote, did, Done);
    q := PlayPause(a, w, call, i, None, wrote, did + [i]);
  }

  lemma PlayLong(p: Play, w: E.Workflow, call: nat, i: nat, wrote: seq<RunState>, did: seq<nat>)
      returns (q: Play, next: nat)
    requires At(p, w, call, Acting(i), wrote, did) && KindAt(Now(p), 0, i) == Some(LongDelay) && Calm(Now(p).sched)
    ensures At(q, w, next, Actions(i + 1), wrote + [ActionScheduled(i)] + [ActionCompleted(i)], did + [i])
      && Calm(Now(q).sched)
  {
    hide At, Resting, Arrived, Calm, Scheduled, Fresh;
    var a, job := PlaySchedules(p, w, call, i, wrote, did);
    var b := PlayPushes(a, w, call, i, job, wrote, did + [i]);
    var c := PlayPause(b, w, call, i, Some(job), wrote, did + [i]);
    var d := PlayDelete(c, w, call, wrote + [ActionScheduled(i)], did + [i]);
    var e, m := PlaySweep(d, w, i, job, wrote + [ActionScheduled(i)], did + [i]);
    q, next := PlayDelivers(e, w, m, i, wrote + [ActionScheduled(i)], did + [i]);
  }

  // ---------- the whole trace ----------

  lemma AtRests(p: Play, w: E.Workflow, call: nat, pc: Pc, wrote: seq<RunState>, did: seq<nat>)
    requires At(p, w, call, pc, wrote, did)
    ensures Resting(p, w, wrote, did)
  {
    hide IsPlay, Did, Stored;
  }

  /** The first action of a whole run decides how it goes on. */
  lemma WholeRunCases(w: E.Workflow, i: nat)
    requires w.Valid() && i < |w.actions|
    ensures var t, kind := E.WholeRun(w, i), KindOf(w.actions[i]);
      if E.Fails(w, i) then t == E.Trace([i], [ActionStarted(i), RunState.Failed], E.EndFailed)
      else match kind
        case Regular => t == E.Before([i], [ActionStarted(i), ActionCompleted(i)], E.WholeRun(w, i + 1))
        case LongDelay => t == E.Before([i], [ActionStarted(i), ActionScheduled(i), ActionCompleted(i)],
          E.WholeRun(w, i + 1))
        case ShortDelay => t == E.Trace([i], [ActionStarted(i), ActionScheduled(i)], E.EndPaused(i))
  {
    hide E.Fails;
    if !E.Fails(w, i) {
      KindsOfActions(w, i);
      if KindOf(w.actions[i]) == Regular { RegularCase(w, i); }
    }
  }

  lemma ShortDelaysDoNotFail(w: E.Workflow, i: nat)
    requires w.Valid() && i < |w.actions| && E.Fails(w, i)
    ensures KindOf(w.actions[i]) != ShortDelay
  {
  }

  lemma KindsOfActions(w: E.Workflow, i: nat)
    requires w.Valid() && i < |w.actions| && !E.Fails(w, i)
    ensures w.actions[i].Delay? <==> KindOf(w.actions[i]) != Regular
    ensures E.IsLong(w.actions[i]) <==> KindOf(w.actions[i]) == LongDelay
  {
  }

  lemma RegularCase(w: E.Workflow, i: nat)
    requires w.Valid() && i < |w.actions| && !E.Fails(w, i) && !w.actions[i].Delay?
    ensures E.WholeRun(w, i) == E.Before([i], [ActionStarted(i), ActionCompleted(i)], E.WholeRun(w, i + 1))
  {
    hide E.Fails, E.IsLong;
    var t, states := E.Segment(w, i + 1), [ActionStarted(i), ActionCompleted(i)];
    assert E.Segment(w, i) == E.Before([i], states, t);
    if t.end.EndPaused? && E.IsLong(w.actions[t.end.at]) {
      var rest := E.WholeRun(w, t.end.at + 1);
      assert [i] + t.performed + rest.performed == [i] + (t.performed + rest.performed);
      assert states + t.states + [ActionCompleted(t.end.at)] + rest.states
        == states + (t.states + [ActionCompleted(t.end.at)] + rest.states);
    }
  }

  lemma {:induction false} PlayActions(p: Play, w: E.Workflow, call: nat, i: nat, wrote: seq<RunState>, did: seq<nat>)
      returns (q: Play)
    requires w.Valid() && i <= |w.actions| && At(p, w, call, Actions(i), wrote, did) && Calm(Now(p).sched)
    ensures Resting(q, w, wrote + E.WholeRun(w, i).states, did + E.WholeRun(w, i).performed)
    decreases |w.actions| - i
  {
    hide At, Resting, Calm, E.Fails, E.WholeRun, KindOf;
    if i == |w.actions| {
      q := PlayCompletion(p, w, call, wrote, did);
    } else {
      WholeRunCases(w, i);
      var started := wrote + [ActionStarted(i)];
      var a := PlayStarts(p, w, call, i, wrote, did);
      KindsAgree(a, w, call, Acting(i), started, did, i);
      var next := call;
      if E.Fails(w, i) {
        ShortDelaysDoNotFail(w, i);
        q := PlayFails(a, w, call, i, started, did);
        AtRests(q, w, call, Return(false), started + [RunState.Failed], did + [i]);
        assert started + [RunState.Failed] == wrote + E.WholeRun(w, i).states;
      } else if KindOf(w.actions[i]) == ShortDelay {
        q := PlayShort(a, w, call, i, started, did);
        AtRests(q, w, call, Return(true), started + [ActionScheduled(i)], did + [i]);
        assert started + [ActionScheduled(i)] == wrote + E.WholeRun(w, i).states;
      } else if KindOf(w.actions[i]) == LongDelay {
        q, next := PlayLong(a, w, call, i, started, did);
        q := PlayActions(q, w, next, i + 1, started + [ActionScheduled(i)] + [ActionCompleted(i)], did + [i]);
        Rejoined(wrote, [ActionStarted(i), ActionScheduled(i), ActionCompleted(i)], did, i, E.WholeRun(w, i + 1));
        assert wrote + [ActionStarted(i), ActionScheduled(i), ActionCompleted(i)]
          == started + [ActionScheduled(i)] + [ActionCompleted(i)];
      } else {
        q := PlayRegular(a, w, call, i, started, did);
        q := PlayActions(q, w, call, i + 1, started + [ActionCompleted(i)], did + [i]);
        Rejoined(wrote, [ActionStarted(i), ActionCompleted(i)], did, i, E.WholeRun(w, i + 1));
        assert wrote + [ActionStarted(i), ActionCompleted(i)] == started + [ActionCompleted(i)];
      }
    }
  }

  lemma Rejoined(wrote: seq<RunState>, states: seq<RunState>, did: seq<nat>, i: nat, rest: E.Trace)
    ensures wrote + E.Before([i], states, rest).states == wrote + states + rest.states
    ensures did + E.Before([i], states, rest).performed == did + [i] + rest.performed
  {
  }

  lemma PlayCompletion(p: Play, w: E.Workflow, call: nat, wrote: seq<RunState>, did: seq<nat>) returns (q: Play)
    requires w.Valid() && At(p, w, call, Actions(|w.actions|), wrote, did)
    ensures Resting(q, w, wrote + E.WholeRun(w, |w.actions|).states, did + E.WholeRun(w, |w.actions|).performed)
  {
    hide At, Resting, PlanOf, Written, AfterWrite;
    KindsAgree(p, w, call, Actions(|w.actions|), wrote, did, |w.actions|);
    var a, c := PlayMoves(p, w, call, Actions(|w.actions|), wrote, did, Passed);
    CallThere(a, w, call, Finishing, wrote, did);
    WrittenAt(Now(a).calls[call]);
    q := PlayWrites(a, w, call, Finishing, wrote, did);
    AtRests(q, w, call, Return(true), wrote + [RunState.Completed], did);
    assert E.WholeRun(w, |w.actions|) == E.Trace([], [RunState.Completed], E.EndCompleted);
    assert did + [] == did;
  }

  // ---------- conditions ----------

  /** The conditions from i on have been evaluated: the actions are next, or the run is over. */
  ghost predicate Evaluated(p: Play, w: E.Workflow, call: nat, wrote: seq<RunState>, go: bool) {
    if go then At(p, w, call, Actions(0), wrote, []) && Calm(Now(p).sched) else Resting(p, w, wrote, [])
  }

  lemma {:induction false} PlayConditions(p: Play, w: E.Workflow, call: nat, i: nat, wrote: seq<RunState>)
      returns (q: Play)
    requires i <= |w.verdicts| && At(p, w, call, Conditions(i), wrote, []) && Calm(Now(p).sched)
    ensures var (states, go) := I.ConditionTrace(w.verdicts, i); Evaluated(q, w, call, wrote + states, go)
    decreases |w.verdicts| - i
  {
    hide At, Resting, Calm, Written, AfterWrite;
    CallThere(p, w, call, Conditions(i), wrote, []);
    WrittenAt(Now(p).calls[call]);
    if i == |w.verdicts| {
      var a, c := PlayMoves(p, w, call, Conditions(i), wrote, [], Passed);
      q := a;
      assert wrote + [] == wrote;
    } else {
      var evaluating := wrote + [Condition(i)];
      var a := PlayWrites(p, w, call, Conditions(i), wrote, []);
      var b, c := PlayMoves(a, w, call, Evaluating(i), evaluating, [], VerdictOf(w.verdicts[i]));
      if w.verdicts[i] == E.Passed {
        q := PlayConditions(b, w, call, i + 1, evaluating);
        var (rest, go) := I.ConditionTrace(w.verdicts, i + 1);
        assert evaluating + rest == wrote + ([Condition(i)] + rest);
      } else {
        q := PlayStop(b, w, call, evaluating, if w.verdicts[i] == E.Broken then MarkFailed else MarkCompleted);
        var last := if w.verdicts[i] == E.Broken then RunState.Failed else RunState.Completed;
        assert evaluating + [last] == wrote + [Condition(i), last];
      }
    }
  }

  lemma PlayStop(p: Play, w: E.Workflow, call: nat, wrote: seq<RunState>, change: Change) returns (q: Play)
    requires At(p, w, call, Stopping(change), wrote, [])
    ensures Resting(q, w, wrote + [Apply(NewRun(0, 0), change, 0).state], [])
  {
    hide At, Resting, PlanOf, Written, AfterWrite;
    CallThere(p, w, call, Stopping(change), wrote, []);
    WrittenAt(Now(p).calls[call]);
    q := PlayWrites(p, w, call, Stopping(change), wrote, []);
    AtRests(q, w, call, Return(true), wrote + [Apply(NewRun(0, 0), change, 0).state], []);
  }

  // ---------- the start ----------

  /** The start message has been delivered, and its call stands at its first step. */
  function Started(w: E.Workflow): State {
    INITIAL.(queue := map[0 := Start(PlanOf(w))], nextMessage := 1,
             calls := map[0 := Call(0, Start(PlanOf(w)), Begin, NewRun(0, 0))], nextCall := 1)
  }

  lemma PlayStart(w: E.Workflow) returns (p: Play)
    ensures IsPlay(p) && Now(p) == Started(w) && Did(p) == []
  {
    hide WorkStep, Sched.Step, Sched.Enabled, PlanOf;
    var p0 := Play([INITIAL], []);
    var a := INITIAL.(queue := map[0 := Start(PlanOf(w))], nextMessage := 1);
    assert Step(INITIAL, Submit(PlanOf(w))) == a;
    assert Step(a, Deliver(0)) == Started(w);
    NothingDone(p0);
    var p1 := GoOn(p0, Submit(PlanOf(w)));
    DidStays(p0, p1, Submit(PlanOf(w)));
    p := GoOn(p1, Deliver(0));
    DidStays(p1, p, Deliver(0));
  }

  lemma NothingDone(p: Play)
    requires p == Play([INITIAL], [])
    ensures IsPlay(p) && Did(p) == []
  {
    hide Step, Enabled, Orderly;
  }

  lemma CreateStep(w: E.Workflow, c: Choice)
    requires c == Choice(0, Done, Passed, 0, 0, "", 0, 0)
    ensures Enabled(Started(w), Work(0, c))
    ensures var t := Step(Started(w), Work(0, c)); Stage(t, w, 0, Conditions(0), [Triggered]) && Calm(t.sched)
  {
    hide ActStep, PushStep, PauseStep, Write, Goto, PlanOf, Sched.Step, Sched.Enabled;
    var t := BeginStep(Started(w), 0, c);
    assert WorkStep(Started(w), 0, c) == t;
    assert t.hist[0] == [NewRun(0, 0)];
    assert I.StatesOf([NewRun(0, 0)]) == [Triggered];
  }

  lemma PlayCreate(w: E.Workflow) returns (q: Play)
    ensures At(q, w, 0, Conditions(0), [Triggered], []) && Calm(Now(q).sched)
  {
    hide IsPlay, Did, Step, Enabled, Extended, Stage, Calm, PlanOf;
    var c := Choice(0, Done, Passed, 0, 0, "", 0, 0);
    var p := PlayStart(w);
    CreateStep(w, c);
    q := GoOn(p, Work(0, c));
    ReadExtends(p, q, 0, c);
  }

  /** The refinement: for every workflow, whatever its conditions come to and whichever actions fail, the engine has an
      orderly run that stores exactly the states of the workflow's trace and performs exactly its actions, in order. So
      everything proved of traces is proved of runs the engine can make. */
  lemma TraceIsARun(w: E.Workflow) returns (p: Play)
    requires w.Valid()
    ensures IsPlay(p) && Stored(Now(p), w, I.RunTrace(w).states) && Did(p) == I.RunTrace(w).performed
  {
    hide At, Calm, IsPlay, Stored, Did, E.WholeRun, I.ConditionTrace, E.Fails;
    var a := PlayCreate(w);
    var b := PlayConditions(a, w, 0, 0, [Triggered]);
    var (states, go) := I.ConditionTrace(w.verdicts, 0);
    if go {
      p := PlayActions(b, w, 0, 0, [Triggered] + states, []);
      assert [] + E.WholeRun(w, 0).performed == E.WholeRun(w, 0).performed;
    } else {
      p := b;
    }
  }
}
