/** The whole engine as a step system: executors holding stale or fresh copies of runs, the optimistic lock
    on the run store, an at-least-once queue with a dead-letter queue, and the minute-bucket scheduler.
    Every remote call is one step; it may fail, or take effect and still report failure. A setter and the
    conditional write that follows it are one step: the stamp it sets is only ever compared for equality. */
module Protocol {
  import opened Domain
  import opened Options
  import opened RedisLists
  import opened Remote
  import Sched = SchedulerSteps

  type RunId = nat
  type Stamp = (RunId, int)

  /** Slack, webhook and malformed actions; delays of at least 60 s; delays under 60 s. */
  datatype ActionKind = Regular | LongDelay | ShortDelay

  datatype Workflow = Workflow(conditions: nat, actions: seq<ActionKind>)

  /** A queue message: start a workflow, or the details of a job to resume a run after its delay action. */
  datatype Message = Start(workflow: Workflow) | Resume(run: RunId, index: nat, job: Id)

  /** A scheduled job, with the stamp the run record had when the job was scheduled. */
  datatype Job = Job(run: RunId, index: nat, base: int)

  /** Where a call of Execute stands; each name says which remote call comes next. */
  datatype Pc =
    | Begin                                       // create the run, or read it
    | Loaded                                      // resume: write ACTION_i_COMPLETED
    | Conditions(index: nat)                      // top of the condition loop: write CONDITION_i
    | Evaluating(index: nat)
    | Stopping(change: Change)                    // conditions ended the run: last write, its result ignored
    | Actions(index: nat)                         // top of the action loop: write ACTION_i_STARTED
    | Logging(index: nat)                         // create the action log row
    | Acting(index: nat)                          // perform the action; a long delay creates its job record
    | Pushing(index: nat, job: Id)                // push the job to its bucket
    | Pausing(index: nat, scheduled: Option<Id>)  // write ACTION_i_SCHEDULED
    | PauseLogging                                // update the action log row
    | Marking(index: nat)                         // write ACTION_i_COMPLETED, its result ignored
    | Failing                                     // handleActionFailure: write FAILED, its result ignored
    | Finishing                                   // completeWorkflow: write COMPLETED
    | Return(ok: bool)

  /** One delivery of a message being processed, with the run record it holds in memory. */
  datatype Call = Call(message: nat, body: Message, pc: Pc, run: Run)

  datatype State = State(
    hist: map<RunId, seq<Run>>,    // per run, the records the store held, oldest first; the last one is stored
    plans: map<RunId, Workflow>,
    calls: map<nat, Call>,
    nextCall: nat,
    queue: map<nat, Message>,      // messages not yet deleted, delivered or not
    dead: map<nat, Message>,       // messages the redrive policy moved to the dead-letter queue
    nextMessage: nat,
    sched: Sched.State,
    jobs: map<Id, Job>,
    used: set<Stamp>,              // history: every stamp a setter has put into a record
    author: map<Stamp, Id>)        // history: for a stored ACTION_i_SCHEDULED record, the job its call pushed

  datatype Verdict = Passed | NotPassed | Broken

  /** Everything the environment decides in one step of a call. */
  datatype Choice = Choice(
    stamp: int,            // the clock read by a setter
    outcome: Outcome,      // how the remote call ends
    verdict: Verdict,      // what the condition evaluates to
    newRun: nat,           // the id of a new run
    seen: nat,             // which version of the run a read returns; reads may be stale
    job: Id,               // the id of a new job
    executeAt: int,        // what ScheduleJob is asked for
    now: int)              // the clock ScheduleJob reads

  datatype Label =
    | Submit(workflow: Workflow)
    | Deliver(message: nat)
    | Work(call: nat, choice: Choice)
    | Delete(call: nat)         // the call returned success and its message is deleted
    | Abandon(call: nat)        // crash, failure return, or a failed delete: the message stays
    | DeadLetter(message: nat)
    | Tick(l: Sched.Label)

  const INITIAL := State(map[], map[], map[], 0, map[], map[], 0, Sched.INITIAL, map[], {}, map[])

  function Last(records: seq<Run>): Run
    requires records != []
  {
    records[|records| - 1]
  }

  // ---------- the conditional write ----------

  /** The condition expression of Update: the stored stamp is the expected one, or there is no item. */
  predicate Accepts(hist: map<RunId, seq<Run>>, run: Run) {
    run.runId !in hist || hist[run.runId] == [] || Last(hist[run.runId]).updatedAt == run.updatedAt
  }

  function Store(hist: map<RunId, seq<Run>>, run: Run): map<RunId, seq<Run>> {
    hist[run.runId := (if run.runId in hist then hist[run.runId] else []) + [run]]
  }

  predicate Applied(s: State, call: nat, c: Choice)
    requires call in s.calls
  {
    Accepts(s.hist, s.calls[call].run) && c.outcome != Refused
  }

  function Reported(s: State, call: nat, c: Choice): bool
    requires call in s.calls
  {
    Accepts(s.hist, s.calls[call].run) && c.outcome == Done
  }

  /** A setter followed by Update with the stamp the record had before, then on to `pc`. The record in
      memory keeps the new stamp whatever became of the write. */
  function Write(s: State, call: nat, change: Change, c: Choice, pc: Pc): State
    requires call in s.calls
  {
    var run := Apply(s.calls[call].run, change, c.stamp);
    s.(hist := if Applied(s, call, c) then Store(s.hist, run) else s.hist,
       used := s.used + {(run.runId, c.stamp)},
       calls := s.calls[call := s.calls[call].(run := run, pc := pc)])
  }

  function Goto(s: State, call: nat, pc: Pc): State
    requires call in s.calls
  {
    s.(calls := s.calls[call := s.calls[call].(pc := pc)])
  }

  // ---------- one step of a call ----------

  function Plan(s: State, run: RunId): Workflow {
    if run in s.plans then s.plans[run] else Workflow(0, [])
  }

  predicate CanWork(s: State, call: nat, c: Choice) {
    && call in s.calls
    && var x := s.calls[call];
       && !x.pc.Return?
       && (x.pc == Begin && x.body.Start? ==> c.newRun !in s.hist)
       && (x.pc == Begin && x.body.Resume? && c.outcome == Done && x.body.run in s.hist
           ==> c.seen < |s.hist[x.body.run]|)
       && (x.pc.Acting? ==> Sched.Enabled(s.sched, Sched.Create(c.job)))
       && (x.pc.Pushing? ==> Sched.Enabled(s.sched, Sched.Push(x.pc.job, c.executeAt, c.now, c.outcome)))
  }

  /** The clock never repeats a stamp on one run. Reading a run stamps nothing. */
  predicate FreshStamp(s: State, call: nat, c: Choice)
    requires call in s.calls
  {
    var x := s.calls[call];
    if x.pc == Begin then x.body.Start? ==> (c.newRun, c.stamp) !in s.used
    else (x.run.runId, c.stamp) !in s.used
  }

  function BeginStep(s: State, call: nat, c: Choice): State
    requires CanWork(s, call, c) && s.calls[call].pc == Begin
  {
    var x := s.calls[call];
    match x.body
    case Start(workflow) =>
      var run := NewRun(c.newRun, c.stamp);
      var pc := if c.outcome == Done then Conditions(0) else Return(false);
      var t := s.(calls := s.calls[call := x.(run := run, pc := pc)], used := s.used + {(c.newRun, c.stamp)});
      if c.outcome == Refused then t
      else t.(hist := s.hist[c.newRun := [run]], plans := s.plans[c.newRun := workflow])
    case Resume(id, _, _) =>
      if c.outcome != Done || id !in s.hist then Goto(s, call, Return(false))
      else s.(calls := s.calls[call := x.(run := s.hist[id][c.seen], pc := Loaded)])
  }

  /** The kind of action i of a run, if the workflow has one. */
  function KindAt(s: State, run: RunId, i: nat): Option<ActionKind> {
    if run in s.plans && i < |s.plans[run].actions| then Some(s.plans[run].actions[i]) else None
  }

  /** Where performing an action leads: a long delay still has to push its job; a short one has slept, which cannot
      fail, and scheduled nothing. */
  function AfterAction(kind: Option<ActionKind>, i: nat, c: Choice): Pc {
    match kind
    case Some(ShortDelay) => Pausing(i, None)
    case Some(Regular) => if c.outcome == Done then Marking(i) else Failing
    case Some(LongDelay) => if c.outcome == Done then Pushing(i, c.job) else Failing
    case None => Failing
  }

  /** Performing action i: the job record of a long delay is created here. */
  function ActStep(s: State, call: nat, i: nat, c: Choice): State
    requires CanWork(s, call, c) && s.calls[call].pc == Acting(i)
  {
    var run := s.calls[call].run;
    var kind := KindAt(s, run.runId, i);
    var t := if kind == Some(LongDelay) && c.outcome != Refused
             then s.(sched := Sched.Step(s.sched, Sched.Create(c.job)),
                     jobs := s.jobs[c.job := Job(run.runId, i, run.updatedAt)])
             else s;
    Goto(t, call, AfterAction(kind, i, c))
  }

  /** The job a pause was stored for is noted beside the stamp of the stored record. */
  function NoteAuthor(t: State, stamp: Stamp, scheduled: Option<Id>): State {
    if scheduled.Some? then t.(author := t.author[stamp := scheduled.value]) else t
  }

  function PauseStep(s: State, call: nat, i: nat, scheduled: Option<Id>, c: Choice): State
    requires call in s.calls
  {
    var t := Write(s, call, SetActionScheduled(i), c, if Reported(s, call, c) then PauseLogging else Failing);
    if Applied(s, call, c) then NoteAuthor(t, (s.calls[call].run.runId, c.stamp), scheduled) else t
  }

  function PushStep(s: State, call: nat, i: nat, job: Id, c: Choice): State
    requires CanWork(s, call, c) && s.calls[call].pc == Pushing(i, job)
  {
    Goto(s.(sched := Sched.Step(s.sched, Sched.Push(job, c.executeAt, c.now, c.outcome))), call,
         if c.outcome == Done then Pausing(i, Some(job)) else Failing)
  }

  /** The positions whose remote call is a conditional write of the run. */
  predicate WritesRun(pc: Pc, plan: Workflow) {
    match pc
    case Conditions(i) => i < plan.conditions
    case Actions(i) => i < |plan.actions|
    case Loaded | Stopping(_) | Pausing(_, _) | Marking(_) | Failing | Finishing => true
    case _ => false
  }

  predicate Writing(s: State, call: nat)
    requires call in s.calls
  {
    WritesRun(s.calls[call].pc, Plan(s, s.calls[call].run.runId))
  }

  function ResumeIndex(body: Message): nat { if body.Resume? then body.index else 0 }

  /** The setter called before the write. */
  function ChangeAt(x: Call): Change {
    match x.pc
    case Loaded => SetActionCompleted(ResumeIndex(x.body))
    case Conditions(i) => SetCondition(i)
    case Actions(i) => SetActionStarted(i)
    case Stopping(change) => change
    case Pausing(i, _) => SetActionScheduled(i)
    case Marking(i) => SetActionCompleted(i)
    case Finishing => MarkCompleted
    case _ => MarkFailed
  }

  /** Where a call goes after its write, given whether the write was reported done: three positions ignore it. */
  function AfterWrite(x: Call, ok: bool): Pc {
    match x.pc
    case Loaded => if ok then Actions(ResumeIndex(x.body) + 1) else Return(false)
    case Conditions(i) => Evaluating(i)
    case Actions(i) => if ok then Logging(i) else Failing
    case Stopping(_) => Return(true)
    case Pausing(_, _) => if ok then PauseLogging else Failing
    case Marking(i) => Actions(i + 1)
    case Finishing => Return(ok)
    case _ => Return(false)
  }

  /** Where a call goes when its step does not write the run. */
  function AfterOther(pc: Pc, c: Choice): Pc {
    match pc
    case Conditions(_) => Actions(0)
    case Evaluating(i) =>
      (match c.verdict
       case Passed => Conditions(i + 1)
       case NotPassed => Stopping(MarkCompleted)
       case Broken => Stopping(MarkFailed))
    case Actions(_) => Finishing
    case Logging(i) => if c.outcome == Done then Acting(i) else Failing
    case PauseLogging => if c.outcome == Done then Return(true) else Failing
    case _ => Failing
  }

  function WorkStep(s: State, call: nat, c: Choice): State
    requires CanWork(s, call, c)
  {
    var x := s.calls[call];
    match x.pc
    case Begin => BeginStep(s, call, c)
    case Acting(i) => ActStep(s, call, i, c)
    case Pushing(i, job) => PushStep(s, call, i, job, c)
    case Pausing(i, scheduled) => PauseStep(s, call, i, scheduled, c)
    case _ =>
      if Writing(s, call) then Write(s, call, ChangeAt(x), c, AfterWrite(x, Reported(s, call, c)))
      else Goto(s, call, AfterOther(x.pc, c))
  }

  // ---------- the system ----------

  /** The scheduler's own steps; jobs are created and pushed by calls. */
  predicate IsSweepStep(l: Sched.Label) { !l.Create? && !l.Push? }

  /** The label can be taken, whatever the clock shows. */
  predicate Possible(s: State, l: Label) {
    match l
    case Submit(_) => true
    case Deliver(m) => m in s.queue
    case Work(call, c) => CanWork(s, call, c)
    case Delete(call) => call in s.calls && s.calls[call].pc == Return(true)
    case Abandon(call) => call in s.calls
    case DeadLetter(m) => m in s.queue
    case Tick(l) =>
      && IsSweepStep(l) && Sched.Enabled(s.sched, l)
      && (l.Send? ==> s.sched.sweeps[l.sweep].todo[0] in s.jobs)
  }

  /** The label can be taken and its setter reads a clock that never repeats a stamp on one run. */
  predicate Enabled(s: State, l: Label) {
    Possible(s, l) && (l.Work? ==> FreshStamp(s, l.call, l.choice))
  }

  function Details(s: State, job: Id): Message
    requires job in s.jobs
  {
    Resume(s.jobs[job].run, s.jobs[job].index, job)
  }

  function Step(s: State, l: Label): State
    requires Possible(s, l)
  {
    match l
    case Submit(workflow) => s.(queue := s.queue[s.nextMessage := Start(workflow)], nextMessage := s.nextMessage + 1)
    case Deliver(m) =>
      s.(calls := s.calls[s.nextCall := Call(m, s.queue[m], Begin, NewRun(0, 0))], nextCall := s.nextCall + 1)
    case Work(call, c) => WorkStep(s, call, c)
    case Delete(call) => s.(queue := s.queue - {s.calls[call].message}, calls := s.calls - {call})
    case Abandon(call) => s.(calls := s.calls - {call})
    case DeadLetter(m) => s.(queue := s.queue - {m}, dead := s.dead[m := s.queue[m]])
    case Tick(l) =>
      var t := s.(sched := Sched.Step(s.sched, l));
      if l.Send? && l.outcome != Refused
      then t.(queue := s.queue[s.nextMessage := Details(s, s.sched.sweeps[l.sweep].todo[0])],
        nextMessage := s.nextMessage + 1)
      else t
  }

  ghost predicate IsRun(states: seq<State>, labels: seq<Label>) {
    && |states| == |labels| + 1
    && states[0] == INITIAL
    && forall k :: 0 <= k < |labels| ==> Enabled(states[k], labels[k]) && states[k + 1] == Step(states[k], labels[k])
  }

  /** A run whose clock may repeat itself. */
  ghost predicate IsLooseRun(states: seq<State>, labels: seq<Label>) {
    && |states| == |labels| + 1
    && states[0] == INITIAL
    && forall k :: 0 <= k < |labels| ==> Possible(states[k], labels[k]) && states[k + 1] == Step(states[k], labels[k])
  }
}
