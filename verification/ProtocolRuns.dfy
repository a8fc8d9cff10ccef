/** The theorems about whole runs of the engine. */
module ProtocolRuns {
  import opened Domain
  import opened Options
  import opened RedisLists
  import opened Remote
  import opened Protocol
  import opened ProtocolSafety
  import Sched = SchedulerSteps

  lemma WorkKeepsInv(s: State, call: nat, c: Choice)
    requires Inv(s) && CanWork(s, call, c) && FreshStamp(s, call, c)
    ensures Inv(WorkStep(s, call, c))
  {
    hide Inv, BeginStep, ActStep, PushStep, PauseStep, Write, Goto;
    var x := s.calls[call];
    if x.pc == Begin { BeginKeepsInv(s, call, c); }
    else if x.pc.Acting? { ActKeepsInv(s, call, x.pc.index, c); }
    else if x.pc.Pushing? { PushKeepsInv(s, call, x.pc.index, x.pc.job, c); }
    else if x.pc.Pausing? { PauseKeepsInv(s, call, x.pc.index, x.pc.scheduled, c); }
    else if Writing(s, call) {
      WriteTarget(s, call, c);
      PlainWriteKeepsInv(s, call, ChangeAt(x), c, AfterWrite(x, Reported(s, call, c)));
    } else {
      PlainGotoKeepsInv(s, call, AfterOther(x.pc, c));
    }
  }

  lemma WriteTarget(s: State, call: nat, c: Choice)
    requires Inv(s) && CanWork(s, call, c) && FreshStamp(s, call, c) && Writing(s, call) && !s.calls[call].pc.Pausing?
    ensures PlainTarget(s, call, ChangeAt(s.calls[call]), c, AfterWrite(s.calls[call], Reported(s, call, c)))
  {
    InvParts(s, call);
  }

  // ---------- queue and scheduler steps ----------

  predicate OldCall(s: State, t: State, c: nat)
    requires c in t.calls
  {
    c in s.calls && t.calls[c] == s.calls[c]
  }

  predicate NewCall(s: State, t: State, c: nat)
    requires c in t.calls
  {
    var x := t.calls[c];
    c !in s.calls && c < t.nextCall && x.pc == Begin && x.message in s.queue && x.body == s.queue[x.message]
  }

  predicate OldMessage(s: State, t: State, m: nat)
    requires m in t.queue
  {
    m in s.queue && t.queue[m] == s.queue[m]
  }

  /** A dead letter was dead before, or has just left the queue. */
  predicate DeadFrom(s: State, t: State, m: nat)
    requires m in t.dead
  {
    (m in s.dead && t.dead[m] == s.dead[m]) || (m in s.queue && m !in t.queue && t.dead[m] == s.queue[m])
  }

  /** Steps that leave runs, jobs and stamps alone. */
  lemma SideStepKeepsInv(s: State, t: State)
    requires Inv(s) && t.hist == s.hist && t.plans == s.plans && t.used == s.used && t.author == s.author
      && t.jobs == s.jobs
    requires t.sched.records == s.sched.records && s.sched.pushed.Keys <= t.sched.pushed.Keys
    requires s.nextCall <= t.nextCall && s.nextMessage <= t.nextMessage
    requires forall c :: c in t.calls ==> OldCall(s, t, c) || NewCall(s, t, c)
    requires forall m :: m in t.queue ==>
      OldMessage(s, t, m) || (s.nextMessage <= m < t.nextMessage && BodyOk(s, t.queue[m]))
    requires forall m :: m in t.dead ==> DeadFrom(s, t, m)
    requires forall j :: j in t.sched.sent ==> j in s.jobs && (Queued(t, j) || Superseded(s, j))
    ensures Inv(t)
  {
    assert Later(s, t);
    SideStepCalls(s, t);
    AssemblePauses(s, t) by { assert NewPausesOk(s, t); }
    SideStepMessages(s, t);
  }

  lemma SideStepCalls(s: State, t: State)
    requires StoreOk(s) && JobsOk(s) && CallsOk(s) && MessagesOk(s) && Later(s, t) && s.nextCall <= t.nextCall
    requires forall c :: c in t.calls ==> OldCall(s, t, c) || NewCall(s, t, c)
    ensures CallsOk(t)
  {
    forall c | c in t.calls ensures c < t.nextCall && CallOk(t, t.calls[c]) {
      if OldCall(s, t, c) { CallStays(s, t, s.calls[c]); } else { assert BodyOk(s, t.calls[c].body); }
    }
  }

  lemma SideStepMessages(s: State, t: State)
    requires StoreOk(s) && JobsOk(s) && MessagesOk(s) && Later(s, t)
    requires s.nextMessage <= t.nextMessage
    requires forall c :: c in t.calls ==> OldCall(s, t, c) || NewCall(s, t, c)
    requires forall m :: m in t.queue ==>
      OldMessage(s, t, m) || (s.nextMessage <= m < t.nextMessage && BodyOk(s, t.queue[m]))
    requires forall m :: m in t.dead ==> DeadFrom(s, t, m)
    requires forall j :: j in t.sched.sent ==> j in s.jobs && (Queued(t, j) || Superseded(s, j))
    ensures MessagesOk(t)
  {
    forall m | m in t.queue ensures m < t.nextMessage && BodyOk(t, t.queue[m]) { assert BodyOk(s, t.queue[m]); }
    forall m | m in t.dead ensures m !in t.queue && m < t.nextMessage && BodyOk(t, t.dead[m]) {
      assert DeadFrom(s, t, m) && BodyOk(s, t.dead[m]);
      assert m in t.queue ==> OldMessage(s, t, m) || s.nextMessage <= m;
    }
    forall m, c | m in t.queue && c in t.calls && t.calls[c].message == m ensures t.calls[c].body == t.queue[m] {
      assert OldMessage(s, t, m);
    }
    forall j | j in t.sched.sent ensures j in t.jobs && (Queued(t, j) || Superseded(t, j)) {
      if Superseded(s, j) { SupersededStays(s, t, j); }
    }
  }

  lemma DeleteKeepsInv(s: State, call: nat)
    requires Inv(s) && Enabled(s, Delete(call))
    ensures Inv(Step(s, Delete(call)))
  {
    var t := Step(s, Delete(call));
    var m := s.calls[call].message;
    assert CallOk(s, s.calls[call]);
    forall j | j in s.sched.sent ensures j in s.jobs && (Queued(t, j) || Superseded(s, j)) {
      if !Superseded(s, j) {
        assert Queued(s, j);
        if n :| n in s.queue && s.queue[n].Resume? && s.queue[n].job == j {
          assert n != m;
          assert n in t.queue;
        } else {
          var n :| n in s.dead && s.dead[n].Resume? && s.dead[n].job == j;
          assert n in t.dead;
        }
      }
    }
    SideStepKeepsInv(s, t);
  }

  lemma DeadLetterKeepsInv(s: State, m: nat)
    requires Inv(s) && Enabled(s, DeadLetter(m))
    ensures Inv(Step(s, DeadLetter(m)))
  {
    var t := Step(s, DeadLetter(m));
    forall j | j in s.sched.sent && Queued(s, j) ensures Queued(t, j) {
      if n :| n in s.queue && s.queue[n].Resume? && s.queue[n].job == j {
        if n == m { assert m in t.dead; } else { assert n in t.queue; }
      } else {
        var n :| n in s.dead && s.dead[n].Resume? && s.dead[n].job == j;
        assert n in t.dead;
      }
    }
    SideStepKeepsInv(s, t);
  }

  lemma TickKeepsInv(s: State, l: Sched.Label)
    requires Inv(s) && Enabled(s, Tick(l))
    ensures Inv(Step(s, Tick(l)))
  {
    hide Sched.Step, Sched.Enabled, StoreOk, JobsOk, CallsOk, PausesOk;
    var t := Step(s, Tick(l));
    SweepEffects(s.sched, l);
    TickQueued(s, t, l);
    if SendsMessage(l) { assert BodyOk(s, t.queue[s.nextMessage]); }
    SideStepKeepsInv(s, t);
  }

  lemma TickQueued(s: State, t: State, l: Sched.Label)
    requires MessagesOk(s) && Enabled(s, Tick(l)) && t == Step(s, Tick(l))
    requires t.sched.sent == if SendsMessage(l) then s.sched.sent + {s.sched.sweeps[l.sweep].todo[0]} else s.sched.sent
    ensures forall j :: j in t.sched.sent ==> j in s.jobs && (Queued(t, j) || Superseded(s, j))
  {
    hide Sched.Step;
    forall j | j in s.sched.sent && Queued(s, j) ensures Queued(t, j) { QueuedStays(s, t, j); }
    if SendsMessage(l) { assert t.queue[s.nextMessage] == Details(s, s.sched.sweeps[l.sweep].todo[0]); }
  }

  predicate SendsMessage(l: Sched.Label) { l.Send? && l.outcome != Refused }

  lemma SweepEffects(s: Sched.State, l: Sched.Label)
    requires Sched.Enabled(s, l) && IsSweepStep(l)
    ensures Sched.Step(s, l).records == s.records && Sched.Step(s, l).pushed == s.pushed
    ensures Sched.Step(s, l).sent == if SendsMessage(l) then s.sent + {s.sweeps[l.sweep].todo[0]} else s.sent
  {
  }

  lemma QueuedStays(s: State, t: State, j: Id)
    requires Queued(s, j)
    requires forall m :: m in s.queue ==> m in t.queue && t.queue[m] == s.queue[m]
    requires forall m :: m in s.dead ==> m in t.dead && t.dead[m] == s.dead[m]
    ensures Queued(t, j)
  {
    if n :| n in s.queue && s.queue[n].Resume? && s.queue[n].job == j { assert n in t.queue; }
    else { var n :| n in s.dead && s.dead[n].Resume? && s.dead[n].job == j; assert n in t.dead; }
  }

  lemma QueueStepKeepsInv(s: State, l: Label)
    requires Inv(s) && Enabled(s, l) && (l.Submit? || l.Deliver? || l.Abandon?)
    ensures Inv(Step(s, l))
  {
    var t := Step(s, l);
    forall j | j in s.sched.sent && Queued(s, j) ensures Queued(t, j) { QueuedStays(s, t, j); }
    SideStepKeepsInv(s, t);
  }

  lemma StepKeepsInv(s: State, l: Label)
    requires Inv(s) && Enabled(s, l)
    ensures Inv(Step(s, l))
  {
    hide Inv;
    match l
    case Work(call, c) => WorkKeepsInv(s, call, c);
    case Delete(call) => DeleteKeepsInv(s, call);
    case DeadLetter(m) => DeadLetterKeepsInv(s, m);
    case Tick(tick) => TickKeepsInv(s, tick);
    case _ => QueueStepKeepsInv(s, l);
  }

  lemma {:induction false} RunInv(states: seq<State>, labels: seq<Label>, n: nat)
    requires IsRun(states, labels) && n < |states|
    ensures Inv(states[n])
  {
    if n > 0 {
      RunInv(states, labels, n - 1);
      StepKeepsInv(states[n - 1], labels[n - 1]);
    }
  }

  // ---------- no paused run is forgotten ----------

  /** What the steps of a call do outside its own record: to the store, to the scheduler, to other calls. */
  ghost predicate WorkFrame(s: State, t: State, call: nat, c: Choice)
    requires call in s.calls
  {
    && call in t.calls && t.calls == s.calls[call := t.calls[call]] && t.nextCall == s.nextCall && s.used <= t.used
    && t.calls[call].pc != Begin
    && (|| t.sched == s.sched
        || (s.calls[call].pc.Acting? && Sched.Enabled(s.sched, Sched.Create(c.job))
          && t.sched == Sched.Step(s.sched, Sched.Create(c.job)))
        || PushFrame(s, t, s.calls[call].pc, c))
  }

  ghost predicate PushFrame(s: State, t: State, pc: Pc, c: Choice) {
    && pc.Pushing? && Sched.Enabled(s.sched, Sched.Push(pc.job, c.executeAt, c.now, c.outcome))
    && t.sched == Sched.Step(s.sched, Sched.Push(pc.job, c.executeAt, c.now, c.outcome))
  }

  /** Every writing step is one conditional write; every other step of a loaded call leaves the store alone. */
  ghost predicate StoreFrame(s: State, t: State, call: nat, c: Choice)
    requires call in s.calls && call in t.calls
  {
    var x := s.calls[call];
    var run := if Writing(s, call) then Apply(x.run, ChangeAt(x), c.stamp) else x.run;
    && t.calls[call].run == run && t.calls[call].pc != Loaded
    && (Writing(s, call) ==> (run.runId, c.stamp) in t.used)
    && t.hist == (if Writing(s, call) && Applied(s, call, c) then Store(s.hist, run) else s.hist)
  }

  lemma BeginFrame(s: State, call: nat, c: Choice)
    requires CanWork(s, call, c) && s.calls[call].pc == Begin
    ensures WorkFrame(s, BeginStep(s, call, c), call, c)
    ensures forall r :: r in s.hist ==> r in BeginStep(s, call, c).hist && BeginStep(s, call, c).hist[r] == s.hist[r]
  {
    hide Sched.Step, Sched.Enabled, PushFrame;
  }

  lemma ActFrame(s: State, call: nat, i: nat, c: Choice)
    requires CanWork(s, call, c) && s.calls[call].pc == Acting(i)
    ensures var t := ActStep(s, call, i, c); WorkFrame(s, t, call, c) && StoreFrame(s, t, call, c)
  {
    hide Sched.Step, Sched.Enabled;
  }

  lemma PushingFrame(s: State, call: nat, i: nat, job: Id, c: Choice)
    requires CanWork(s, call, c) && s.calls[call].pc == Pushing(i, job)
    ensures var t := PushStep(s, call, i, job, c); WorkFrame(s, t, call, c) && StoreFrame(s, t, call, c)
  {
    hide Sched.Step, Sched.Enabled;
  }

  lemma PauseFrame(s: State, call: nat, i: nat, scheduled: Option<Id>, c: Choice)
    requires CanWork(s, call, c) && s.calls[call].pc == Pausing(i, scheduled)
    ensures var t := PauseStep(s, call, i, scheduled, c); WorkFrame(s, t, call, c) && StoreFrame(s, t, call, c)
  {
    hide Sched.Step, Sched.Enabled;
  }

  lemma OtherFrame(s: State, call: nat, c: Choice)
    requires CanWork(s, call, c)
    requires var pc := s.calls[call].pc; pc != Begin && !pc.Acting? && !pc.Pushing? && !pc.Pausing?
    ensures var t := WorkStep(s, call, c); WorkFrame(s, t, call, c) && StoreFrame(s, t, call, c)
  {
    hide Sched.Step, Sched.Enabled, BeginStep, ActStep, PushStep, PauseStep;
  }

  lemma StepFrames(s: State, call: nat, c: Choice)
    requires CanWork(s, call, c)
    ensures WorkFrame(s, WorkStep(s, call, c), call, c)
    ensures s.calls[call].pc != Begin ==> StoreFrame(s, WorkStep(s, call, c), call, c)
  {
    hide Sched.Step, BeginStep, ActStep, PushStep, PauseStep, WorkFrame, StoreFrame;
    var x := s.calls[call];
    if x.pc == Begin { BeginFrame(s, call, c); }
    else if x.pc.Acting? { ActFrame(s, call, x.pc.index, c); }
    else if x.pc.Pushing? { PushingFrame(s, call, x.pc.index, x.pc.job, c); }
    else if x.pc.Pausing? { PauseFrame(s, call, x.pc.index, x.pc.scheduled, c); }
    else { OtherFrame(s, call, c); }
  }

  /** Which remote call comes next. */
  function NextPc(s: State, call: nat, c: Choice): Pc
    requires CanWork(s, call, c)
  {
    var x := s.calls[call];
    match x.pc
    case Begin =>
      (match x.body
       case Start(_) => if c.outcome == Done then Conditions(0) else Return(false)
       case Resume(id, _, _) => if c.outcome == Done && id in s.hist then Loaded else Return(false))
    case Acting(i) => AfterAction(KindAt(s, x.run.runId, i), i, c)
    case Pushing(i, job) => if c.outcome == Done then Pausing(i, Some(job)) else Failing
    case _ => if Writing(s, call) then AfterWrite(x, Reported(s, call, c)) else AfterOther(x.pc, c)
  }

  /** The call goes on as NextPc says and keeps its message. */
  ghost predicate PcFrame(s: State, t: State, call: nat, c: Choice)
    requires CanWork(s, call, c)
  {
    && call in t.calls && t.calls[call].pc == NextPc(s, call, c)
    && t.calls[call].message == s.calls[call].message && t.calls[call].body == s.calls[call].body
  }

  lemma BeginPc(s: State, call: nat, c: Choice)
    requires CanWork(s, call, c) && s.calls[call].pc == Begin
    ensures PcFrame(s, BeginStep(s, call, c), call, c)
  {
    hide Sched.Step, Sched.Enabled, PauseStep, Write, PushStep, ActStep;
  }

  lemma ActPc(s: State, call: nat, i: nat, c: Choice)
    requires CanWork(s, call, c) && s.calls[call].pc == Acting(i)
    ensures PcFrame(s, ActStep(s, call, i, c), call, c)
  {
    hide Sched.Step, Sched.Enabled, BeginStep, PauseStep, PushStep;
  }

  lemma PushPc(s: State, call: nat, i: nat, job: Id, c: Choice)
    requires CanWork(s, call, c) && s.calls[call].pc == Pushing(i, job)
    ensures PcFrame(s, PushStep(s, call, i, job, c), call, c)
  {
    hide Sched.Step, Sched.Enabled, BeginStep, PauseStep, ActStep;
  }

  lemma PausePc(s: State, call: nat, i: nat, scheduled: Option<Id>, c: Choice)
    requires CanWork(s, call, c) && s.calls[call].pc == Pausing(i, scheduled)
    ensures PcFrame(s, PauseStep(s, call, i, scheduled, c), call, c)
  {
    hide Sched.Step, Sched.Enabled, BeginStep, PushStep, ActStep;
  }

  lemma OtherPc(s: State, call: nat, c: Choice)
    requires CanWork(s, call, c)
    requires var pc := s.calls[call].pc; pc != Begin && !pc.Acting? && !pc.Pushing? && !pc.Pausing?
    ensures PcFrame(s, WorkStep(s, call, c), call, c)
    ensures WorkStep(s, call, c).jobs == s.jobs && WorkStep(s, call, c).sched == s.sched
  {
    hide Sched.Step, Sched.Enabled, BeginStep, PauseStep, PushStep, ActStep, AfterWrite, AfterOther, ChangeAt;
  }

  lemma StepPc(s: State, call: nat, c: Choice)
    requires CanWork(s, call, c)
    ensures PcFrame(s, WorkStep(s, call, c), call, c)
  {
    hide Sched.Step, Sched.Enabled, BeginStep, PauseStep, PushStep, ActStep, PcFrame;
    var x := s.calls[call];
    if x.pc == Begin { BeginPc(s, call, c); }
    else if x.pc.Acting? { ActPc(s, call, x.pc.index, c); }
    else if x.pc.Pushing? { PushPc(s, call, x.pc.index, x.pc.job, c); }
    else if x.pc.Pausing? { PausePc(s, call, x.pc.index, x.pc.scheduled, c); }
    else { OtherPc(s, call, c); }
  }

  lemma SchedulerPart(s: State, l: Label)
    requires Enabled(s, l) && Sched.Inv(s.sched) && Sched.Accounted(s.sched)
    ensures Sched.Inv(Step(s, l).sched) && Sched.Accounted(Step(s, l).sched)
  {
    hide Sched.Inv, Sched.Accounted, Sched.Step, WorkStep;
    if l.Tick? {
      Sched.StepKeepsInv(s.sched, l.l);
      Sched.StepKeepsAccounted(s.sched, l.l);
    } else if l.Work? {
      var c := l.choice;
      var pc := s.calls[l.call].pc;
      StepFrames(s, l.call, c);
      if pc.Pushing? {
        Sched.StepKeepsInv(s.sched, Sched.Push(pc.job, c.executeAt, c.now, c.outcome));
        Sched.StepKeepsAccounted(s.sched, Sched.Push(pc.job, c.executeAt, c.now, c.outcome));
      } else if pc.Acting? {
        Sched.StepKeepsInv(s.sched, Sched.Create(c.job));
        Sched.StepKeepsAccounted(s.sched, Sched.Create(c.job));
      }
    }
  }

  lemma {:induction false} SchedulerInv(states: seq<State>, labels: seq<Label>, n: nat)
    requires IsRun(states, labels) && n < |states|
    ensures Sched.Inv(states[n].sched) && Sched.Accounted(states[n].sched)
  {
    hide Sched.Step;
    if n > 0 {
      SchedulerInv(states, labels, n - 1);
      SchedulerPart(states[n - 1], labels[n - 1]);
    }
  }

  /** Run `r` is stored as ACTION_i_SCHEDULED. */
  predicate PausedAt(s: State, r: RunId, i: nat) {
    r in s.hist && s.hist[r] != [] && Last(s.hist[r]).state == ActionScheduled(i)
  }

  /** The job is in the bucket or the TEMP list of its minute, or a message carrying it is undeleted or
      dead-lettered. */
  ghost predicate Recoverable(s: State, job: Id) {
    (job in s.sched.pushed && Sched.Waiting(s.sched, job)) || Queued(s, job)
  }

  /** The headline. In every interleaving of calls, redeliveries, crashes, sweeps and failed steps: while a run is
      stored as paused at a delay of at least 60 s, the job pushed by the very call that stored this record
      (scheduled on the ACTION_i_STARTED version right before it) is recoverable, or its record read failed. */
  lemma NoPausedRunIsForgotten(states: seq<State>, labels: seq<Label>, n: nat, r: RunId, i: nat)
    requires IsRun(states, labels) && n < |states|
    requires PausedAt(states[n], r, i) && KindAt(states[n], r, i) == Some(LongDelay)
    ensures var s := states[n];
      var stamp := (r, Last(s.hist[r]).updatedAt);
      && |s.hist[r]| > 1 && s.hist[r][|s.hist[r]| - 2].state == ActionStarted(i)
      && stamp in s.author && s.author[stamp] in s.jobs
      && s.jobs[s.author[stamp]] == Job(r, i, s.hist[r][|s.hist[r]| - 2].updatedAt)
      && (Recoverable(s, s.author[stamp]) || s.author[stamp] in s.sched.dropped)
  {
    var s := states[n];
    RunInv(states, labels, n);
    SchedulerInv(states, labels, n);
    assert PausedOk(s, r, |s.hist[r]| - 1);
    var job := s.author[(r, Last(s.hist[r]).updatedAt)];
    assert !Superseded(s, job);
    assert Sched.Waiting(s.sched, job) || job in s.sched.sent || job in s.sched.dropped;
  }

  /** With job reads that do not fail, the job is always recoverable. */
  lemma NoPausedRunIsForgottenIfReadsSucceed(states: seq<State>, labels: seq<Label>, n: nat, r: RunId, i: nat)
    requires IsRun(states, labels) && n < |states|
    requires PausedAt(states[n], r, i) && KindAt(states[n], r, i) == Some(LongDelay)
    requires forall k :: 0 <= k < n && labels[k].Tick? && labels[k].l.Fetch? ==> labels[k].l.found
    ensures var s := states[n];
      var stamp := (r, Last(s.hist[r]).updatedAt);
      stamp in s.author && Recoverable(s, s.author[stamp])
  {
    NoPausedRunIsForgotten(states, labels, n, r, i);
    NothingDropped(states, labels, n);
  }

  lemma {:induction false} NothingDropped(states: seq<State>, labels: seq<Label>, n: nat)
    requires IsRun(states, labels) && n < |states|
    requires forall k :: 0 <= k < n && labels[k].Tick? && labels[k].l.Fetch? ==> labels[k].l.found
    ensures states[n].sched.dropped == {}
  {
    if n > 0 {
      NothingDropped(states, labels, n - 1);
      DropsOnlyOnFailedReads(states[n - 1], labels[n - 1]);
    }
  }

  lemma DropsOnlyOnFailedReads(s: State, l: Label)
    requires Enabled(s, l) && (l.Tick? && l.l.Fetch? ==> l.l.found)
    ensures Step(s, l).sched.dropped == s.sched.dropped
  {
    hide WorkStep, Sched.Step;
    if l.Work? {
      var c := l.choice;
      var pc := s.calls[l.call].pc;
      StepFrames(s, l.call, c);
      if pc.Pushing? { Sched.StepDropsNothing(s.sched, Sched.Push(pc.job, c.executeAt, c.now, c.outcome)); }
      if pc.Acting? { Sched.StepDropsNothing(s.sched, Sched.Create(c.job)); }
    } else if l.Tick? {
      Sched.StepDropsNothing(s.sched, l.l);
    }
  }

  /** Delays under 60 s are the exception, and the only one: with job reads that succeed, a stored pause has a job for
      its action that waits in a list or is carried by a message if and only if its delay is a long one. No message
      resumes a short delay; a message for an earlier action of the run may still be there. */
  lemma OnlyShortDelaysAreForgotten(states: seq<State>, labels: seq<Label>, n: nat, r: RunId, i: nat)
    requires IsRun(states, labels) && n < |states| && PausedAt(states[n], r, i)
    requires forall k :: 0 <= k < n && labels[k].Tick? && labels[k].l.Fetch? ==> labels[k].l.found
    ensures var s := states[n];
      && (KindAt(s, r, i) == Some(LongDelay) || KindAt(s, r, i) == Some(ShortDelay))
      && (KindAt(s, r, i) == Some(LongDelay) <==> exists j :: Resumes(s, j, r, i) && Recoverable(s, j))
      && (KindAt(s, r, i) == Some(ShortDelay) ==>
           forall m :: m in s.queue && s.queue[m].Resume? ==> s.queue[m].run != r || s.queue[m].index != i)
  {
    PauseKinds(states, labels, n, r, i);
    var s := states[n];
    if KindAt(s, r, i) == Some(LongDelay) {
      NoPausedRunIsForgotten(states, labels, n, r, i);
      NoPausedRunIsForgottenIfReadsSucceed(states, labels, n, r, i);
      assert Resumes(s, s.author[(r, Last(s.hist[r]).updatedAt)], r, i);
    }
  }

  /** The job whose message resumes action i of the run. */
  ghost predicate Resumes(s: State, j: Id, r: RunId, i: nat) {
    j in s.jobs && s.jobs[j].run == r && s.jobs[j].index == i
  }

  lemma PauseKinds(states: seq<State>, labels: seq<Label>, n: nat, r: RunId, i: nat)
    requires IsRun(states, labels) && n < |states| && PausedAt(states[n], r, i)
    ensures var s := states[n];
      && (KindAt(s, r, i) == Some(LongDelay) || KindAt(s, r, i) == Some(ShortDelay))
      && (forall j :: Resumes(s, j, r, i) ==> KindAt(s, r, i) == Some(LongDelay))
      && (forall m :: m in s.queue && s.queue[m].Resume? ==>
           KindAt(s, s.queue[m].run, s.queue[m].index) == Some(LongDelay))
  {
    var s := states[n];
    RunInv(states, labels, n);
    assert PausedOk(s, r, |s.hist[r]| - 1);
    forall j | Resumes(s, j, r, i) ensures KindAt(s, r, i) == Some(LongDelay) { assert JobOk(s, s.jobs[j]); }
    forall m | m in s.queue && s.queue[m].Resume?
      ensures KindAt(s, s.queue[m].run, s.queue[m].index) == Some(LongDelay)
    {
      assert BodyOk(s, s.queue[m]);
    }
  }

  // ---------- fencing ----------

  /** Step k is a conditional write by the call. */
  predicate WritesAt(states: seq<State>, labels: seq<Label>, k: nat, call: nat) {
    k < |labels| && k < |states| && labels[k].Work? && labels[k].call == call && call in states[k].calls
      && Writing(states[k], call)
  }

  /** That write is rejected or refused: it does not reach the store. */
  predicate LostAt(states: seq<State>, labels: seq<Label>, k: nat, call: nat) {
    WritesAt(states, labels, k, call) && !Applied(states[k], call, labels[k].choice)
  }

  /** Positions between an accepted ACTION_i_STARTED and the end of the action: what has an effect outside the store
      happens only here. */
  predicate Busy(pc: Pc) { pc.Logging? || pc.Acting? || pc.Pushing? || pc.Pausing? || pc.PauseLogging? }

  /** The call's copy carries a stamp no stored version has, nor ever will, and the call performs no action. */
  ghost predicate Fenced(s: State, call: nat) {
    call < s.nextCall && (call in s.calls ==>
      && s.calls[call].pc != Begin && s.calls[call].pc != Loaded && !Busy(s.calls[call].pc)
      && (HoldsRun(s.calls[call].pc) ==> Orphan(s, s.calls[call].run)))
  }

  ghost predicate Orphan(s: State, run: Run) {
    && run.runId in s.hist && s.hist[run.runId] != [] && (run.runId, run.updatedAt) in s.used
    && (forall k :: 0 <= k < |s.hist[run.runId]| ==> s.hist[run.runId][k].updatedAt != run.updatedAt)
  }

  /** The store only appends: a run keeps its versions, and gains at most one, with an unused stamp. */
  ghost predicate Grows(s: State, t: State) {
    && s.used <= t.used
    && (forall r :: r in s.hist ==> r in t.hist && (t.hist[r] == s.hist[r] || Appended(s, t, r)))
  }

  lemma OrphanStays(s: State, t: State, run: Run)
    requires Grows(s, t) && Orphan(s, run)
    ensures Orphan(t, run)
  {
    var r := run.runId;
    forall k | 0 <= k < |t.hist[r]| ensures t.hist[r][k].updatedAt != run.updatedAt {
      if t.hist[r] != s.hist[r] && k < |s.hist[r]| { assert t.hist[r][k] == t.hist[r][..|s.hist[r]|][k]; }
    }
  }

  lemma LostWritePc(s: State, call: nat, c: Choice)
    requires CanWork(s, call, c) && Writing(s, call) && !Applied(s, call, c)
    ensures var pc := NextPc(s, call, c); pc != Begin && pc != Loaded && !Busy(pc)
  {
    hide Sched.Enabled;
  }

  /** A write that is not applied leaves an orphan behind: the setter has already changed the stamp. */
  lemma UnappliedWriteFences(s: State, call: nat, c: Choice)
    requires Inv(s) && CanWork(s, call, c) && FreshStamp(s, call, c) && Writing(s, call) && !Applied(s, call, c)
    ensures WorkStep(s, call, c).hist == s.hist && Fenced(WorkStep(s, call, c), call)
  {
    InvParts(s, call);
    CallsAreOld(s, call);
    hide WorkStep, Inv, NextPc, Busy, Accepts, Sched.Enabled;
    StepFrames(s, call, c);
    StepPc(s, call, c);
    LostWritePc(s, call, c);
    var r := s.calls[call].run.runId;
    assert HistoryOk(r, s.hist[r], s.used);
  }

  lemma CallsAreOld(s: State, call: nat)
    requires Inv(s) && call in s.calls
    ensures call < s.nextCall
  {
  }

  lemma WorkGrows(s: State, call: nat, c: Choice)
    requires CanWork(s, call, c) && FreshStamp(s, call, c)
    ensures Grows(s, WorkStep(s, call, c))
  {
    hide BeginStep, ActStep, PushStep, PauseStep, Write, Goto;
    StepFrames(s, call, c);
    if s.calls[call].pc == Begin {
      BeginFrame(s, call, c);
    } else {
      WriteAppends(s, WorkStep(s, call, c), call, c);
    }
  }

  lemma WriteAppends(s: State, t: State, call: nat, c: Choice)
    requires CanWork(s, call, c) && FreshStamp(s, call, c) && s.calls[call].pc != Begin
    requires WorkFrame(s, t, call, c) && StoreFrame(s, t, call, c)
    ensures Grows(s, t)
  {
    var r := s.calls[call].run.runId;
    if r in s.hist && t.hist[r] != s.hist[r] { assert t.hist[r][..|s.hist[r]|] == s.hist[r]; }
  }

  lemma StepGrows(s: State, l: Label)
    requires Enabled(s, l)
    ensures Grows(s, Step(s, l))
  {
    hide WorkStep;
    if l.Work? { WorkGrows(s, l.call, l.choice); }
  }

  /** A step of the call that stores nothing, performs nothing and schedules nothing. */
  ghost predicate NoEffect(s: State, t: State, call: nat) {
    call in s.calls && !Busy(s.calls[call].pc) && t.hist == s.hist && t.jobs == s.jobs && t.sched == s.sched
  }

  lemma IdleStep(s: State, call: nat, c: Choice)
    requires CanWork(s, call, c) && !Busy(s.calls[call].pc) && s.calls[call].pc != Begin
    ensures WorkStep(s, call, c).jobs == s.jobs && WorkStep(s, call, c).sched == s.sched
  {
    hide Sched.Step, Sched.Enabled, WorkStep;
    OtherPc(s, call, c);
  }

  /** A fenced call stays fenced, and none of its own steps has an effect. */
  lemma FencedStays(s: State, l: Label, call: nat)
    requires Inv(s) && Enabled(s, l) && Fenced(s, call)
    ensures Fenced(Step(s, l), call)
    ensures l.Work? && l.call == call ==> NoEffect(s, Step(s, l), call)
  {
    hide WorkStep, Inv;
    var t := Step(s, l);
    StepGrows(s, l);
    if l.Work? && l.call == call {
      var c := l.choice;
      IdleStep(s, call, c);
      if HoldsRun(s.calls[call].pc) {
        if Writing(s, call) { UnappliedWriteFences(s, call, c); }
        else { StepFrames(s, call, c); StepPc(s, call, c); OrphanStays(s, t, s.calls[call].run); }
      }
    } else if call in s.calls && call in t.calls {
      OtherCallsUntouched(s, l, call);
      if HoldsRun(s.calls[call].pc) { OrphanStays(s, t, s.calls[call].run); }
    } else {
      OtherCallsUntouched(s, l, call);
    }
  }

  lemma OtherCallsUntouched(s: State, l: Label, call: nat)
    requires Possible(s, l) && call < s.nextCall && !(l.Work? && l.call == call)
    ensures var t := Step(s, l);
      s.nextCall <= t.nextCall && (call in t.calls ==> call in s.calls && t.calls[call] == s.calls[call])
  {
    hide WorkStep;
    if l.Work? { StepFrames(s, l.call, l.choice); }
  }

  /** Fencing over whole runs: once a write of a call is rejected or lost, no later step of that call changes
      any run, not even handleActionFailure's FAILED, performs an action or schedules a job: a loser never overwrites
      a winner nor acts beside it. */
  lemma {:induction false} LoserNeverWrites(states: seq<State>, labels: seq<Label>, m: nat, n: nat, call: nat)
    requires IsRun(states, labels) && m < n < |labels| && LostAt(states, labels, m, call)
    ensures Fenced(states[n], call)
    ensures labels[n].Work? && labels[n].call == call ==> NoEffect(states[n], states[n + 1], call)
    decreases n
  {
    hide Inv, WorkStep;
    if n == m + 1 {
      RunInv(states, labels, m);
      UnappliedWriteFences(states[m], call, labels[m].choice);
    } else {
      LoserNeverWrites(states, labels, m, n - 1, call);
      RunInv(states, labels, n - 1);
      FencedStays(states[n - 1], labels[n - 1], call);
    }
    RunInv(states, labels, n);
    FencedStays(states[n], labels[n], call);
  }

  /** No lost update: in every reachable store, each version of a run is a setter's result on exactly the
      version it replaced, and no two versions share a stamp. */
  lemma NoLostUpdate(states: seq<State>, labels: seq<Label>, n: nat, r: RunId, k: nat)
    requires IsRun(states, labels) && n < |states| && r in states[n].hist && k + 1 < |states[n].hist[r]|
    ensures var h := states[n].hist[r];
      && Extends(h[k], h[k + 1])
      && (forall l :: 0 <= l < |h| && h[l].updatedAt == h[k].updatedAt ==> l == k)
  {
    RunInv(states, labels, n);
    assert HistoryOk(r, states[n].hist[r], states[n].used);
    assert Extends(states[n].hist[r][k], states[n].hist[r][k + 1]);
  }

  /** Stored versions are never withdrawn or reordered. */
  lemma {:induction false} HistoryIsAPrefix(states: seq<State>, labels: seq<Label>, m: nat, n: nat, r: RunId)
    requires IsRun(states, labels) && m <= n < |states| && r in states[m].hist
    ensures r in states[n].hist && states[m].hist[r] <= states[n].hist[r]
  {
    hide Step, Enabled;
    if m < n {
      HistoryIsAPrefix(states, labels, m, n - 1, r);
      StepExtends(states[n - 1], labels[n - 1], r);
    }
  }

  lemma StepExtends(s: State, l: Label, r: RunId)
    requires Enabled(s, l) && r in s.hist
    ensures r in Step(s, l).hist && s.hist[r] <= Step(s, l).hist[r]
  {
    hide Step;
    StepGrows(s, l);
    var t := Step(s, l);
    if t.hist[r] != s.hist[r] { assert t.hist[r][..|s.hist[r]|] == s.hist[r]; }
  }

  /** Terminal safety: whatever duplicates are delivered, a run stored as COMPLETED or FAILED is never stored as
      TRIGGERED again, in this state or any later one. */
  lemma TerminalStaysTerminal(states: seq<State>, labels: seq<Label>, m: nat, n: nat, r: RunId)
    requires IsRun(states, labels) && m <= n < |states| && r in states[m].hist && states[m].hist[r] != []
    requires Terminal(Last(states[m].hist[r]).status)
    ensures r in states[n].hist && states[n].hist[r] != [] && Terminal(Last(states[n].hist[r]).status)
  {
    HistoryIsAPrefix(states, labels, m, n, r);
    RunInv(states, labels, n);
    var h := states[n].hist[r];
    assert HistoryOk(r, h, states[n].used);
    var k := |states[m].hist[r]| - 1;
    assert h[k] == states[m].hist[r][k];
    TerminalFrom(h, k, |h| - 1);
  }

  lemma {:induction false} TerminalFrom(h: seq<Run>, k: nat, l: nat)
    requires k <= l < |h| && Terminal(h[k].status)
    requires forall i :: 0 <= i < |h| - 1 ==> Extends(h[i], h[i + 1])
    ensures Terminal(h[l].status)
  {
    if k < l {
      TerminalFrom(h, k, l - 1);
      assert Extends(h[l - 1], h[l]);
    }
  }

  // ---------- where the clean claims stop ----------

  /** The guard on Tick never holds a sweep back: every id a sweep works on has a job. */
  lemma SweptIdsHaveJobs(states: seq<State>, labels: seq<Label>, n: nat, l: Sched.Label)
    requires IsRun(states, labels) && n < |states| && IsSweepStep(l) && Sched.Enabled(states[n].sched, l)
    ensures Enabled(states[n], Tick(l))
  {
    RunInv(states, labels, n);
    SchedulerInv(states, labels, n);
    if l.Send? { assert Sched.OwnMinute(states[n].sched.pushed, states[n].sched.sweeps[l.sweep]); }
  }

  /** Any undeleted resume message can be handled whatever has become of its run, which may have moved on or ended:
      deliver it, read the run, and ACTION_i_COMPLETED is stored over the current version. */
  lemma QueuedMessageResumes(s: State, m: nat, c: Choice) returns (a: State, b: State, t: State)
    requires Inv(s) && m in s.queue && s.queue[m].Resume?
    requires s.queue[m].run in s.hist && c.outcome == Done && c.seen == |s.hist[s.queue[m].run]| - 1
    requires (s.queue[m].run, c.stamp) !in s.used
    ensures Enabled(s, Deliver(m)) && a == Step(s, Deliver(m))
    ensures Enabled(a, Work(s.nextCall, c)) && b == Step(a, Work(s.nextCall, c))
    ensures Enabled(b, Work(s.nextCall, c)) && t == Step(b, Work(s.nextCall, c))
    ensures var call, r, i := s.nextCall, s.queue[m].run, s.queue[m].index;
      && s.hist[r] != [] && r in t.hist
      && t.hist[r] == s.hist[r] + [Apply(Last(s.hist[r]), SetActionCompleted(i), c.stamp)]
      && call in t.calls && t.calls[call].pc == Actions(i + 1)
  {
    hide Sched.Enabled, Sched.Step, WorkStep, Inv;
    HistoryRunIds(s, s.queue[m].run);
    DeliveredRunIsRead(s, m, c);
    a := Step(s, Deliver(m));
    b := Step(a, Work(s.nextCall, c));
    t := Step(b, Work(s.nextCall, c));
    ResumeWrites(b, s.nextCall, c);
  }

  lemma DeliveredRunIsRead(s: State, m: nat, c: Choice)
    requires m in s.queue && s.queue[m].Resume?
    requires s.queue[m].run in s.hist && s.hist[s.queue[m].run] != []
    requires c.outcome == Done && c.seen == |s.hist[s.queue[m].run]| - 1
    ensures var call, a := s.nextCall, Step(s, Deliver(m));
      && Enabled(a, Work(call, c))
      && Step(a, Work(call, c)) == a.(calls := a.calls[call :=
        a.calls[call].(run := Last(s.hist[s.queue[m].run]), pc := Loaded)])
  {
    hide Sched.Enabled, Sched.Step, ActStep, PushStep, PauseStep, Write, Goto;
  }

  lemma HistoryRunIds(s: State, r: RunId)
    requires Inv(s) && r in s.hist
    ensures s.hist[r] != [] && Last(s.hist[r]).runId == r
  {
    assert HistoryOk(r, s.hist[r], s.used);
  }

  lemma ResumeWrites(s: State, call: nat, c: Choice)
    requires CanWork(s, call, c) && s.calls[call].pc == Loaded && c.outcome == Done
    requires var r := s.calls[call].run.runId; r in s.hist && s.hist[r] != [] && Last(s.hist[r]) == s.calls[call].run
    ensures var x, t := s.calls[call], WorkStep(s, call, c);
      && t.hist == Store(s.hist, Apply(x.run, SetActionCompleted(ResumeIndex(x.body)), c.stamp))
      && call in t.calls && t.calls[call].pc == Actions(ResumeIndex(x.body) + 1)
  {
    hide Sched.Enabled, Sched.Step;
  }
}
