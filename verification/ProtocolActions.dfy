/** Which actions of a run are performed, and performed again, in the whole engine. */
module ProtocolActions {
  import opened Domain
  import opened Options
  import opened RedisLists
  import opened Remote
  import opened Protocol
  import opened ProtocolSafety
  import opened ProtocolRuns
  import opened ProtocolProgress
  import Sched = SchedulerSteps

  /** The history has the version with this stamp, and it is ACTION_i_STARTED. */
  ghost predicate StartedAs(h: seq<Run>, stamp: int, i: nat) {
    exists k :: 0 <= k < |h| && h[k].updatedAt == stamp && h[k].state == ActionStarted(i)
  }

  /** Some version before position n is ACTION_i_STARTED. */
  ghost predicate StartedBefore(h: seq<Run>, n: nat, i: nat) {
    exists k :: 0 <= k < n && k < |h| && h[k].state == ActionStarted(i)
  }

  /** The call has stored the version it holds, or tried to: no other such call holds a record with that stamp. */
  predicate Owns(pc: Pc) { HoldsRun(pc) && pc != Loaded }

  ghost predicate EntryOk(s: State, e: Performance) {
    e.run in s.hist && StartedAs(s.hist[e.run], e.stamp, e.index)
  }

  /** Every action performed was started: its ACTION_i_STARTED is stored. */
  ghost predicate EntriesOk(s: State, log: Log) {
    forall p :: 0 <= p < |log.performed| ==> EntryOk(s, log.performed[p])
  }

  /** No version is acted on twice. */
  ghost predicate OncePerStart(log: Log) {
    forall p, q :: 0 <= p < q < |log.performed| ==> !SameStart(log.performed[p], log.performed[q])
  }

  predicate SameStart(a: Performance, b: Performance) { a.run == b.run && a.stamp == b.stamp }

  ghost predicate OwnersDiffer(s: State) {
    forall c, d :: c in s.calls && d in s.calls && c != d ==> CallsDiffer(s.calls[c], s.calls[d])
  }

  predicate CallsDiffer(x: Call, y: Call) {
    Owns(x.pc) && Owns(y.pc) && x.run.runId == y.run.runId ==> x.run.updatedAt != y.run.updatedAt
  }

  predicate AboutToAct(pc: Pc) { pc.Logging? || pc.Acting? }

  /** A call about to act has its ACTION_i_STARTED stored, and has not acted on it yet. */
  ghost predicate ActorsOk(s: State, log: Log) {
    forall c :: c in s.calls && AboutToAct(s.calls[c].pc) ==> ActorOk(s, log, s.calls[c])
  }

  ghost predicate ActorOk(s: State, log: Log, x: Call)
    requires AboutToAct(x.pc)
  {
    && EntryOk(s, Performance(x.run.runId, x.pc.index, x.run.updatedAt))
    && NotYet(log, x.run.runId, x.run.updatedAt)
  }

  ghost predicate NotYet(log: Log, r: RunId, stamp: int) {
    forall p :: 0 <= p < |log.performed| ==> !(log.performed[p].run == r && log.performed[p].stamp == stamp)
  }

  /** A job belongs to an action that was started, on the version it was scheduled on. */
  ghost predicate JobsStarted(s: State) {
    forall j :: j in s.jobs ==> EntryOk(s, Performance(s.jobs[j].run, s.jobs[j].index, s.jobs[j].base))
  }

  /** A resumed version completes the delay of its message's job, which was started before. */
  ghost predicate ResumedOk(s: State, log: Log, r: RunId, k: nat)
    requires r in s.hist && k < |s.hist[r]| && (r, s.hist[r][k].updatedAt) in log.resumed
  {
    var j := log.resumed[(r, s.hist[r][k].updatedAt)];
    && Resumes(s, j, r, s.hist[r][k].actionIndex)
    && StartedBefore(s.hist[r], k, s.hist[r][k].actionIndex)
  }

  ghost predicate ResumesOk(s: State, log: Log) {
    forall r, k :: r in s.hist && 0 <= k < |s.hist[r]| && (r, s.hist[r][k].updatedAt) in log.resumed
      ==> ResumedOk(s, log, r, k)
  }

  /** A job is pushed by the call that created it, and not twice. */
  ghost predicate PushersOk(s: State) {
    && (forall c :: c in s.calls && s.calls[c].pc.Pushing? ==>
         s.calls[c].pc.job in s.jobs && s.calls[c].pc.job !in s.sched.pushed)
    && (forall c, d :: c in s.calls && d in s.calls && c != d && s.calls[c].pc.Pushing? && s.calls[d].pc.Pushing?
          ==> s.calls[c].pc.job != s.calls[d].pc.job)
  }

  ghost predicate Acts(s: State, log: Log) {
    && EntriesOk(s, log) && OncePerStart(log) && OwnersDiffer(s) && ActorsOk(s, log)
    && JobsStarted(s) && ResumesOk(s, log) && PushersOk(s)
  }

  // ---------- growth ----------

  lemma StartedStays(s: State, t: State, e: Performance)
    requires Grows(s, t) && EntryOk(s, e)
    ensures EntryOk(t, e)
  {
    var h, g := s.hist[e.run], t.hist[e.run];
    var k :| 0 <= k < |h| && h[k].updatedAt == e.stamp && h[k].state == ActionStarted(e.index);
    assert g == h || g[..|h|] == h;
    assert g[k] == h[k];
  }

  lemma EntriesStay(s: State, t: State, log: Log)
    requires Grows(s, t) && EntriesOk(s, log)
    ensures EntriesOk(t, log)
  {
    hide Grows, EntryOk;
    forall p | 0 <= p < |log.performed| ensures EntryOk(t, log.performed[p]) { StartedStays(s, t, log.performed[p]); }
  }

  lemma ActorStays(s: State, t: State, log: Log, x: Call)
    requires Grows(s, t) && AboutToAct(x.pc) && ActorOk(s, log, x)
    ensures ActorOk(t, log, x)
  {
    hide Grows, EntryOk;
    StartedStays(s, t, Performance(x.run.runId, x.pc.index, x.run.updatedAt));
  }

  /** Entries carry stamps that are used up. */
  lemma EntryIsUsed(s: State, e: Performance)
    requires Inv(s) && EntryOk(s, e)
    ensures (e.run, e.stamp) in s.used
  {
    assert HistoryOk(e.run, s.hist[e.run], s.used);
  }

  lemma UnusedIsNotYet(s: State, log: Log, r: RunId, stamp: int)
    requires Inv(s) && EntriesOk(s, log) && (r, stamp) !in s.used
    ensures NotYet(log, r, stamp)
  {
    hide Inv, EntryOk;
    forall p | 0 <= p < |log.performed| ensures !(log.performed[p].run == r && log.performed[p].stamp == stamp) {
      EntryIsUsed(s, log.performed[p]);
    }
  }

  /** A resumed version of the past stays in order. */
  lemma ResumedStays(s: State, t: State, log: Log, more: Log, r: RunId, k: nat)
    requires Grows(s, t) && r in s.hist && k < |s.hist[r]| && (r, s.hist[r][k].updatedAt) in log.resumed
    requires ResumedOk(s, log, r, k)
    requires forall j :: j in s.jobs ==> j in t.jobs && t.jobs[j] == s.jobs[j]
    requires (r, s.hist[r][k].updatedAt) in more.resumed
    requires more.resumed[(r, s.hist[r][k].updatedAt)] == log.resumed[(r, s.hist[r][k].updatedAt)]
    ensures r in t.hist && k < |t.hist[r]| && t.hist[r][k] == s.hist[r][k] && ResumedOk(t, more, r, k)
  {
    var h, g := s.hist[r], t.hist[r];
    assert g == h || g[..|h|] == h;
    assert g[k] == h[k];
    var i :| 0 <= i < k && i < |h| && h[i].state == ActionStarted(h[k].actionIndex);
    assert g[i] == h[i];
  }

  // ---------- the steps of a call ----------

  /** Only performing a long delay creates a job, of the version the call holds. */
  ghost predicate JobsFrame(s: State, t: State, call: nat, c: Choice)
    requires call in s.calls
  {
    var x := s.calls[call];
    || t.jobs == s.jobs
    || (x.pc.Acting? && c.job !in s.sched.records && t.jobs
      == s.jobs[c.job := Job(x.run.runId, x.pc.index, x.run.updatedAt)])
  }

  lemma ActJobs(s: State, call: nat, i: nat, c: Choice)
    requires CanWork(s, call, c) && s.calls[call].pc == Acting(i)
    ensures JobsFrame(s, ActStep(s, call, i, c), call, c)
  {
    hide Sched.Step;
  }

  lemma BeginJobs(s: State, call: nat, c: Choice)
    requires CanWork(s, call, c) && s.calls[call].pc == Begin
    ensures BeginStep(s, call, c).jobs == s.jobs
  {
    hide Sched.Step, Sched.Enabled;
    if s.calls[call].body.Resume? { ReadJobs(s, call, c); }
  }

  lemma ReadJobs(s: State, call: nat, c: Choice)
    requires CanWork(s, call, c) && s.calls[call].pc == Begin && s.calls[call].body.Resume?
    ensures BeginStep(s, call, c).jobs == s.jobs
  {
    hide Sched.Step, Sched.Enabled;
  }

  lemma PushJobs(s: State, call: nat, i: nat, job: Id, c: Choice)
    requires CanWork(s, call, c) && s.calls[call].pc == Pushing(i, job)
    ensures PushStep(s, call, i, job, c).jobs == s.jobs
  {
    hide Sched.Step, Sched.Enabled;
  }

  lemma PauseJobs(s: State, call: nat, i: nat, scheduled: Option<Id>, c: Choice)
    requires CanWork(s, call, c) && s.calls[call].pc == Pausing(i, scheduled)
    ensures PauseStep(s, call, i, scheduled, c).jobs == s.jobs
  {
    hide Sched.Step, Sched.Enabled;
  }

  lemma QuietJobs(s: State, call: nat, c: Choice)
    requires CanWork(s, call, c) && !s.calls[call].pc.Acting?
    ensures WorkStep(s, call, c).jobs == s.jobs
  {
    hide Sched.Step, Sched.Enabled, BeginStep, ActStep, PushStep, PauseStep;
    var pc := s.calls[call].pc;
    if pc == Begin { BeginJobs(s, call, c); }
    else if pc.Pushing? { PushJobs(s, call, pc.index, pc.job, c); }
    else if pc.Pausing? { PauseJobs(s, call, pc.index, pc.scheduled, c); }
    else { OtherPc(s, call, c); }
  }

  lemma WorkJobs(s: State, call: nat, c: Choice)
    requires CanWork(s, call, c)
    ensures JobsFrame(s, WorkStep(s, call, c), call, c)
  {
    hide Sched.Step, Sched.Enabled, BeginStep, ActStep, PushStep, PauseStep, Write, Goto, JobsFrame;
    if s.calls[call].pc.Acting? { ActJobs(s, call, s.calls[call].pc.index, c); }
    else { QuietJobs(s, call, c); QuietJobsFrame(s, WorkStep(s, call, c), call, c); }
  }

  lemma QuietJobsFrame(s: State, t: State, call: nat, c: Choice)
    requires call in s.calls && t.jobs == s.jobs
    ensures JobsFrame(s, t, call, c)
  {
  }

  /** Everything the lemmas below use of a step: t is the state after it, x the call after it. */
  ghost predicate WorkedTo(s: State, t: State, call: nat, c: Choice) {
    && CanWork(s, call, c) && FreshStamp(s, call, c) && t == WorkStep(s, call, c)
    && WorkFrame(s, t, call, c) && (s.calls[call].pc != Begin ==> StoreFrame(s, t, call, c))
    && PcFrame(s, t, call, c) && Grows(s, t) && JobsFrame(s, t, call, c)
  }

  lemma Worked(s: State, call: nat, c: Choice)
    requires CanWork(s, call, c) && FreshStamp(s, call, c)
    ensures WorkedTo(s, WorkStep(s, call, c), call, c)
  {
    hide WorkStep, WorkFrame, StoreFrame, PcFrame, Grows, JobsFrame, FreshStamp, Sched.Enabled;
    StepFrames(s, call, c);
    StepPc(s, call, c);
    WorkGrows(s, call, c);
    WorkJobs(s, call, c);
  }

  /** After a step a call that owns its record either owned the same record before, or has just stamped it. */
  lemma OwnerAfter(s: State, t: State, call: nat, c: Choice)
    requires WorkedTo(s, t, call, c) && call in t.calls && Owns(t.calls[call].pc)
    ensures var x, y := s.calls[call], t.calls[call];
      (Owns(x.pc) && y.run == x.run) || (y.run.runId, y.run.updatedAt) !in s.used
  {
    hide WorkStep, Sched.Enabled, WorkFrame, Grows, JobsFrame;
    if s.calls[call].pc == Begin {
      WorkBegins(s, call, c);
      OwnerBegins(s, t, call, c);
    } else {
      OwnerGoesOn(s, t, call, c);
    }
  }

  lemma WorkBegins(s: State, call: nat, c: Choice)
    requires CanWork(s, call, c) && s.calls[call].pc == Begin
    ensures WorkStep(s, call, c) == BeginStep(s, call, c)
  {
    hide BeginStep, ActStep, PushStep, PauseStep, Write, Goto, Sched.Enabled;
  }

  lemma OwnerBegins(s: State, t: State, call: nat, c: Choice)
    requires CanWork(s, call, c) && FreshStamp(s, call, c) && s.calls[call].pc == Begin
    requires t == BeginStep(s, call, c) && call in t.calls && PcFrame(s, t, call, c) && Owns(t.calls[call].pc)
    ensures (t.calls[call].run.runId, t.calls[call].run.updatedAt) !in s.used
  {
    hide BeginStep, Sched.Enabled;
    StartedRun(s, t, call, c);
  }

  lemma StartedRun(s: State, t: State, call: nat, c: Choice)
    requires CanWork(s, call, c) && s.calls[call].pc == Begin && s.calls[call].body.Start?
    requires t == BeginStep(s, call, c)
    ensures call in t.calls && t.calls[call].run == NewRun(c.newRun, c.stamp)
  {
    hide Sched.Enabled;
  }

  lemma OwnerGoesOn(s: State, t: State, call: nat, c: Choice)
    requires CanWork(s, call, c) && FreshStamp(s, call, c) && s.calls[call].pc != Begin
    requires call in t.calls && StoreFrame(s, t, call, c)
    ensures var x, y := s.calls[call], t.calls[call];
      (Owns(x.pc) && y.run == x.run) || (y.run.runId, y.run.updatedAt) !in s.used
  {
    WritingHolds(s, call);
    hide Sched.Enabled, WritesRun, Accepts;
  }

  lemma OwnedIsUsed(s: State, call: nat)
    requires Inv(s) && call in s.calls && HoldsRun(s.calls[call].pc)
    ensures (s.calls[call].run.runId, s.calls[call].run.updatedAt) in s.used
  {
    InvParts(s, call);
  }

  lemma WorkKeepsOwners(s: State, t: State, call: nat, c: Choice)
    requires Inv(s) && OwnersDiffer(s) && WorkedTo(s, t, call, c)
    ensures OwnersDiffer(t)
  {
    CallsAfter(s, t, call, c);
    hide Inv, WorkedTo, HoldsRun;
    forall a, b | a in t.calls && b in t.calls && a != b ensures CallsDiffer(t.calls[a], t.calls[b]) {
      assert a in s.calls && b in s.calls && CallsDiffer(s.calls[a], s.calls[b]);
      if a == call { OneOwnerDiffers(s, t, call, c, b); }
      if b == call { OneOwnerDiffers(s, t, call, c, a); }
    }
  }

  lemma CallsAfter(s: State, t: State, call: nat, c: Choice)
    requires WorkedTo(s, t, call, c)
    ensures call in s.calls && call in t.calls && t.calls == s.calls[call := t.calls[call]]
  {
    hide WorkStep, StoreFrame, PcFrame, Grows, JobsFrame, FreshStamp, Sched.Enabled;
  }

  lemma OneOwnerDiffers(s: State, t: State, call: nat, c: Choice, d: nat)
    requires Inv(s) && WorkedTo(s, t, call, c) && d != call && d in s.calls && call in t.calls
    requires CallsDiffer(s.calls[call], s.calls[d])
    ensures CallsDiffer(t.calls[call], s.calls[d])
  {
    CallsAfter(s, t, call, c);
    if Owns(t.calls[call].pc) && Owns(s.calls[d].pc) {
      OwnerAfter(s, t, call, c);
      OwnedIsUsed(s, d);
    }
  }

  // Entries, actors and jobs.

  lemma WorkKeepsEntries(s: State, t: State, log: Log, call: nat, c: Choice)
    requires WorkedTo(s, t, call, c) && EntriesOk(s, log) && ActorsOk(s, log) && OncePerStart(log)
    ensures EntriesOk(t, Logged(log, s, Work(call, c))) && OncePerStart(Logged(log, s, Work(call, c)))
  {
    hide WorkStep, WorkFrame, StoreFrame, PcFrame, Grows, JobsFrame, FreshStamp, Sched.Enabled, EntryOk, Applied;
    EntriesStay(s, t, log);
    var x := s.calls[call];
    if x.pc.Acting? {
      assert ActorOk(s, log, x);
      StartedStays(s, t, Performance(x.run.runId, x.pc.index, x.run.updatedAt));
    }
  }

  lemma WorkKeepsJobs(s: State, t: State, log: Log, call: nat, c: Choice)
    requires WorkedTo(s, t, call, c) && JobsStarted(s) && ActorsOk(s, log)
    ensures JobsStarted(t)
  {
    hide WorkStep, WorkFrame, StoreFrame, PcFrame, Grows, FreshStamp, Sched.Enabled, EntryOk;
    var x := s.calls[call];
    forall j | j in t.jobs ensures EntryOk(t, Performance(t.jobs[j].run, t.jobs[j].index, t.jobs[j].base)) {
      if j in s.jobs && t.jobs[j] == s.jobs[j] {
        StartedStays(s, t, Performance(s.jobs[j].run, s.jobs[j].index, s.jobs[j].base));
      } else {
        assert ActorOk(s, log, x);
        StartedStays(s, t, Performance(x.run.runId, x.pc.index, x.run.updatedAt));
      }
    }
  }

  lemma WorkKeepsActors(s: State, t: State, log: Log, call: nat, c: Choice)
    requires Inv(s) && WorkedTo(s, t, call, c) && EntriesOk(s, log) && ActorsOk(s, log) && OwnersDiffer(s)
    ensures ActorsOk(t, Logged(log, s, Work(call, c)))
  {
    CallsAfter(s, t, call, c);
    hide Inv, WorkedTo, HoldsRun, ActorOk, Sched.Enabled;
    var more := Logged(log, s, Work(call, c));
    forall d | d in t.calls && AboutToAct(t.calls[d].pc) ensures ActorOk(t, more, t.calls[d]) {
      if d == call { OwnActor(s, t, log, call, c); } else { OtherActor(s, t, log, call, c, d); }
    }
  }

  lemma OtherActor(s: State, t: State, log: Log, call: nat, c: Choice, d: nat)
    requires WorkedTo(s, t, call, c) && d != call && d in s.calls && AboutToAct(s.calls[d].pc)
    requires ActorOk(s, log, s.calls[d]) && CallsDiffer(s.calls[call], s.calls[d])
    ensures ActorOk(t, Logged(log, s, Work(call, c)), s.calls[d])
  {
    hide WorkStep, WorkFrame, StoreFrame, PcFrame, Grows, JobsFrame, FreshStamp, Sched.Enabled, EntryOk, Applied;
    ActorStays(s, t, log, s.calls[d]);
  }

  /** A call is about to act when its ACTION_i_STARTED has just been stored, or it stood before its action already. */
  lemma OwnActor(s: State, t: State, log: Log, call: nat, c: Choice)
    requires Inv(s) && WorkedTo(s, t, call, c) && EntriesOk(s, log) && ActorsOk(s, log)
    requires call in t.calls && AboutToAct(t.calls[call].pc)
    ensures ActorOk(t, Logged(log, s, Work(call, c)), t.calls[call])
  {
    hide Inv, WorkStep, WorkFrame, Grows, JobsFrame, Sched.Enabled, EntryOk, FreshStamp;
    var x := s.calls[call];
    ActorPc(s, call, c);
    if x.pc.Logging? {
      assert ActorOk(s, log, x);
      StartedStays(s, t, Performance(x.run.runId, x.pc.index, x.run.updatedAt));
    } else {
      JustStarted(s, t, call, c);
      UnusedIsNotYet(s, log, x.run.runId, c.stamp) by { FreshIsUnused(s, call, c); }
    }
  }

  lemma ActorPc(s: State, call: nat, c: Choice)
    requires CanWork(s, call, c) && AboutToAct(NextPc(s, call, c))
    ensures var x := s.calls[call];
      || (x.pc.Logging? && NextPc(s, call, c) == Acting(x.pc.index) && !Writing(s, call))
      || (x.pc.Actions? && NextPc(s, call, c) == Logging(x.pc.index) && Writing(s, call) && Applied(s, call, c))
  {
    hide Sched.Enabled;
  }

  lemma JustStarted(s: State, t: State, call: nat, c: Choice)
    requires WorkedTo(s, t, call, c) && s.calls[call].pc.Actions? && Writing(s, call) && Applied(s, call, c)
    ensures call in t.calls
    ensures var y := t.calls[call].run; y.runId == s.calls[call].run.runId && y.updatedAt == c.stamp
    ensures EntryOk(t, Performance(s.calls[call].run.runId, s.calls[call].pc.index, c.stamp))
  {
    hide WorkStep, Grows, JobsFrame, Sched.Enabled, FreshStamp, Accepts;
    var h := t.hist[t.calls[call].run.runId];
    assert h[|h| - 1].updatedAt == c.stamp && h[|h| - 1].state == ActionStarted(s.calls[call].pc.index);
  }

  // Resumed versions.

  /** Every version but the one a call's step stores was there before the step, or is a new run's first. */
  lemma NewVersion(s: State, t: State, call: nat, c: Choice, r: RunId, k: nat)
    requires WorkedTo(s, t, call, c) && s.calls[call].pc != Begin
    requires r in t.hist && k < |t.hist[r]| && (r !in s.hist || k >= |s.hist[r]|)
    ensures call in t.calls && Writing(s, call) && Applied(s, call, c)
    ensures r == s.calls[call].run.runId && t.hist[r][k] == Apply(s.calls[call].run, ChangeAt(s.calls[call]), c.stamp)
    ensures k == if r in s.hist then |s.hist[r]| else 0
  {
    CallsAfter(s, t, call, c);
    hide WorkStep, WorkFrame, PcFrame, Grows, JobsFrame, FreshStamp, Sched.Enabled, Accepts;
  }

  lemma OldVersion(s: State, t: State, r: RunId, k: nat)
    requires Grows(s, t) && r in s.hist && k < |s.hist[r]|
    ensures r in t.hist && k < |t.hist[r]| && t.hist[r][k] == s.hist[r][k]
  {
    assert t.hist[r] == s.hist[r] || t.hist[r][..|s.hist[r]|] == s.hist[r];
  }

  /** The entries of the log for stamps used before the step are what they were. */
  lemma OldStampsStay(s: State, log: Log, call: nat, c: Choice, stamp: Stamp)
    requires CanWork(s, call, c) && FreshStamp(s, call, c) && stamp in s.used
    ensures var more := Logged(log, s, Work(call, c)).resumed;
      (stamp in more <==> stamp in log.resumed) && (stamp in more ==> more[stamp] == log.resumed[stamp])
  {
    hide Sched.Enabled, Applied;
  }

  /** Only resumeWorkflow's own write is logged. */
  lemma NewStampIsResume(s: State, log: Log, call: nat, c: Choice, stamp: Stamp)
    requires CanWork(s, call, c) && log.resumed.Keys <= s.used && stamp !in s.used
    requires stamp in Logged(log, s, Work(call, c)).resumed
    ensures s.calls[call].pc == Loaded && Logged(log, s, Work(call, c)).resumed[stamp] == ResumedJob(s.calls[call].body)
  {
    hide Sched.Enabled, Applied;
  }

  lemma VersionIsUsed(s: State, r: RunId, k: nat)
    requires Inv(s) && r in s.hist && k < |s.hist[r]|
    ensures (r, s.hist[r][k].updatedAt) in s.used
  {
    assert HistoryOk(r, s.hist[r], s.used);
  }

  lemma WorkKeepsResumes(s: State, t: State, log: Log, call: nat, c: Choice)
    requires Inv(s) && log.resumed.Keys <= s.used && WorkedTo(s, t, call, c) && JobsStarted(s) && ResumesOk(s, log)
    ensures ResumesOk(t, Logged(log, s, Work(call, c)))
  {
    WorkedParts(s, t, call, c);
    hide Inv, WorkedTo, JobsStarted, ResumedOk, Logged, Grows, FreshStamp;
    var more := Logged(log, s, Work(call, c));
    forall r, k | r in t.hist && 0 <= k < |t.hist[r]| && (r, t.hist[r][k].updatedAt) in more.resumed
      ensures ResumedOk(t, more, r, k)
    {
      if r in s.hist && k < |s.hist[r]| {
        OldVersion(s, t, r, k);
        VersionIsUsed(s, r, k);
        OldStampsStay(s, log, call, c, (r, s.hist[r][k].updatedAt));
        ResumedStays(s, t, log, more, r, k);
      } else if s.calls[call].pc == Begin {
        BeginResumesNothing(s, t, log, call, c, r, k);
      } else {
        NewResumed(s, t, log, more, call, c, r, k);
      }
    }
  }

  lemma WorkedParts(s: State, t: State, call: nat, c: Choice)
    requires WorkedTo(s, t, call, c)
    ensures CanWork(s, call, c) && FreshStamp(s, call, c) && Grows(s, t)
    ensures forall j :: j in s.jobs && !(s.calls[call].pc.Acting? && j == c.job) ==>
      j in t.jobs && t.jobs[j] == s.jobs[j]
    ensures s.calls[call].pc.Acting? && t.jobs != s.jobs ==> c.job !in s.sched.records
  {
    hide WorkStep, WorkFrame, PcFrame, Grows, StoreFrame, FreshStamp, Sched.Enabled;
  }

  lemma BeginResumesNothing(s: State, t: State, log: Log, call: nat, c: Choice, r: RunId, k: nat)
    requires log.resumed.Keys <= s.used && WorkedTo(s, t, call, c) && s.calls[call].pc == Begin
    requires r in t.hist && k < |t.hist[r]| && (r !in s.hist || k >= |s.hist[r]|)
    ensures (r, t.hist[r][k].updatedAt) !in Logged(log, s, Work(call, c)).resumed
  {
    hide WorkStep, WorkFrame, PcFrame, Grows, StoreFrame, JobsFrame, Sched.Enabled, Applied;
    BeginHist(s, call, c);
  }

  lemma NewResumed(s: State, t: State, log: Log, more: Log, call: nat, c: Choice, r: RunId, k: nat)
    requires call in s.calls && CanWork(s, call, c) && FreshStamp(s, call, c) && more == Logged(log, s, Work(call, c))
    requires Inv(s) && log.resumed.Keys <= s.used && WorkedTo(s, t, call, c) && JobsStarted(s)
      && s.calls[call].pc != Begin
    requires r in t.hist && k < |t.hist[r]| && (r !in s.hist || k >= |s.hist[r]|)
    requires (r, t.hist[r][k].updatedAt) in more.resumed
    ensures ResumedOk(t, more, r, k)
  {
    hide Inv, WorkedTo, Logged, Grows, FreshStamp, Accepts, JobsStarted, WorkStep, CanWork, ResumedOk, WritesRun;
    WorkedParts(s, t, call, c);
    LoadedBody(s, call);
    NewVersion(s, t, call, c, r, k);
    FreshIsUnused(s, call, c);
    NewStampIsResume(s, log, call, c, (r, c.stamp));
    RunIsStored(s, call);
    ResumedNow(s, t, more, r, k, s.calls[call].body.job);
  }

  lemma ResumedNow(s: State, t: State, more: Log, r: RunId, k: nat, j: Id)
    requires Grows(s, t) && JobsStarted(s) && r in s.hist && r in t.hist && k < |t.hist[r]| && k == |s.hist[r]|
    requires t.hist[r][k].state.ActionCompleted? && Resumes(s, j, r, t.hist[r][k].actionIndex)
      && Resumes(t, j, r, t.hist[r][k].actionIndex)
    requires (r, t.hist[r][k].updatedAt) in more.resumed && more.resumed[(r, t.hist[r][k].updatedAt)] == j
    ensures ResumedOk(t, more, r, k)
  {
    var e := Performance(r, t.hist[r][k].actionIndex, s.jobs[j].base);
    assert EntryOk(s, e);
    var l :| 0 <= l < |s.hist[r]| && s.hist[r][l].updatedAt == e.stamp && s.hist[r][l].state == ActionStarted(e.index);
    OldVersion(s, t, r, l);
  }

  lemma LoadedBody(s: State, call: nat)
    requires Inv(s) && call in s.calls
    ensures var x := s.calls[call];
      x.pc == Loaded ==> x.body.Resume? && Resumes(s, x.body.job, x.run.runId, x.body.index)
  {
    InvParts(s, call);
  }

  // Pushing.

  lemma PushedAfter(s: State, t: State, call: nat, c: Choice)
    requires call in s.calls && WorkFrame(s, t, call, c)
    ensures t.sched.pushed.Keys <= s.sched.pushed.Keys + (if s.calls[call].pc.Pushing?
      then {s.calls[call].pc.job} else {})
  {
  }

  lemma ActPushes(s: State, call: nat, i: nat, c: Choice)
    requires CanWork(s, call, c) && s.calls[call].pc == Acting(i) && NextPc(s, call, c).Pushing?
    ensures NextPc(s, call, c).job == c.job && c.job in ActStep(s, call, i, c).jobs && c.job !in s.sched.records
  {
    hide Sched.Step;
  }

  lemma PusherAfter(s: State, t: State, call: nat, c: Choice)
    requires WorkedTo(s, t, call, c) && call in t.calls && t.calls[call].pc.Pushing?
    ensures s.calls[call].pc.Acting? && t.calls[call].pc.job == c.job && c.job in t.jobs && c.job !in s.sched.records
  {
    PusherActed(s, call, c);
    hide WorkFrame, StoreFrame, Grows, JobsFrame, FreshStamp, Sched.Enabled, NextPc, BeginStep, PushStep, PauseStep,
      ActStep;
    ActPushes(s, call, s.calls[call].pc.index, c);
  }

  lemma PusherActed(s: State, call: nat, c: Choice)
    requires CanWork(s, call, c) && NextPc(s, call, c).Pushing?
    ensures s.calls[call].pc.Acting?
  {
    hide Sched.Enabled;
  }

  lemma WorkKeepsPushers(s: State, t: State, call: nat, c: Choice)
    requires Inv(s) && Sched.Accounted(s.sched) && WorkedTo(s, t, call, c) && PushersOk(s)
    ensures PushersOk(t)
  {
    RecordsAreJobs(s);
    CallsAfter(s, t, call, c);
    WorkedParts(s, t, call, c);
    PushedAfter(s, t, call, c) by { WorkedFrame(s, t, call, c); }
    if t.calls[call].pc.Pushing? { PusherAfter(s, t, call, c); }
    hide *;
    PushersAfter(s, t, call, c.job);
  }

  lemma PushersAfter(s: State, t: State, call: nat, id: Id)
    requires PushersOk(s) && s.sched.records == s.jobs.Keys && s.sched.pushed.Keys <= s.sched.records
    requires call in s.calls && call in t.calls && t.calls == s.calls[call := t.calls[call]]
    requires forall j :: j in s.jobs && !(s.calls[call].pc.Acting? && j == id) ==> j in t.jobs && t.jobs[j] == s.jobs[j]
    requires s.calls[call].pc.Acting? && t.jobs != s.jobs ==> id !in s.sched.records
    requires t.sched.pushed.Keys <= s.sched.pushed.Keys
      + (if s.calls[call].pc.Pushing? then {s.calls[call].pc.job} else {})
    requires t.calls[call].pc.Pushing? ==>
      s.calls[call].pc.Acting? && t.calls[call].pc.job == id && id in t.jobs && id !in s.sched.records
    ensures PushersOk(t)
  {
  }

  lemma WorkedFrame(s: State, t: State, call: nat, c: Choice)
    requires WorkedTo(s, t, call, c)
    ensures call in s.calls && WorkFrame(s, t, call, c)
  {
    hide WorkStep, WorkFrame, PcFrame, Grows, StoreFrame, JobsFrame, FreshStamp, Sched.Enabled;
  }

  lemma RecordsAreJobs(s: State)
    requires Inv(s) && Sched.Accounted(s.sched)
    ensures s.sched.records == s.jobs.Keys && s.sched.pushed.Keys <= s.sched.records
  {
  }

  // ---------- all steps ----------

  lemma WorkKeepsActs(s: State, log: Log, call: nat, c: Choice)
    requires Inv(s) && Progress(s, log) && Sched.Accounted(s.sched) && Acts(s, log)
    requires CanWork(s, call, c) && FreshStamp(s, call, c)
    ensures Acts(WorkStep(s, call, c), Logged(log, s, Work(call, c)))
  {
    ResumedAreUsed(s, log);
    Worked(s, call, c);
    hide Inv, Progress, WorkedTo, WorkStep, Logged, FreshStamp, CanWork, Sched.Accounted,
      EntriesOk, OncePerStart, OwnersDiffer, ActorsOk, JobsStarted, ResumesOk, PushersOk;
    var t := WorkStep(s, call, c);
    WorkKeepsOwners(s, t, call, c);
    WorkKeepsEntries(s, t, log, call, c);
    WorkKeepsJobs(s, t, log, call, c);
    WorkKeepsActors(s, t, log, call, c);
    WorkKeepsResumes(s, t, log, call, c);
    WorkKeepsPushers(s, t, call, c);
  }

  lemma SidePushed(s: State, l: Label)
    requires Possible(s, l) && !l.Work?
    ensures Step(s, l).sched.pushed == s.sched.pushed
  {
    hide Sched.Step, WorkStep;
    if l.Tick? { SweepEffects(s.sched, l.l); }
  }

  /** What a step that is not a call's leaves as it was. */
  ghost predicate Aside(s: State, t: State) {
    && t.hist == s.hist && t.jobs == s.jobs && t.sched.pushed == s.sched.pushed
    && (forall c :: c in t.calls ==> (c in s.calls && t.calls[c] == s.calls[c]) || t.calls[c].pc == Begin)
  }

  lemma SideStepKeepsActs(s: State, log: Log, l: Label)
    requires Acts(s, log) && Possible(s, l) && !l.Work?
    ensures Acts(Step(s, l), log)
  {
    SideFrame(s, l);
    SidePushed(s, l);
    hide Step, Possible, EntriesOk, OncePerStart, OwnersDiffer, ActorsOk, JobsStarted, ResumesOk, PushersOk;
    var t := Step(s, l);
    AsideEntries(s, t, log);
    AsideCalls(s, t, log);
  }

  lemma AsideEntries(s: State, t: State, log: Log)
    requires Aside(s, t) && EntriesOk(s, log) && JobsStarted(s) && ResumesOk(s, log)
    ensures EntriesOk(t, log) && JobsStarted(t) && ResumesOk(t, log)
  {
    hide StartedAs, StartedBefore;
    forall p | 0 <= p < |log.performed| ensures EntryOk(t, log.performed[p]) { assert EntryOk(s, log.performed[p]); }
    forall j | j in t.jobs ensures EntryOk(t, Performance(t.jobs[j].run, t.jobs[j].index, t.jobs[j].base)) {
      assert EntryOk(s, Performance(s.jobs[j].run, s.jobs[j].index, s.jobs[j].base));
    }
    forall r, k | r in t.hist && 0 <= k < |t.hist[r]| && (r, t.hist[r][k].updatedAt) in log.resumed
      ensures ResumedOk(t, log, r, k) {
      assert ResumedOk(s, log, r, k);
    }
  }

  lemma AsideCalls(s: State, t: State, log: Log)
    requires Aside(s, t) && OwnersDiffer(s) && ActorsOk(s, log) && PushersOk(s)
    ensures OwnersDiffer(t) && ActorsOk(t, log) && PushersOk(t)
  {
    hide StartedAs;
    forall c, d | c in t.calls && d in t.calls && c != d ensures CallsDiffer(t.calls[c], t.calls[d]) {
      assert c in s.calls && d in s.calls && t.calls[c] == s.calls[c] && t.calls[d] == s.calls[d]
        ==> CallsDiffer(s.calls[c], s.calls[d]);
    }
    forall c | c in t.calls && AboutToAct(t.calls[c].pc)
      ensures ActorOk(t, log, t.calls[c]) { assert ActorOk(s, log, s.calls[c]); }
  }

  lemma StepKeepsActs(s: State, log: Log, l: Label)
    requires Inv(s) && Progress(s, log) && Sched.Accounted(s.sched) && Acts(s, log) && Enabled(s, l)
    ensures Acts(Step(s, l), Logged(log, s, l))
  {
    hide Inv, Progress, Acts, WorkStep, FreshStamp, Sched.Accounted, Sched.Enabled, Sched.Step, CanWork;
    if l.Work? { WorkKeepsActs(s, log, l.call, l.choice); } else { SideStepKeepsActs(s, log, l); }
  }

  lemma {:induction false} RunActs(states: seq<State>, labels: seq<Label>, n: nat)
    requires IsRun(states, labels) && n < |states|
    ensures Inv(states[n]) && Progress(states[n], LogOf(states, labels, n)) && Acts(states[n], LogOf(states, labels, n))
  {
    hide Inv, Progress, Acts, Step, Enabled, Sched.Accounted, Sched.Inv;
    RunProgress(states, labels, n);
    if n > 0 {
      RunActs(states, labels, n - 1);
      SchedulerInv(states, labels, n - 1);
      StepKeepsActs(states[n - 1], LogOf(states, labels, n - 1), labels[n - 1]);
      LogStep(states, labels, n);
    } else {
      NoActsYet();
    }
  }

  lemma NoActsYet()
    ensures Acts(INITIAL, Log(map[], []))
  {
  }
}
