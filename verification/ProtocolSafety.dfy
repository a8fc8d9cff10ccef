/** What every run of the engine keeps: fencing by the optimistic lock, terminal statuses, and no paused run
    forgotten. */
module ProtocolSafety {
  import opened Domain
  import opened Options
  import opened RedisLists
  import opened Remote
  import opened Protocol
  import Sched = SchedulerSteps

  // ---------- what a step may do to the parts others rely on ----------

  /** `b` is what some setter makes of `a`. */
  ghost predicate Extends(a: Run, b: Run) { exists change :: b == Apply(a, change, b.updatedAt) }

  /** The stored versions of one run: each computed from the one it replaced, no stamp twice. */
  ghost predicate HistoryOk(run: RunId, records: seq<Run>, used: set<Stamp>) {
    && records != []
    && (forall k :: 0 <= k < |records| ==> records[k].runId == run && (run, records[k].updatedAt) in used)
    && (forall k, l :: 0 <= k < l < |records| ==> records[k].updatedAt != records[l].updatedAt)
    && (forall k :: 0 <= k < |records| - 1 ==> Extends(records[k], records[k + 1]))
  }

  ghost predicate StoreOk(s: State) {
    && (forall r :: r in s.hist ==> HistoryOk(r, s.hist[r], s.used))
    && (forall r :: r in s.hist <==> r in s.plans)
    && (forall stamp :: stamp in s.author ==> stamp in s.used && s.author[stamp] in s.jobs)
  }

  predicate HoldsRun(pc: Pc) { pc != Begin && !pc.Return? }

  /** A call's copy is the stored version with its stamp, if there is one: it is either a version of the
      history or it will never be accepted again. */
  ghost predicate CopyOk(s: State, run: Run) {
    && run.runId in s.hist
    && (run.runId, run.updatedAt) in s.used
    && (forall k :: 0 <= k < |s.hist[run.runId]| && s.hist[run.runId][k].updatedAt == run.updatedAt
          ==> s.hist[run.runId][k] == run)
  }

  /** A job belongs to a long delay of a stored run and was scheduled on a stamp that run has had. */
  ghost predicate JobOk(s: State, job: Job) {
    && job.run in s.hist && (job.run, job.base) in s.used && KindAt(s, job.run, job.index) == Some(LongDelay)
  }

  ghost predicate JobsOk(s: State) {
    && (forall j :: j in s.jobs ==> JobOk(s, s.jobs[j]))
    && s.sched.records == s.jobs.Keys
  }

  /** Neither the record the job was scheduled on nor the ACTION_i_SCHEDULED record it belongs to is stored. */
  ghost predicate Superseded(s: State, job: Id) {
    && job in s.jobs && s.jobs[job].run in s.hist && s.hist[s.jobs[job].run] != []
    && var r := s.jobs[job].run;
       var stamp := Last(s.hist[r]).updatedAt;
       stamp != s.jobs[job].base && ((r, stamp) in s.author ==> s.author[(r, stamp)] != job)
  }

  ghost predicate BodyOk(s: State, body: Message) {
    body.Resume? ==> body.job in s.jobs && s.jobs[body.job].run == body.run && s.jobs[body.job].index == body.index
  }

  ghost predicate CallOk(s: State, x: Call) {
    && BodyOk(s, x.body)
    && (HoldsRun(x.pc) ==> CopyOk(s, x.run))
    && (x.body.Resume? && x.pc == Loaded ==> x.run.runId == x.body.run)
    && (x.pc == Loaded ==> x.body.Resume?)
    && (x.pc.Stopping? ==> !x.pc.change.SetActionScheduled?)
    && (x.body.Resume? && HoldsRun(x.pc) && x.pc != Loaded ==> Superseded(s, x.body.job))
    && (x.body.Resume? && x.pc == Return(true) ==> Superseded(s, x.body.job))
    && (x.pc.Logging? || x.pc.Acting? || x.pc.Pushing? || x.pc.Pausing? ==> x.run.state == ActionStarted(x.pc.index))
    && (x.pc.Pushing? ==> x.pc.job in s.jobs && s.jobs[x.pc.job] == Job(x.run.runId, x.pc.index, x.run.updatedAt))
    && (x.pc.Pausing? ==> PauseOk(s, x.run, x.pc.index, x.pc.scheduled))
    && (x.pc.Pushing? ==> KindAt(s, x.run.runId, x.pc.index) == Some(LongDelay))
  }

  ghost predicate PauseOk(s: State, run: Run, i: nat, scheduled: Option<Id>) {
    match scheduled
    case None => KindAt(s, run.runId, i) == Some(ShortDelay)
    case Some(job) =>
      && KindAt(s, run.runId, i) == Some(LongDelay)
      && job in s.sched.pushed && job in s.jobs && s.jobs[job] == Job(run.runId, i, run.updatedAt)
  }

  ghost predicate CallsOk(s: State) {
    && (forall c :: c in s.calls ==> c < s.nextCall && CallOk(s, s.calls[c]))
  }

  /** A stored ACTION_i_SCHEDULED record: the version before it is ACTION_i_STARTED, and for a long delay
      its author pushed the job of exactly that version, before the record was written. */
  ghost predicate PausedOk(s: State, r: RunId, k: nat)
    requires r in s.hist && k < |s.hist[r]| && s.hist[r][k].state.ActionScheduled?
  {
    var i, stamp := s.hist[r][k].state.index, (r, s.hist[r][k].updatedAt);
    && k > 0 && s.hist[r][k - 1].state == ActionStarted(i)
    && (KindAt(s, r, i) == Some(ShortDelay) || KindAt(s, r, i) == Some(LongDelay))
    && (stamp in s.author <==> KindAt(s, r, i) == Some(LongDelay))
    && (stamp in s.author ==>
         && s.author[stamp] in s.sched.pushed && s.author[stamp] in s.jobs
         && s.jobs[s.author[stamp]] == Job(r, i, s.hist[r][k - 1].updatedAt))
  }

  ghost predicate PausesOk(s: State) {
    forall r, k :: r in s.hist && 0 <= k < |s.hist[r]| && s.hist[r][k].state.ActionScheduled? ==> PausedOk(s, r, k)
  }

  /** A message carrying the job is undeleted, visible or in flight, or dead-lettered. */
  ghost predicate Queued(s: State, job: Id) {
    || (exists m :: m in s.queue && s.queue[m].Resume? && s.queue[m].job == job)
    || (exists m :: m in s.dead && s.dead[m].Resume? && s.dead[m].job == job)
  }

  ghost predicate MessagesOk(s: State) {
    && (forall m :: m in s.queue ==> m < s.nextMessage && BodyOk(s, s.queue[m]))
    && (forall m :: m in s.dead ==> m !in s.queue && m < s.nextMessage && BodyOk(s, s.dead[m]))
    && (forall m, c :: m in s.queue && c in s.calls && s.calls[c].message == m ==> s.calls[c].body == s.queue[m])
    && (forall c :: c in s.calls ==> s.calls[c].message < s.nextMessage)
    && (forall j :: j in s.sched.sent ==> j in s.jobs && (Queued(s, j) || Superseded(s, j)))
  }

  ghost predicate Inv(s: State) {
    StoreOk(s) && JobsOk(s) && CallsOk(s) && PausesOk(s) && MessagesOk(s)
  }

  // ---------- growth ----------

  /** Every step only adds: versions with unused stamps at the end of a history, jobs, stamps; and a new
      ACTION_i_SCHEDULED record is only authored over the version its job was scheduled on. */
  ghost predicate Later(s: State, t: State) {
    && s.used <= t.used
    && (forall r :: r in s.hist ==> r in t.hist && (t.hist[r] == s.hist[r] || Appended(s, t, r)))
    && (forall r :: r in s.plans ==> r in t.plans && t.plans[r] == s.plans[r])
    && (forall j :: j in s.jobs ==> j in t.jobs && t.jobs[j] == s.jobs[j])
    && s.sched.pushed.Keys <= t.sched.pushed.Keys
    && (t.author == s.author || NewAuthor(s, t))
  }

  ghost predicate NewAuthor(s: State, t: State) {
    exists stamp :: stamp in t.author && t.author == s.author[stamp := t.author[stamp]]
      && AuthorOk(s, stamp, t.author[stamp])
  }

  ghost predicate AuthorOk(s: State, stamp: Stamp, job: Id) {
    && stamp !in s.used && stamp !in s.author && stamp.0 in s.hist && s.hist[stamp.0] != []
    && job in s.jobs && s.jobs[job].run == stamp.0 && s.jobs[job].base == Last(s.hist[stamp.0]).updatedAt
  }

  ghost predicate Appended(s: State, t: State, r: RunId)
    requires r in s.hist && r in t.hist
  {
    && |t.hist[r]| == |s.hist[r]| + 1 && t.hist[r][..|s.hist[r]|] == s.hist[r]
    && (r, Last(t.hist[r]).updatedAt) !in s.used
  }

  lemma SupersededStays(s: State, t: State, job: Id)
    requires StoreOk(s) && JobsOk(s) && Later(s, t) && Superseded(s, job)
    ensures Superseded(t, job)
  {
    var r := s.jobs[job].run;
    assert HistoryOk(r, s.hist[r], s.used);
  }

  lemma CopyStays(s: State, t: State, run: Run)
    requires StoreOk(s) && Later(s, t) && CopyOk(s, run)
    ensures CopyOk(t, run)
  {
    var r := run.runId;
    if t.hist[r] != s.hist[r] {
      forall k | 0 <= k < |t.hist[r]| && t.hist[r][k].updatedAt == run.updatedAt ensures t.hist[r][k] == run {
        assert k < |s.hist[r]| ==> t.hist[r][k] == t.hist[r][..|s.hist[r]|][k];
      }
    }
  }

  lemma JobStays(s: State, t: State, job: Job)
    requires Later(s, t) && JobOk(s, job)
    ensures JobOk(t, job)
  {
  }

  lemma JobsStay(s: State, t: State)
    requires JobsOk(s) && Later(s, t) && t.jobs == s.jobs && t.sched.records == s.sched.records
    ensures JobsOk(t)
  {
    hide JobOk, Later;
    forall j | j in t.jobs ensures JobOk(t, t.jobs[j]) { JobStays(s, t, s.jobs[j]); }
  }

  /** A call that a step does not touch stays in order. */
  lemma CallStays(s: State, t: State, x: Call)
    requires StoreOk(s) && JobsOk(s) && Later(s, t) && CallOk(s, x)
    ensures CallOk(t, x)
  {
    if HoldsRun(x.pc) { CopyStays(s, t, x.run); }
    if x.body.Resume? && Superseded(s, x.body.job) { SupersededStays(s, t, x.body.job); }
  }

  lemma PauseStays(s: State, t: State, r: RunId, k: nat)
    requires StoreOk(s) && Later(s, t) && r in s.hist && k < |s.hist[r]| && s.hist[r][k].state.ActionScheduled?
    requires PausedOk(s, r, k)
    ensures t.hist[r][k] == s.hist[r][k] && PausedOk(t, r, k)
  {
    assert HistoryOk(r, s.hist[r], s.used);
    if t.hist[r] != s.hist[r] {
      assert t.hist[r][k] == t.hist[r][..|s.hist[r]|][k];
      assert t.hist[r][k - 1] == t.hist[r][..|s.hist[r]|][k - 1];
    }
  }

  lemma SentStays(s: State, t: State)
    requires StoreOk(s) && JobsOk(s) && MessagesOk(s) && Later(s, t) && t.sched.sent == s.sched.sent
    requires t.queue == s.queue && t.dead == s.dead
    ensures forall j :: j in t.sched.sent ==> j in t.jobs && (Queued(t, j) || Superseded(t, j))
  {
    forall j | j in s.sched.sent ensures j in t.jobs && (Queued(t, j) || Superseded(t, j)) {
      if Superseded(s, j) { SupersededStays(s, t, j); } else { assert Queued(s, j); }
    }
  }

  // ---------- steps of a call ----------

  ghost predicate NewPausesOk(s: State, t: State) {
    forall r, k :: r in t.hist && 0 <= k < |t.hist[r]| && t.hist[r][k].state.ActionScheduled?
      && (r !in s.hist || k >= |s.hist[r]|)
      ==> PausedOk(t, r, k)
  }

  /** What is left to show for a step of one call once it is known to be a growth step. */
  lemma Assemble(s: State, t: State, call: nat)
    requires Inv(s) && Later(s, t) && StoreOk(t) && JobsOk(t) && call in s.calls && call in t.calls
    requires t.calls == s.calls[call := t.calls[call]] && t.nextCall == s.nextCall
    requires t.queue == s.queue && t.dead == s.dead && t.nextMessage == s.nextMessage
    requires t.calls[call].message == s.calls[call].message && t.calls[call].body == s.calls[call].body
    requires CallOk(t, t.calls[call])
    requires NewPausesOk(s, t)
    requires t.sched.sent == s.sched.sent
    ensures Inv(t)
  {
    AssembleCalls(s, t, call);
    AssemblePauses(s, t);
    AssembleMessages(s, t, call);
  }

  lemma AssembleCalls(s: State, t: State, call: nat)
    requires StoreOk(s) && JobsOk(s) && CallsOk(s) && Later(s, t) && call in s.calls && call in t.calls
    requires t.calls == s.calls[call := t.calls[call]] && t.nextCall == s.nextCall
    requires CallOk(t, t.calls[call])
    ensures CallsOk(t)
  {
    forall c | c in t.calls ensures c < t.nextCall && CallOk(t, t.calls[c]) {
      if c != call { CallStays(s, t, s.calls[c]); }
    }
  }

  lemma AssembleMessages(s: State, t: State, call: nat)
    requires StoreOk(s) && JobsOk(s) && MessagesOk(s) && Later(s, t) && call in s.calls && call in t.calls
    requires t.calls == s.calls[call := t.calls[call]]
    requires t.queue == s.queue && t.dead == s.dead && t.nextMessage == s.nextMessage
    requires t.calls[call].message == s.calls[call].message && t.calls[call].body == s.calls[call].body
    requires t.sched.sent == s.sched.sent
    ensures MessagesOk(t)
  {
    SentStays(s, t);
    forall m | m in t.queue ensures m < t.nextMessage && BodyOk(t, t.queue[m]) { assert BodyOk(s, s.queue[m]); }
    forall m | m in t.dead ensures m !in t.queue && m < t.nextMessage && BodyOk(t, t.dead[m]) {
      assert BodyOk(s, s.dead[m]);
    }
  }

  lemma AssemblePauses(s: State, t: State)
    requires StoreOk(s) && PausesOk(s) && Later(s, t) && NewPausesOk(s, t)
    ensures PausesOk(t)
  {
    forall r, k | r in t.hist && 0 <= k < |t.hist[r]| && t.hist[r][k].state.ActionScheduled? ensures PausedOk(t, r, k) {
      if r in s.hist && k < |s.hist[r]| {
        assert t.hist[r] == s.hist[r] || t.hist[r][k] == t.hist[r][..|s.hist[r]|][k];
        PauseStays(s, t, r, k);
      }
    }
  }

  /** The lock: if the write is applied, the stored version is the very record it was computed from. */
  lemma AcceptedIsCurrent(s: State, run: Run)
    requires StoreOk(s) && CopyOk(s, run) && Accepts(s.hist, run)
    ensures HistoryOk(run.runId, s.hist[run.runId], s.used) && Last(s.hist[run.runId]) == run
  {
    assert HistoryOk(run.runId, s.hist[run.runId], s.used);
  }

  lemma StoreKeepsHistory(records: seq<Run>, used: set<Stamp>, change: Change, stamp: int)
    requires records != [] && HistoryOk(Last(records).runId, records, used) && (Last(records).runId, stamp) !in used
    ensures HistoryOk(Last(records).runId, records + [Apply(Last(records), change, stamp)],
      used + {(Last(records).runId, stamp)})
  {
    var next := records + [Apply(Last(records), change, stamp)];
    forall k | 0 <= k < |next| - 1 ensures Extends(next[k], next[k + 1]) {
      if k < |records| - 1 { assert Extends(records[k], records[k + 1]); }
      else { assert next[k + 1] == Apply(next[k], change, next[k + 1].updatedAt); }
    }
  }

  /** An applied write was computed from the stored version. */
  predicate BuiltOnCurrent(s: State, call: nat, c: Choice)
    requires call in s.calls
  {
    var run := s.calls[call].run;
    Applied(s, call, c) ==> run.runId in s.hist && s.hist[run.runId] != [] && Last(s.hist[run.runId]) == run
  }

  lemma WriteKeepsHistories(s: State, t: State, call: nat, change: Change, c: Choice, pc: Pc)
    requires StoreOk(s) && call in s.calls && CopyOk(s, s.calls[call].run)
    requires (s.calls[call].run.runId, c.stamp) !in s.used && t == Write(s, call, change, c, pc)
    ensures forall q :: q in s.hist ==> HistoryOk(q, t.hist[q], t.used)
    ensures BuiltOnCurrent(s, call, c)
  {
    var run := s.calls[call].run;
    forall q | q in s.hist ensures HistoryOk(q, t.hist[q], t.used) {
      assert HistoryOk(q, s.hist[q], s.used);
      if Applied(s, call, c) && q == run.runId {
        AcceptedIsCurrent(s, run);
        StoreKeepsHistory(s.hist[q], s.used, change, c.stamp);
      }
    }
    if Applied(s, call, c) { AcceptedIsCurrent(s, run); }
  }

  lemma WriteLater(s: State, t: State, call: nat, change: Change, c: Choice, pc: Pc)
    requires StoreOk(s) && call in s.calls && CopyOk(s, s.calls[call].run)
    requires (s.calls[call].run.runId, c.stamp) !in s.used && t == Write(s, call, change, c, pc)
    ensures Later(s, t)
  {
    var r := s.calls[call].run.runId;
    assert HistoryOk(r, s.hist[r], s.used);
    if Applied(s, call, c) { assert t.hist[r][..|s.hist[r]|] == s.hist[r]; }
  }

  lemma WriteKeepsCopy(s: State, t: State, call: nat, change: Change, c: Choice, pc: Pc)
    requires StoreOk(s) && call in s.calls && CopyOk(s, s.calls[call].run)
    requires (s.calls[call].run.runId, c.stamp) !in s.used && t == Write(s, call, change, c, pc)
    ensures CopyOk(t, t.calls[call].run)
  {
    var r := s.calls[call].run.runId;
    assert HistoryOk(r, s.hist[r], s.used);
    assert forall k :: 0 <= k < |s.hist[r]| ==> s.hist[r][k].updatedAt != c.stamp;
  }

  lemma WriteGrows(s: State, call: nat, change: Change, c: Choice, pc: Pc)
    requires StoreOk(s) && JobsOk(s) && call in s.calls && CallOk(s, s.calls[call])
    requires HoldsRun(s.calls[call].pc) && FreshStamp(s, call, c)
    ensures var t := Write(s, call, change, c, pc);
      Later(s, t) && StoreOk(t) && JobsOk(t) && CopyOk(t, t.calls[call].run)
    ensures BuiltOnCurrent(s, call, c)
  {
    hide Later, JobsOk, HistoryOk;
    var t := Write(s, call, change, c, pc);
    WriteKeepsHistories(s, t, call, change, c, pc);
    WriteLater(s, t, call, change, c, pc);
    WriteKeepsCopy(s, t, call, change, c, pc);
    JobsStay(s, t);
  }

  /** After an applied write the job of an earlier version can no longer be resumed over. */
  lemma WriteSupersedes(s: State, call: nat, change: Change, c: Choice, pc: Pc, job: Id)
    requires StoreOk(s) && JobsOk(s) && call in s.calls && CallOk(s, s.calls[call])
    requires HoldsRun(s.calls[call].pc) && FreshStamp(s, call, c) && Applied(s, call, c)
    requires job in s.jobs && s.jobs[job].run == s.calls[call].run.runId
    ensures Superseded(Write(s, call, change, c, pc), job)
  {
    WriteGrows(s, call, change, c, pc);
  }

  lemma InvParts(s: State, call: nat)
    requires Inv(s) && call in s.calls
    ensures StoreOk(s) && JobsOk(s) && CallOk(s, s.calls[call])
  {
    hide StoreOk, JobsOk, CallOk;
  }

  /** Every write other than ACTION_i_SCHEDULED, with the conditions its target imposes on the call. */
  ghost predicate PlainTarget(s: State, call: nat, change: Change, c: Choice, pc: Pc)
    requires call in s.calls
  {
    && HoldsRun(s.calls[call].pc) && FreshStamp(s, call, c)
    && !change.SetActionScheduled?
    && (s.calls[call].pc == Loaded && pc != Return(false) ==> Applied(s, call, c))
    && pc != Begin && pc != Loaded && !pc.Acting? && !pc.Pushing? && !pc.Pausing? && !pc.Stopping?
    && (pc.Logging? ==> change == SetActionStarted(pc.index))
  }

  lemma PlainWriteCall(s: State, call: nat, change: Change, c: Choice, pc: Pc)
    requires StoreOk(s) && JobsOk(s) && call in s.calls && CallOk(s, s.calls[call])
    requires PlainTarget(s, call, change, c, pc)
    ensures var t := Write(s, call, change, c, pc);
      Later(s, t) && StoreOk(t) && JobsOk(t) && CallOk(t, t.calls[call])
  {
    var t := Write(s, call, change, c, pc);
    var x := s.calls[call];
    WriteGrows(s, call, change, c, pc);
    if x.body.Resume? && x.pc == Loaded && pc != Return(false) {
      WriteSupersedes(s, call, change, c, pc, x.body.job);
    } else if x.body.Resume? && x.pc != Loaded {
      SupersededStays(s, t, x.body.job);
    }
    assert BodyOk(t, x.body);
  }

  lemma PlainWritePauses(s: State, call: nat, change: Change, c: Choice, pc: Pc)
    requires call in s.calls && !change.SetActionScheduled? && s.calls[call].run.runId in s.hist
    ensures NewPausesOk(s, Write(s, call, change, c, pc))
  {
  }

  lemma PlainWriteKeepsInv(s: State, call: nat, change: Change, c: Choice, pc: Pc)
    requires Inv(s) && call in s.calls && PlainTarget(s, call, change, c, pc)
    ensures Inv(Write(s, call, change, c, pc))
  {
    hide Inv, StoreOk, JobsOk, Later, NewPausesOk;
    InvParts(s, call);
    PlainWriteCall(s, call, change, c, pc);
    PlainWritePauses(s, call, change, c, pc);
    Assemble(s, Write(s, call, change, c, pc), call);
  }

  lemma GotoKeepsInv(s: State, call: nat, pc: Pc)
    requires Inv(s) && call in s.calls && CallOk(s, s.calls[call].(pc := pc))
    ensures Inv(Goto(s, call, pc))
  {
    hide Inv, StoreOk, JobsOk, Later, NewPausesOk, CallOk;
    var t := Goto(s, call, pc);
    var x := s.calls[call].(pc := pc);
    InvParts(s, call);
    NotCreatedLater(s, t, s.used, call, x);
    CallStays(s, t, x);
    Assemble(s, t, call);
  }

  /** Moving on without a write. */
  lemma PlainGotoKeepsInv(s: State, call: nat, pc: Pc)
    requires Inv(s) && call in s.calls && HoldsRun(s.calls[call].pc) && s.calls[call].pc != Loaded
    requires pc != Begin && pc != Loaded && !pc.Logging? && !pc.Pushing? && !pc.Pausing?
    requires pc.Acting? ==> s.calls[call].pc == Logging(pc.index)
    requires pc.Stopping? ==> !pc.change.SetActionScheduled?
    ensures Inv(Goto(s, call, pc))
  {
    assert CallOk(s, s.calls[call]);
    GotoKeepsInv(s, call, pc);
  }

  // Writing ACTION_i_SCHEDULED.

  lemma PauseLater(s: State, t: State, call: nat, i: nat, scheduled: Option<Id>, c: Choice)
    requires StoreOk(s) && JobsOk(s) && call in s.calls && CallOk(s, s.calls[call])
    requires s.calls[call].pc == Pausing(i, scheduled) && FreshStamp(s, call, c)
    requires t == PauseStep(s, call, i, scheduled, c)
    ensures Later(s, t) && StoreOk(t) && JobsOk(t) && call in t.calls && CopyOk(t, t.calls[call].run)
    ensures BuiltOnCurrent(s, call, c)
  {
    hide Write, Later, StoreOk, JobsOk, CopyOk, CallOk, FreshStamp, Applied, BuiltOnCurrent;
    var pc := if Reported(s, call, c) then PauseLogging else Failing;
    var w := Write(s, call, SetActionScheduled(i), c, pc);
    WriteFrame(s, call, SetActionScheduled(i), c, pc);
    WriteGrows(s, call, SetActionScheduled(i), c, pc);
    if Applied(s, call, c) && scheduled.Some? {
      AuthorIsFresh(s, call, i, scheduled.value, c);
      AuthorLater(s, w, t, (s.calls[call].run.runId, c.stamp), scheduled.value);
    }
  }

  lemma WriteFrame(s: State, call: nat, change: Change, c: Choice, pc: Pc)
    requires call in s.calls
    ensures var t := Write(s, call, change, c, pc);
      t.author == s.author && t.jobs == s.jobs && call in t.calls && (s.calls[call].run.runId, c.stamp) in t.used
  {
  }

  lemma AuthorIsFresh(s: State, call: nat, i: nat, job: Id, c: Choice)
    requires StoreOk(s) && call in s.calls && CallOk(s, s.calls[call]) && s.calls[call].pc == Pausing(i, Some(job))
    requires FreshStamp(s, call, c) && Applied(s, call, c) && BuiltOnCurrent(s, call, c)
    ensures AuthorOk(s, (s.calls[call].run.runId, c.stamp), job)
  {
    assert HistoryOk(s.calls[call].run.runId, s.hist[s.calls[call].run.runId], s.used);
  }

  /** Recording the author of a fresh stamp. */
  lemma AuthorLater(s: State, w: State, t: State, stamp: Stamp, job: Id)
    requires Later(s, w) && StoreOk(w) && JobsOk(w) && w.author == s.author && t == w.(author := s.author[stamp := job])
    requires stamp in w.used && job in w.jobs && AuthorOk(s, stamp, job)
    ensures Later(s, t) && StoreOk(t) && JobsOk(t)
    ensures forall run :: CopyOk(w, run) ==> CopyOk(t, run)
  {
    AuthorLaterOnly(s, w, t, stamp, job);
    AuthorJobs(w, t);
  }

  lemma AuthorLaterOnly(s: State, w: State, t: State, stamp: Stamp, job: Id)
    requires Later(s, w) && w.author == s.author && t == w.(author := s.author[stamp := job]) && AuthorOk(s, stamp, job)
    ensures Later(s, t)
  {
    assert t.author[stamp] == job;
    assert NewAuthor(s, t);
    forall r | r in s.hist ensures r in t.hist && (t.hist[r] == s.hist[r] || Appended(s, t, r)) {
      assert w.hist[r] == s.hist[r] || Appended(s, w, r);
    }
  }

  lemma AuthorJobs(w: State, t: State)
    requires JobsOk(w) && t == w.(author := t.author)
    ensures JobsOk(t)
  {
    forall j | j in t.jobs ensures JobOk(t, t.jobs[j]) { assert JobOk(w, w.jobs[j]); }
  }

  lemma PauseNewPauses(s: State, t: State, call: nat, i: nat, scheduled: Option<Id>, c: Choice)
    requires StoreOk(s) && JobsOk(s) && call in s.calls && CallOk(s, s.calls[call])
    requires s.calls[call].pc == Pausing(i, scheduled) && FreshStamp(s, call, c)
    requires t == PauseStep(s, call, i, scheduled, c)
    requires BuiltOnCurrent(s, call, c)
    ensures NewPausesOk(s, t)
  {
    var run := s.calls[call].run;
    assert HistoryOk(run.runId, s.hist[run.runId], s.used);
    assert (run.runId, c.stamp) !in s.author;
    forall q, k | q in t.hist && 0 <= k < |t.hist[q]| && t.hist[q][k].state.ActionScheduled?
                  && (q !in s.hist || k >= |s.hist[q]|) ensures PausedOk(t, q, k) {
      assert q == run.runId && k == |s.hist[q]| && t.hist[q][k - 1] == run;
    }
  }

  lemma PauseKeepsInv(s: State, call: nat, i: nat, scheduled: Option<Id>, c: Choice)
    requires Inv(s) && call in s.calls && s.calls[call].pc == Pausing(i, scheduled) && FreshStamp(s, call, c)
    ensures Inv(PauseStep(s, call, i, scheduled, c))
  {
    hide Inv, StoreOk, JobsOk, Later, NewPausesOk, BuiltOnCurrent;
    var t := PauseStep(s, call, i, scheduled, c);
    InvParts(s, call);
    PauseLater(s, t, call, i, scheduled, c);
    PauseNewPauses(s, t, call, i, scheduled, c);
    PauseCall(s, t, call, i, scheduled, c);
    Assemble(s, t, call);
  }

  lemma PauseCall(s: State, t: State, call: nat, i: nat, scheduled: Option<Id>, c: Choice)
    requires StoreOk(s) && JobsOk(s) && Later(s, t) && call in s.calls && CallOk(s, s.calls[call])
    requires s.calls[call].pc == Pausing(i, scheduled) && t == PauseStep(s, call, i, scheduled, c)
    requires CopyOk(t, t.calls[call].run)
    ensures CallOk(t, t.calls[call])
  {
    hide StoreOk, JobsOk, Later, CopyOk, Superseded;
    var x := s.calls[call];
    if x.body.Resume? { SupersededStays(s, t, x.body.job); }
    assert BodyOk(t, x.body);
  }

  // Creating and pushing the job of a long delay.

  lemma ScheduleLater(s: State, t: State, sched: Sched.State, jobs: map<Id, Job>, call: nat, pc: Pc)
    requires StoreOk(s) && JobsOk(s) && call in s.calls && s.sched.pushed.Keys <= sched.pushed.Keys
    requires t == Goto(s.(sched := sched, jobs := jobs), call, pc)
    requires forall j :: j in s.jobs ==> j in jobs && jobs[j] == s.jobs[j]
    requires forall j :: j in jobs && j !in s.jobs ==> JobOk(s, jobs[j])
    requires sched.records == jobs.Keys
    ensures Later(s, t) && StoreOk(t) && JobsOk(t) && NewPausesOk(s, t)
  {
    assert t.hist == s.hist && t.used == s.used && t.author == s.author;
  }

  lemma ScheduleKeepsInv(s: State, t: State, sched: Sched.State, jobs: map<Id, Job>, call: nat, pc: Pc)
    requires Inv(s) && call in s.calls && HoldsRun(s.calls[call].pc) && s.calls[call].pc != Loaded
    requires s.sched.pushed.Keys <= sched.pushed.Keys && sched.sent == s.sched.sent
    requires t == Goto(s.(sched := sched, jobs := jobs), call, pc)
    requires forall j :: j in s.jobs ==> j in jobs && jobs[j] == s.jobs[j]
    requires forall j :: j in jobs && j !in s.jobs ==> JobOk(s, jobs[j])
    requires sched.records == jobs.Keys
    requires HoldsRun(pc) && pc != Loaded
    requires pc == Failing || ((pc.Pushing? || pc.Pausing?) && s.calls[call].run.state == ActionStarted(pc.index))
    requires pc.Pushing? ==>
      && pc.job in jobs && jobs[pc.job] == Job(s.calls[call].run.runId, pc.index, s.calls[call].run.updatedAt)
      && KindAt(s, s.calls[call].run.runId, pc.index) == Some(LongDelay)
    requires pc.Pausing? ==> PauseOk(t, s.calls[call].run, pc.index, pc.scheduled)
    ensures Inv(t)
  {
    var x := s.calls[call];
    assert CallOk(s, x);
    ScheduleLater(s, t, sched, jobs, call, pc);
    CopyStays(s, t, x.run);
    if x.body.Resume? { SupersededStays(s, t, x.body.job); }
    assert CallOk(t, t.calls[call]) by { assert BodyOk(t, x.body); }
    Assemble(s, t, call);
  }

  lemma ActKeepsInv(s: State, call: nat, i: nat, c: Choice)
    requires Inv(s) && CanWork(s, call, c) && s.calls[call].pc == Acting(i)
    ensures Inv(ActStep(s, call, i, c))
  {
    var x := s.calls[call];
    var kind := KindAt(s, x.run.runId, i);
    assert CallOk(s, x);
    if kind == Some(LongDelay) && c.outcome != Refused {
      var jobs := s.jobs[c.job := Job(x.run.runId, i, x.run.updatedAt)];
      var sched := Sched.Step(s.sched, Sched.Create(c.job));
      assert c.job !in s.jobs;
      ScheduleKeepsInv(s, Goto(s.(sched := sched, jobs := jobs), call, AfterAction(kind, i, c)), sched, jobs, call,
        AfterAction(kind, i, c));
    } else {
      GotoKeepsInv(s, call, AfterAction(kind, i, c));
    }
  }

  lemma PushKeepsInv(s: State, call: nat, i: nat, job: Id, c: Choice)
    requires Inv(s) && CanWork(s, call, c) && s.calls[call].pc == Pushing(i, job)
    ensures Inv(PushStep(s, call, i, job, c))
  {
    var t := PushStep(s, call, i, job, c);
    assert CallOk(s, s.calls[call]);
    ScheduleKeepsInv(s, t, t.sched, s.jobs, call, t.calls[call].pc);
  }

  // Creating a run, or reading it.

  /** `t` is `s` with a new run created. */
  ghost predicate Creates(s: State, t: State, run: Run, workflow: Workflow, call: nat, x: Call) {
    && run == NewRun(run.runId, run.updatedAt) && run.runId !in s.hist && run.runId !in s.plans
    && (run.runId, run.updatedAt) !in s.used
    && t == s.(hist := s.hist[run.runId := [run]], plans := s.plans[run.runId := workflow],
               used := s.used + {(run.runId, run.updatedAt)}, calls := s.calls[call := x])
  }

  lemma CreateStore(s: State, t: State, run: Run, workflow: Workflow, call: nat, x: Call)
    requires StoreOk(s) && Creates(s, t, run, workflow, call, x)
    ensures StoreOk(t) && CopyOk(t, run)
  {
    forall r | r in t.hist ensures HistoryOk(r, t.hist[r], t.used) {
      if r != run.runId { assert HistoryOk(r, s.hist[r], s.used); }
    }
  }

  lemma CreateLater(s: State, t: State, run: Run, workflow: Workflow, call: nat, x: Call)
    requires StoreOk(s) && JobsOk(s) && Creates(s, t, run, workflow, call, x)
    ensures Later(s, t) && StoreOk(t) && JobsOk(t) && NewPausesOk(s, t) && CopyOk(t, run)
  {
    CreateStore(s, t, run, workflow, call, x);
    hide StoreOk, HistoryOk, CopyOk;
    assert Later(s, t);
    JobsStay(s, t);
  }

  lemma NewRunHasNoPlan(s: State, run: RunId)
    requires StoreOk(s) && run !in s.hist
    ensures run !in s.plans
  {
  }

  lemma NotCreatedLater(s: State, t: State, used: set<Stamp>, call: nat, x: Call)
    requires StoreOk(s) && JobsOk(s) && s.used <= used && t == s.(used := used, calls := s.calls[call := x])
    ensures Later(s, t) && StoreOk(t) && JobsOk(t) && NewPausesOk(s, t)
  {
    forall r | r in t.hist ensures HistoryOk(r, t.hist[r], t.used) { assert HistoryOk(r, s.hist[r], s.used); }
  }

  lemma BeginKeepsInv(s: State, call: nat, c: Choice)
    requires Inv(s) && CanWork(s, call, c) && s.calls[call].pc == Begin && FreshStamp(s, call, c)
    ensures Inv(BeginStep(s, call, c))
  {
    var x := s.calls[call];
    assert CallOk(s, x);
    if x.body.Start? {
      CreateKeepsInv(s, call, c);
    } else if x.body.run in s.hist && c.outcome == Done {
      assert HistoryOk(x.body.run, s.hist[x.body.run], s.used);
      ReadKeepsInv(s, BeginStep(s, call, c), call, s.hist[x.body.run][c.seen]);
    } else {
      GotoKeepsInv(s, call, Return(false));
    }
  }

  lemma CreateKeepsInv(s: State, call: nat, c: Choice)
    requires Inv(s) && CanWork(s, call, c) && s.calls[call].pc == Begin && s.calls[call].body.Start?
    requires FreshStamp(s, call, c)
    ensures Inv(BeginStep(s, call, c))
  {
    hide StoreOk, JobsOk, Later, NewPausesOk, PausesOk, MessagesOk;
    var x := s.calls[call];
    var t := BeginStep(s, call, c);
    var run := NewRun(c.newRun, c.stamp);
    InvParts(s, call);
    NewRunHasNoPlan(s, c.newRun);
    if c.outcome == Refused {
      NotCreatedLater(s, t, s.used + {(c.newRun, c.stamp)}, call, x.(run := run, pc := Return(false)));
    } else {
      CreateLater(s, t, run, x.body.workflow, call, t.calls[call]);
    }
    Assemble(s, t, call);
  }

  lemma ReadKeepsInv(s: State, t: State, call: nat, run: Run)
    requires Inv(s) && call in s.calls && s.calls[call].body.Resume? && CopyOk(s, run)
    requires run.runId == s.calls[call].body.run
    requires t == s.(calls := s.calls[call := s.calls[call].(run := run, pc := Loaded)])
    ensures Inv(t)
  {
    assert CallOk(s, s.calls[call]);
    CopyStays(s, t, run);
    assert CallOk(t, t.calls[call]) by { assert BodyOk(t, t.calls[call].body); }
    Assemble(s, t, call);
  }
}
