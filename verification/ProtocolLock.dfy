/** Where the optimistic lock stops: what happens when the clock does repeat a millisecond on one run. */
module ProtocolLock {
  import opened Domain
  import opened Options
  import opened RedisLists
  import opened Remote
  import opened Protocol
  import opened ProtocolRuns
  import opened ProtocolProgress
  import opened ProtocolOrigins
  import Sched = SchedulerSteps

  // ---------- which write of a loser is accepted ----------

  /** The store rejects that write: the record stored carries another stamp. */
  predicate RejectedAt(states: seq<State>, labels: seq<Label>, k: nat, call: nat)
    requires WritesAt(states, labels, k, call)
  {
    !Accepts(states[k].hist, states[k].calls[call].run)
  }

  lemma LooseStore(s: State, l: Label, r: RunId)
    requires Possible(s, l) && r in s.hist && s.hist[r] != []
    ensures r in Step(s, l).hist && Step(s, l).hist[r] != []
  {
    hide WorkStep, Sched.Step, Sched.Enabled;
    if l.Work? {
      StepFrames(s, l.call, l.choice);
      if s.calls[l.call].pc == Begin { BeginStore(s, l.call, l.choice); }
    }
  }

  lemma BeginStore(s: State, call: nat, c: Choice)
    requires CanWork(s, call, c) && s.calls[call].pc == Begin
    ensures forall r :: r in s.hist ==> r in WorkStep(s, call, c).hist && WorkStep(s, call, c).hist[r] == s.hist[r]
  {
    hide BeginStep;
    BeginFrame(s, call, c);
  }

  lemma LooseCallsAreOld(s: State, l: Label)
    requires Possible(s, l) && forall c :: c in s.calls ==> c < s.nextCall
    ensures forall c :: c in Step(s, l).calls ==> c < Step(s, l).nextCall
  {
    hide WorkStep, Sched.Step, Sched.Enabled;
    if l.Work? { StepFrames(s, l.call, l.choice); }
  }

  lemma {:induction false} LooseRunCalls(states: seq<State>, labels: seq<Label>, n: nat)
    requires IsLooseRun(states, labels) && n < |states|
    ensures forall c :: c in states[n].calls ==> c < states[n].nextCall
  {
    hide Step, Possible;
    if n > 0 {
      LooseRunCalls(states, labels, n - 1);
      LooseCallsAreOld(states[n - 1], labels[n - 1]);
    }
  }

  /** The call, if it is still there, holds the run with the stamp of its last setter, and the run is stored. */
  ghost predicate Holds(s: State, call: nat, r: RunId, stamp: int) {
    && r in s.hist && s.hist[r] != [] && call < s.nextCall
    && (call in s.calls ==>
         s.calls[call].run.runId == r && s.calls[call].run.updatedAt == stamp && s.calls[call].pc != Begin)
  }

  lemma WriteHolds(s: State, call: nat, c: Choice)
    requires CanWork(s, call, c) && Writing(s, call) && !Applied(s, call, c) && call < s.nextCall
    requires s.calls[call].run.runId in s.hist && s.hist[s.calls[call].run.runId] != []
    ensures Holds(WorkStep(s, call, c), call, s.calls[call].run.runId, c.stamp)
  {
    hide WorkStep, Sched.Enabled;
    StepFrames(s, call, c);
  }

  lemma OtherStepHolds(s: State, l: Label, call: nat, r: RunId, stamp: int)
    requires Possible(s, l) && Holds(s, call, r, stamp)
    requires !(l.Work? && l.call == call && Writing(s, call))
    ensures Holds(Step(s, l), call, r, stamp)
  {
    hide WorkStep, Sched.Enabled, Sched.Step;
    LooseStore(s, l, r);
    if l.Work? && l.call == call {
      StepFrames(s, call, l.choice);
    } else {
      OtherCallsUntouched(s, l, call);
    }
  }

  lemma {:induction false} LoserHolds(states: seq<State>, labels: seq<Label>, m: nat, n: nat, call: nat)
    requires IsLooseRun(states, labels) && m < n < |states|
    requires LostAt(states, labels, m, call)
    requires forall k :: m < k < n ==> !WritesAt(states, labels, k, call)
    ensures Holds(states[n], call, states[m].calls[call].run.runId, labels[m].choice.stamp)
    decreases n
  {
    hide Holds, Step, Writing;
    if n == m + 1 {
      LooseRunCalls(states, labels, m);
      WriterIsStored(states, labels, m, call);
      WriteHolds(states[m], call, labels[m].choice);
      assert Step(states[m], labels[m]) == WorkStep(states[m], call, labels[m].choice) by {
        WorkIsStep(states[m], labels[m]);
      }
    } else {
      LoserHolds(states, labels, m, n - 1, call);
      assert !WritesAt(states, labels, n - 1, call);
      OtherStepHolds(states[n - 1], labels[n - 1], call, states[m].calls[call].run.runId, labels[m].choice.stamp);
    }
  }

  lemma WorkIsStep(s: State, l: Label)
    requires Possible(s, l) && l.Work?
    ensures Step(s, l) == WorkStep(s, l.call, l.choice)
  {
  }

  /** Distinct stamps are needed, exactly. Over whole runs whose clock may repeat itself: after a write that was
      rejected or refused, the next write of the same call is accepted if and only if the version stored by then carries
      the very stamp that the setter of the lost write had read. */
  lemma SameMillisecondBeatsTheLock(states: seq<State>, labels: seq<Label>, m: nat, n: nat, call: nat)
    requires IsLooseRun(states, labels) && m < n < |labels|
    requires LostAt(states, labels, m, call) && WritesAt(states, labels, n, call)
    requires forall k :: m < k < n ==> !WritesAt(states, labels, k, call)
    ensures var r := states[m].calls[call].run.runId;
      && r in states[n].hist && states[n].hist[r] != []
      && (!RejectedAt(states, labels, n, call) <==> Last(states[n].hist[r]).updatedAt == labels[m].choice.stamp)
  {
    hide Step, Possible, Writing;
    LoserHolds(states, labels, m, n, call);
  }

  // ---------- what an accepted write replaces ----------

  /** The run of a call that writes is stored. */
  lemma WriterIsStored(states: seq<State>, labels: seq<Label>, n: nat, call: nat)
    requires IsLooseRun(states, labels) && n < |labels| && WritesAt(states, labels, n, call)
    ensures var s, o := states[n], OriginsOf(states, labels, n);
      var run := s.calls[call].run;
      && run.runId in s.hist && run.runId in o.stored && call in o.copies
      && VersionsKnown(states, labels, run.runId, o.stored[run.runId], s.hist[run.runId], n)
      && MadeBy(states, labels, o.copies[call], run, n)
  {
    hide IsLooseRun, OriginsOf, VersionsKnown, MadeBy;
    RunKnown(states, labels, n);
    WritingHolds(states[n], call);
    assert CopyKnown(states, labels, states[n], OriginsOf(states, labels, n), call, n);
  }

  /** Every accepted write, lost ones before it or not: it is accepted exactly when the setter that made the call's copy
      and the one that made the stored version read the same millisecond. If these are one and the same step, the write
      was computed from the stored version; so it replaces a version it was not computed from only when two setters of
      the run have read one millisecond. */
  lemma AcceptedIffSameMillisecond(states: seq<State>, labels: seq<Label>, n: nat, call: nat)
    requires IsLooseRun(states, labels) && n < |labels| && WritesAt(states, labels, n, call)
    ensures var s, o := states[n], OriginsOf(states, labels, n);
      var copy := s.calls[call].run;
      && copy.runId in s.hist && s.hist[copy.runId] != [] && call in o.copies
        && |StepsOf(o, copy.runId)| == |s.hist[copy.runId]|
      && var mine, theirs := o.copies[call], StepsOf(o, copy.runId)[|s.hist[copy.runId]| - 1];
         && MadeBy(states, labels, mine, copy, n) && MadeBy(states, labels, theirs, Last(s.hist[copy.runId]), n)
         && (!RejectedAt(states, labels, n, call) <==> labels[mine].choice.stamp == labels[theirs].choice.stamp)
         && (mine == theirs ==> Last(s.hist[copy.runId]) == copy)
  {
    hide IsLooseRun, OriginsOf, Writing;
    WriterIsStored(states, labels, n, call);
  }
}
