/** Indices that go back and actions that are started and performed again: exactly the redelivered resume messages
    of runs that have moved on. */
module ProtocolRestarts {
  import opened Domain
  import opened Options
  import opened RedisLists
  import opened Remote
  import opened Protocol
  import opened ProtocolSafety
  import opened ProtocolRuns
  import opened ProtocolProgress
  import opened ProtocolActions
  import Sched = SchedulerSteps

  /** Version k was stored by resumeWorkflow's own write. */
  predicate IsResumed(resumed: map<Stamp, Id>, r: RunId, h: seq<Run>, k: nat) {
    k < |h| && (r, h[k].updatedAt) in resumed
  }

  /** Version m resumed the run below action i, which had been reached. */
  predicate ResumedBelow(resumed: map<Stamp, Id>, r: RunId, h: seq<Run>, m: nat, i: nat) {
    0 < m && IsResumed(resumed, r, h, m) && h[m].actionIndex < i <= h[m - 1].actionIndex
  }

  /** What the invariants say of one run's versions. */
  ghost predicate Chained(w: Workflow, r: RunId, h: seq<Run>, resumed: map<Stamp, Id>) {
    && VersionsOk(w, r, h, resumed)
    && (forall k :: 0 <= k < |h| - 1 ==> Extends(h[k], h[k + 1]))
    && (forall k :: 0 <= k < |h| && IsResumed(resumed, r, h, k) ==> StartedBefore(h, k, h[k].actionIndex))
  }

  lemma RunsAreChained(states: seq<State>, labels: seq<Label>, n: nat, r: RunId)
    requires IsRun(states, labels) && n < |states| && r in states[n].hist
    ensures Chained(Plan(states[n], r), r, states[n].hist[r], LogOf(states, labels, n).resumed)
  {
    var s, log := states[n], LogOf(states, labels, n);
    var h := s.hist[r];
    RunActs(states, labels, n);
    hide Inv, Progress, LogOf, VersionsOk, StartedBefore, IsRun;
    StoredRun(s, log, r);
    forall k | 0 <= k < |h| && IsResumed(log.resumed, r, h, k) ensures StartedBefore(h, k, h[k].actionIndex) {
      assert ResumedOk(s, log, r, k);
    }
  }

  lemma NextVersion(w: Workflow, r: RunId, h: seq<Run>, resumed: map<Stamp, Id>, k: nat)
    requires Chained(w, r, h, resumed) && 0 < k < |h|
    ensures NextOk(w, h[k - 1], h[k], IsResumed(resumed, r, h, k)) && Extends(h[k - 1], h[k])
    ensures Aligned(h[k - 1]) && Aligned(h[k])
  {
    hide NextOk, Extends, Aligned;
    assert NextOk(w, h[k - 1], h[k - 1 + 1], (r, h[k - 1 + 1].updatedAt) in resumed);
    assert Extends(h[k - 1], h[k - 1 + 1]);
  }

  // ---------- indices ----------

  /** Over every run of the engine: the condition index never goes back, and the action index goes back exactly at a
      version stored by resumeWorkflow for a job whose index is smaller than the one it replaces. */
  lemma IndicesGoBackOnlyByResume(states: seq<State>, labels: seq<Label>, n: nat, r: RunId, k: nat)
    requires IsRun(states, labels) && n < |states| && r in states[n].hist && 0 < k < |states[n].hist[r]|
    ensures var s, h, resumed := states[n], states[n].hist[r], LogOf(states, labels, n).resumed;
      var stamp := (r, h[k].updatedAt);
      && h[k - 1].evalIndex <= h[k].evalIndex
      && (stamp in resumed ==>
           Resumes(s, resumed[stamp], r, h[k].actionIndex) && h[k].state == ActionCompleted(h[k].actionIndex))
      && (h[k].actionIndex < h[k - 1].actionIndex <==>
           stamp in resumed && resumed[stamp] in s.jobs && s.jobs[resumed[stamp]].index < h[k - 1].actionIndex)
  {
    var s, log := states[n], LogOf(states, labels, n);
    RunActs(states, labels, n);
    RunsAreChained(states, labels, n, r);
    hide Inv, Progress, LogOf, IsRun, Chained, StartedBefore;
    var h := s.hist[r];
    NextVersion(Plan(s, r), r, h, log.resumed, k);
    NextIndices(Plan(s, r), h[k - 1], h[k], IsResumed(log.resumed, r, h, k));
    if IsResumed(log.resumed, r, h, k) { assert ResumedOk(s, log, r, k); }
  }

  // ---------- started again ----------

  /** A run that has reached an index has started every action up to it. */
  lemma {:induction false} ReachedWasStarted(w: Workflow, r: RunId, h: seq<Run>, resumed: map<Stamp, Id>, k: nat,
      i: nat)
    requires Chained(w, r, h, resumed) && k < |h| && 0 < i <= h[k].actionIndex
    ensures StartedBefore(h, k + 1, i)
    decreases k
  {
    AlignedAt(w, r, h, resumed, 0);
    if k > 0 {
      NextVersion(w, r, h, resumed, k);
      NextIndices(w, h[k - 1], h[k], IsResumed(resumed, r, h, k));
      hide NextOk, Extends, VersionsOk;
      if IsResumed(resumed, r, h, k) {
        var l :| 0 <= l < k && l < |h| && h[l].state == ActionStarted(h[k].actionIndex);
        AlignedAt(w, r, h, resumed, l);
        ReachedWasStarted(w, r, h, resumed, l, i);
      } else if i <= h[k - 1].actionIndex {
        ReachedWasStarted(w, r, h, resumed, k - 1, i);
      }
    }
  }

  lemma AlignedAt(w: Workflow, r: RunId, h: seq<Run>, resumed: map<Stamp, Id>, k: nat)
    requires Chained(w, r, h, resumed) && k < |h|
    ensures Aligned(h[k])
  {
  }

  /** Once a run has come to its actions it is never stored in a state from before them. */
  lemma {:induction false} ActionsAreReachedForGood(w: Workflow, r: RunId, h: seq<Run>, resumed: map<Stamp, Id>, k: nat,
      l: nat)
    requires Chained(w, r, h, resumed) && k <= l < |h| && h[k].state.ActionStarted?
    ensures !h[l].state.Triggered? && !h[l].state.Condition?
    decreases l
  {
    if k < l {
      ActionsAreReachedForGood(w, r, h, resumed, k, l - 1);
      NextVersion(w, r, h, resumed, l);
      hide Chained, Extends, Aligned;
    }
  }

  /** Between a version that has reached an index and a later one that is below it lies a resume that goes below it. */
  lemma {:induction false} FirstDrop(w: Workflow, r: RunId, h: seq<Run>, resumed: map<Stamp, Id>, k: nat, l: nat,
      i: nat) returns (m: nat)
    requires Chained(w, r, h, resumed) && k < l < |h| && h[l].actionIndex < i <= h[k].actionIndex
    ensures k < m <= l && ResumedBelow(resumed, r, h, m, i)
    decreases l
  {
    NextVersion(w, r, h, resumed, l);
    NextIndices(w, h[l - 1], h[l], IsResumed(resumed, r, h, l));
    hide Chained, NextOk, Extends, Aligned;
    if i <= h[l - 1].actionIndex { m := l; } else { m := FirstDrop(w, r, h, resumed, k, l - 1, i); }
  }

  lemma RestartedAfterDrop(w: Workflow, r: RunId, h: seq<Run>, resumed: map<Stamp, Id>, k: nat, l: nat, i: nat)
      returns (m: nat)
    requires Chained(w, r, h, resumed) && k < l < |h| && h[k].state == ActionStarted(i)
      && h[l].state == ActionStarted(i)
    ensures k < m < l && ResumedBelow(resumed, r, h, m, i)
  {
    AlignedAt(w, r, h, resumed, k);
    AlignedAt(w, r, h, resumed, l - 1);
    NextVersion(w, r, h, resumed, l);
    ActionsAreReachedForGood(w, r, h, resumed, k, l - 1);
    StartFollows(w, h[l - 1], h[l], IsResumed(resumed, r, h, l), i);
    hide Chained, NextOk, Extends, Aligned;
    m := FirstDrop(w, r, h, resumed, k, l - 1, i);
  }

  /** An action other than the first is started only over the completion of the one before it. */
  lemma StartFollows(w: Workflow, a: Run, b: Run, resumed: bool, i: nat)
    requires NextOk(w, a, b, resumed) && b.state == ActionStarted(i) && !a.state.Triggered? && !a.state.Condition?
    ensures i > 0 && a.state == ActionCompleted(i - 1)
  {
  }

  /** Over every run of the engine: action i is stored as started again exactly when, before that, resumeWorkflow took
      the run back below action i after it had been reached. */
  lemma StartedAgainIffWentBack(states: seq<State>, labels: seq<Label>, n: nat, r: RunId, l: nat, i: nat)
    requires IsRun(states, labels) && n < |states| && r in states[n].hist && l < |states[n].hist[r]|
    requires states[n].hist[r][l].state == ActionStarted(i)
    ensures var h, resumed := states[n].hist[r], LogOf(states, labels, n).resumed;
      StartedBefore(h, l, i) <==> exists m :: 0 < m < l && ResumedBelow(resumed, r, h, m, i)
  {
    var h, resumed, w := states[n].hist[r], LogOf(states, labels, n).resumed, Plan(states[n], r);
    RunsAreChained(states, labels, n, r);
    hide LogOf, IsRun, Chained, ResumedBelow, Plan;
    if StartedBefore(h, l, i) {
      var k :| 0 <= k < l && k < |h| && h[k].state == ActionStarted(i);
      var m := RestartedAfterDrop(w, r, h, resumed, k, l, i);
    }
    if m :| 0 < m < l && ResumedBelow(resumed, r, h, m, i) { WentBackWasStarted(w, r, h, resumed, m, l, i); }
  }

  lemma WentBackWasStarted(w: Workflow, r: RunId, h: seq<Run>, resumed: map<Stamp, Id>, m: nat, l: nat, i: nat)
    requires Chained(w, r, h, resumed) && 0 < m < l < |h| && ResumedBelow(resumed, r, h, m, i)
    ensures StartedBefore(h, l, i)
  {
    hide Chained;
    ReachedWasStarted(w, r, h, resumed, m - 1, i);
  }

  // ---------- performed again ----------

  /** Over every run of the engine: an action is performed only by a call whose ACTION_i_STARTED was stored, and once
      for each such version. */
  lemma EachStartPerformsOnce(states: seq<State>, labels: seq<Label>, n: nat, p: nat)
    requires IsRun(states, labels) && n < |states| && p < |LogOf(states, labels, n).performed|
    ensures var s, performed := states[n], LogOf(states, labels, n).performed;
      && EntryOk(s, performed[p])
      && (forall q :: 0 <= q < |performed| && q != p ==> !SameStart(performed[p], performed[q]))
  {
    RunActs(states, labels, n);
    hide Inv, Progress, LogOf, IsRun, EntryOk;
    var performed := LogOf(states, labels, n).performed;
    forall q | 0 <= q < |performed| && q != p ensures !SameStart(performed[p], performed[q]) {
      assert p < q || !SameStart(performed[q], performed[p]);
    }
  }

  /** Two performances of one action stem from two starts, and between these resumeWorkflow took the run back: no action
      is performed twice but by way of a redelivered resume message of a run that had moved on. */
  lemma PerformedAgainOnlyAfterGoingBack(states: seq<State>, labels: seq<Label>, n: nat, p: nat, q: nat)
    returns (k: nat, m: nat, l: nat)
    requires IsRun(states, labels) && n < |states| && p < q < |LogOf(states, labels, n).performed|
    requires SameAction(LogOf(states, labels, n).performed[p], LogOf(states, labels, n).performed[q])
    ensures var e, f := LogOf(states, labels, n).performed[p], LogOf(states, labels, n).performed[q];
      && e.run in states[n].hist
      && var h := states[n].hist[e.run];
         && k < m < l < |h| && h[k].state == ActionStarted(e.index) && h[l].state == ActionStarted(e.index)
         && {h[k].updatedAt, h[l].updatedAt} == {e.stamp, f.stamp}
         && ResumedBelow(LogOf(states, labels, n).resumed, e.run, h, m, e.index)
  {
    EachStartPerformsOnce(states, labels, n, p);
    EachStartPerformsOnce(states, labels, n, q);
    var log := LogOf(states, labels, n);
    var e, f := log.performed[p], log.performed[q];
    RunsAreChained(states, labels, n, e.run);
    hide LogOf, IsRun, Chained, ResumedBelow, Plan;
    var h := states[n].hist[e.run];
    k :| 0 <= k < |h| && h[k].updatedAt == e.stamp && h[k].state == ActionStarted(e.index);
    l :| 0 <= l < |h| && h[l].updatedAt == f.stamp && h[l].state == ActionStarted(f.index);
    assert k != l by { assert !SameStart(e, f); }
    if l < k { k, l := l, k; }
    m := RestartedAfterDrop(Plan(states[n], e.run), e.run, h, log.resumed, k, l, e.index);
  }

  predicate SameAction(a: Performance, b: Performance) { a.run == b.run && a.index == b.index }

  // ---------- and it does happen ----------

  /** A run of the engine goes on with one more step. */
  lemma OneMoreStep(states: seq<State>, labels: seq<Label>, l: Label)
    requires IsRun(states, labels) && Enabled(states[|labels|], l)
    ensures IsRun(states + [Step(states[|labels|], l)], labels + [l])
  {
    hide Step, Possible, FreshStamp;
    var more, ls := states + [Step(states[|labels|], l)], labels + [l];
    forall k | 0 <= k < |ls| ensures Enabled(more[k], ls[k]) && more[k + 1] == Step(more[k], ls[k]) {
      if k < |labels| { assert Enabled(states[k], labels[k]) && states[k + 1] == Step(states[k], labels[k]); }
    }
  }

  /** The versions g are h and one resumed version more, for action i, which goes back below exactly the actions between
      i and the index h had reached. */
  ghost predicate TakenBack(resumed: map<Stamp, Id>, r: RunId, h: seq<Run>, g: seq<Run>, i: nat) {
    && h != [] && |g| == |h| + 1 && h <= g
    && Last(g).state == ActionCompleted(i) && Last(g).status == Last(h).status
    && forall j: nat :: ResumedBelow(resumed, r, g, |h|, j) <==> i < j <= Last(h).actionIndex
  }

  lemma ResumedVersion(resumed: map<Stamp, Id>, r: RunId, h: seq<Run>, g: seq<Run>, i: nat, stamp: int)
    requires h != [] && g == h + [Apply(Last(h), SetActionCompleted(i), stamp)] && (r, stamp) in resumed
    ensures TakenBack(resumed, r, h, g, i)
  {
  }

  /** Whatever has become of a run, every undeleted message for its action i can still be delivered, and is accepted
      over the current version, terminal or not: the status stays, and the run goes back. */
  lemma RedeliveryTakesTheRunBack(states: seq<State>, labels: seq<Label>, m: nat, c: Choice)
    returns (more: seq<State>, ls: seq<Label>)
    requires IsRun(states, labels)
    requires var s := states[|labels|];
      && m in s.queue && s.queue[m].Resume? && s.queue[m].run in s.hist && (s.queue[m].run, c.stamp) !in s.used
      && c.outcome == Done && c.seen == |s.hist[s.queue[m].run]| - 1
    ensures IsRun(more, ls) && states <= more && labels <= ls
    ensures var s, t, r := states[|labels|], more[|ls|], states[|labels|].queue[m].run;
      r in t.hist && TakenBack(LogOf(more, ls, |ls|).resumed, r, s.hist[r], t.hist[r], s.queue[m].index)
  {
    assert |states| == |labels| + 1;
    hide Inv, Step, Possible, FreshStamp, IsRun, LogOf, Logged, TakenBack, WorkStep;
    var s := states[|labels|];
    var call, r := s.nextCall, s.queue[m].run;
    RunInv(states, labels, |labels|);
    HistoryRunIds(s, r);
    var a, b, t := QueuedMessageResumes(s, m, c);
    more, ls := ThreeMoreSteps(states, labels, Deliver(m), Work(call, c), a, b, t);
    LogStep(more, ls, |ls|);
    ResumeIsLogged(s, m, c, a, b, LogOf(more, ls, |ls| - 1));
    ResumedVersion(LogOf(more, ls, |ls|).resumed, r, s.hist[r], t.hist[r], s.queue[m].index, c.stamp);
  }

  lemma ThreeMoreSteps(states: seq<State>, labels: seq<Label>, l: Label, k: Label, a: State, b: State, t: State)
    returns (more: seq<State>, ls: seq<Label>)
    requires IsRun(states, labels) && Enabled(states[|labels|], l) && a == Step(states[|labels|], l)
    requires Enabled(a, k) && b == Step(a, k) && Enabled(b, k) && t == Step(b, k)
    ensures IsRun(more, ls) && states <= more && labels <= ls && |labels| < |ls|
    ensures more[|ls|] == t && more[|ls| - 1] == b && ls[|ls| - 1] == k
  {
    hide Step, Possible, FreshStamp;
    OneMoreStep(states, labels, l);
    OneMoreStep(states + [a], labels + [l], k);
    OneMoreStep(states + [a] + [b], labels + [l] + [k], k);
    more, ls := states + [a] + [b] + [t], labels + [l] + [k] + [k];
  }

  lemma ResumeIsLogged(s: State, m: nat, c: Choice, a: State, b: State, log: Log)
    requires m in s.queue && s.queue[m].Resume? && s.queue[m].run in s.hist && s.hist[s.queue[m].run] != []
    requires c.outcome == Done && c.seen == |s.hist[s.queue[m].run]| - 1
    requires Enabled(s, Deliver(m)) && a == Step(s, Deliver(m)) && Enabled(a, Work(s.nextCall, c))
      && b == Step(a, Work(s.nextCall, c))
    requires Possible(b, Work(s.nextCall, c)) && Last(s.hist[s.queue[m].run]).runId == s.queue[m].run
    ensures (s.queue[m].run, c.stamp) in Logged(log, b, Work(s.nextCall, c)).resumed
  {
    DeliveredRunIsRead(s, m, c);
    hide CanWork, WorkStep;
  }

  /** The guard on a call's push never holds it back: the job it is about to push has a record and was not pushed
      before. */
  lemma PushingIsPossible(states: seq<State>, labels: seq<Label>, n: nat, call: nat, c: Choice)
    requires IsRun(states, labels) && n < |states| && call in states[n].calls && states[n].calls[call].pc.Pushing?
    ensures Possible(states[n], Work(call, c))
  {
    hide Inv, Progress, LogOf, Sched.Accounted, Sched.Inv, EntriesOk, OncePerStart, OwnersDiffer, ActorsOk, JobsStarted,
      ResumesOk,
      Step, Enabled;
    RunActs(states, labels, n);
    SchedulerInv(states, labels, n);
    RecordsAreJobs(states[n]);
  }
}
