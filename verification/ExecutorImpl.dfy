/** The executor as code: methods over a run object, a run table and a job list, each tied to the functions of
    Executor.dfy, on a store whose calls succeed. Clock readings are arbitrary: with one delivery at a time the lock
    needs no distinct stamps. */
module ExecutorImpl {
  import opened Domain
  import opened Options
  import opened Remote
  import opened Executor

  /** internal/repository/dynamodb/run_repo.go. */
  class RunRepository {
    var items: map<nat, Run>
    var log: seq<Run>          // every accepted item, in order

    constructor ()
      ensures items == map[] && log == []
    {
      items, log := map[], [];
    }

    function States(): seq<RunState>
      reads this
    {
      StatesOf(log)
    }

    /** The items of all other runs. */
    function Others(runId: nat): map<nat, Run>
      reads this
    {
      items - {runId}
    }

    /** PutItem without a condition. */
    method Create(item: Run, outcome: Outcome) returns (ok: bool)
      modifies this
      ensures ok <==> outcome == Done
      ensures outcome != Refused ==> items == old(items)[item.runId := item] && log == old(log) + [item]
      ensures outcome == Refused ==> items == old(items) && log == old(log)
    {
      if outcome != Refused {
        items := items[item.runId := item];
        log := log + [item];
      }
      ok := outcome == Done;
    }

    /** PutItem on the condition that the stored stamp is the expected one or that there is no item. A call that fails
        may have replaced the item all the same; a rejected one has not. */
    method Update(item: Run, expectedUpdatedAt: int, outcome: Outcome) returns (ok: bool)
      modifies this
      ensures var accepted := item.runId in old(items) ==> old(items)[item.runId].updatedAt == expectedUpdatedAt;
        && (ok <==> accepted && outcome == Done)
        && (accepted && outcome != Refused ==> items == old(items)[item.runId := item] && log == old(log) + [item])
        && (!(accepted && outcome != Refused) ==> items == old(items) && log == old(log))
    {
      var accepted := item.runId !in items || items[item.runId].updatedAt == expectedUpdatedAt;
      if accepted && outcome != Refused {
        items := items[item.runId := item];
        log := log + [item];
      }
      ok := accepted && outcome == Done;
    }

    method GetByID(runId: nat) returns (item: Option<Run>)
      ensures item == if runId in items then Some(items[runId]) else None
    {
      item := if runId in items then Some(items[runId]) else None;
    }
  }

  function StatesOf(log: seq<Run>): (s: seq<RunState>)
    ensures |s| == |log| && forall i :: 0 <= i < |log| ==> s[i] == log[i].state
  {
    if log == [] then [] else StatesOf(log[..|log| - 1]) + [log[|log| - 1].state]
  }

  /** Indices never go back from one accepted item to the next. */
  ghost predicate Monotone(log: seq<Run>) {
    forall k :: 0 <= k < |log| - 1 ==>
      log[k].evalIndex <= log[k + 1].evalIndex && log[k].actionIndex <= log[k + 1].actionIndex
  }

  ghost predicate InRange(w: Workflow, log: seq<Run>) {
    forall k :: 0 <= k < |log| ==>
      (log[k].evalIndex == 0 || log[k].evalIndex < |w.verdicts|)
        && (log[k].actionIndex == 0 || log[k].actionIndex < |w.actions|)
  }

  /** The details of a scheduled job. */
  datatype Job = Job(runId: nat, resumeFrom: string, delaySeconds: int)

  /** What the conditions leave behind: states written and whether the actions are executed. */
  function ConditionTrace(verdicts: seq<Verdict>, i: nat): (seq<RunState>, bool)
    decreases |verdicts| - i
  {
    if i >= |verdicts| then ([], true)
    else match verdicts[i]
      case NotPassed => ([Condition(i), Completed], false)
      case Broken => ([Condition(i), Failed], false)
      case Passed => var (states, go) := ConditionTrace(verdicts, i + 1); ([Condition(i)] + states, go)
  }

  /** The actions are executed exactly if all conditions pass. Else the k conditions before the first that does not are
      written, then that one, and the run ends COMPLETED if it did not pass, FAILED if it could not be evaluated. */
  lemma {:induction false} ConditionsDecide(verdicts: seq<Verdict>, i: nat) returns (k: nat)
    requires i <= |verdicts|
    ensures i <= k <= |verdicts| && (forall j :: i <= j < k ==> verdicts[j] == Passed)
    ensures k < |verdicts| ==> verdicts[k] != Passed
    ensures var (states, go) := ConditionTrace(verdicts, i);
      && (go <==> k == |verdicts|) && |states| == (if go then k - i else k - i + 2)
      && (forall j :: i <= j <= k && j < |verdicts| ==> states[j - i] == Condition(j))
      && (k < |verdicts| ==> states[k - i + 1] == if verdicts[k] == NotPassed then Completed else Failed)
    decreases |verdicts| - i
  {
    k := i;
    if i < |verdicts| && verdicts[i] == Passed { k := ConditionsDecide(verdicts, i + 1); }
  }

  lemma ConditionStep(verdicts: seq<Verdict>, i: nat, done: seq<RunState>)
    ensures var (states, go) := ConditionTrace(verdicts, i);
      if i >= |verdicts| then states == [] && go
      else if verdicts[i] == Passed then
        var (rest, more) := ConditionTrace(verdicts, i + 1);
        done + states == done + [Condition(i)] + rest && go == more
      else done + states == done + [Condition(i)] + [if verdicts[i] == Broken then Failed else Completed] && !go
  {
  }

  /** A whole run of a workflow: its conditions, and if they pass the first call and all resumes. */
  function RunTrace(w: Workflow): Trace
    requires w.Valid()
  {
    var (states, go) := ConditionTrace(w.verdicts, 0);
    if go then Before([], [Triggered] + states, WholeRun(w, 0))
    else Trace([], [Triggered] + states, if states[|states| - 1] == Failed then EndFailed else EndCompleted)
  }

  /** The three ways a segment ends at once. */
  lemma EndOfSegment(w: Workflow, i: nat)
    requires w.Valid()
    ensures i >= |w.actions| ==> Segment(w, i) == Trace([], [Completed], EndCompleted)
    ensures i < |w.actions| && Fails(w, i) ==> Segment(w, i) == Trace([i], [ActionStarted(i), Failed], EndFailed)
    ensures i < |w.actions| && !Fails(w, i) && w.actions[i].Delay?
      ==> Segment(w, i) == Trace([i], [ActionStarted(i), ActionScheduled(i)], EndPaused(i))
  {
  }

  /** Otherwise one action is done and the segment goes on. */
  lemma ContinueSegment(w: Workflow, i: nat, performed: seq<nat>, states: seq<RunState>)
    requires w.Valid() && i < |w.actions| && !Fails(w, i) && !w.actions[i].Delay?
    ensures performed + Segment(w, i).performed == performed + [i] + Segment(w, i + 1).performed
    ensures states + Segment(w, i).states == states + [ActionStarted(i)] + [ActionCompleted(i)]
      + Segment(w, i + 1).states
    ensures Segment(w, i).end == Segment(w, i + 1).end
  {
    var rest := Segment(w, i + 1);
    assert performed + ([i] + rest.performed) == performed + [i] + rest.performed;
    assert states + ([ActionStarted(i), ActionCompleted(i)] + rest.states)
        == states + [ActionStarted(i)] + [ActionCompleted(i)] + rest.states;
  }

  /** A run is over when its segment did not pause at a long delay. */
  lemma EndOfRun(w: Workflow, i: nat)
    requires w.Valid() && !(Segment(w, i).end.EndPaused? && IsLong(w.actions[Segment(w, i).end.at]))
    ensures WholeRun(w, i) == Segment(w, i)
  {
  }

  /** Resuming after a long pause is one more segment of the whole run. */
  lemma ContinueRun(w: Workflow, goal: Trace, i: nat, did: seq<nat>, wrote: seq<RunState>)
    requires w.Valid() && goal == Before(did, wrote, WholeRun(w, i))
    requires Segment(w, i).end.EndPaused? && IsLong(w.actions[Segment(w, i).end.at])
    ensures var t := Segment(w, i);
      goal == Before(did + t.performed, wrote + t.states + [ActionCompleted(t.end.at)], WholeRun(w, t.end.at + 1))
  {
    var t := Segment(w, i);
    var rest := WholeRun(w, t.end.at + 1);
    assert did + (t.performed + rest.performed) == did + t.performed + rest.performed;
    assert wrote + (t.states + [ActionCompleted(t.end.at)] + rest.states)
      == wrote + t.states + [ActionCompleted(t.end.at)] + rest.states;
  }

  class WorkflowExecutor {
    const w: Workflow
    const repo: RunRepository
    var performed: seq<nat>    // the actions performed, in order
    var jobs: seq<Job>         // the jobs handed to the scheduler, in order

    constructor (w: Workflow, repo: RunRepository)
      ensures this.w == w && this.repo == repo && performed == [] && jobs == []
    {
      this.w, this.repo := w, repo;
      performed, jobs := [], [];
    }

    /** The run object is what the table holds. */
    ghost predicate Synced(run: WorkflowRun)
      reads this, repo, run
    {
      w.Valid() && run.runId in repo.items && repo.items[run.runId] == run.View()
    }

    /** The log is that of one run that has come to this item, with indices that never went back. */
    ghost predicate Steady(item: Run)
      reads repo
    {
      repo.log != [] && repo.log[|repo.log| - 1] == item && Monotone(repo.log) && InRange(w, repo.log)
    }

    /** No index of b is behind that of a, and those that changed are within the workflow. */
    ghost predicate Advances(a: Run, b: Run) {
      && a.evalIndex <= b.evalIndex && (a.evalIndex == b.evalIndex || b.evalIndex < |w.verdicts|)
      && a.actionIndex <= b.actionIndex && (a.actionIndex == b.actionIndex || b.actionIndex < |w.actions|)
    }

    /** repo.Update after a setter: the stored item still has the stamp the run had before the setter, so the
        write is accepted, whatever the clock said. */
    method Save(run: WorkflowRun, oldUpdatedAt: int) returns (ok: bool)
      requires w.Valid() && run.runId in repo.items && repo.items[run.runId].updatedAt == oldUpdatedAt
      modifies repo
      ensures ok && Synced(run)
      ensures repo.Others(run.runId) == old(repo.Others(run.runId))
      ensures repo.States() == old(repo.States()) + [run.state]
      ensures old(Steady(repo.items[run.runId])) && Advances(old(repo.items[run.runId]), run.View())
        ==> Steady(run.View())
    {
      ok := repo.Update(run.View(), oldUpdatedAt, Done);
      assert repo.log[..|repo.log| - 1] == old(repo.log);
    }

    /** MarkFailed or MarkCompleted, and the last write of a run. */
    method Finish(run: WorkflowRun, failed: bool) returns (ok: bool)
      requires Synced(run)
      modifies repo, run
      ensures ok && Synced(run) && run.actionIndex == old(run.actionIndex)
      ensures repo.Others(run.runId) == old(repo.Others(run.runId))
      ensures repo.States() == old(repo.States()) + [if failed then Failed else Completed]
      ensures old(Steady(run.View())) ==> Steady(run.View())
    {
      hide Steady;
      var oldUpdatedAt := run.updatedAt;
      var now: int := *;
      if failed { run.MarkFailed(now); } else { run.MarkCompleted(now); }
      ok := Save(run, oldUpdatedAt);
    }

    /** evaluateConditions: CONDITION_i is written before condition i is evaluated; a condition that does not
        pass completes the run, one that cannot be evaluated fails it. */
    method EvaluateConditions(run: WorkflowRun) returns (passed: bool)
      requires Synced(run)
      modifies repo, run
      ensures Synced(run) && run.actionIndex == old(run.actionIndex)
      ensures repo.Others(run.runId) == old(repo.Others(run.runId))
      ensures repo.States() == old(repo.States()) + ConditionTrace(w.verdicts, 0).0
      ensures passed == ConditionTrace(w.verdicts, 0).1
      ensures old(Steady(run.View()) && run.evalIndex == 0) ==> Steady(run.View())
    {
      hide Steady, StatesOf, RunRepository.States, ConditionTrace;
      ghost var start, goal := repo.States(), ConditionTrace(w.verdicts, 0);
      ghost var done: seq<RunState> := [];
      assert done + goal.0 == goal.0;
      for i := 0 to |w.verdicts|
        invariant Synced(run) && run.actionIndex == old(run.actionIndex)
        invariant repo.Others(run.runId) == old(repo.Others(run.runId))
        invariant repo.States() == start + done
        invariant goal == (done + ConditionTrace(w.verdicts, i).0, ConditionTrace(w.verdicts, i).1)
        invariant old(Steady(run.View()) && run.evalIndex == 0) ==> Steady(run.View()) && run.evalIndex <= i
      {
        ConditionStep(w.verdicts, i, done);
        var oldUpdatedAt := run.updatedAt;
        var now: int := *;
        run.SetConditionStatus(i, now);
        var _ := Save(run, oldUpdatedAt);
        done := done + [Condition(i)];
        if w.verdicts[i] != Passed {
          var _ := Finish(run, w.verdicts[i] == Broken);
          return false;
        }
      }
      ConditionStep(w.verdicts, |w.verdicts|, done);
      return true;
    }

    /** Execute of the action executor for a delay: short delays sleep here, long ones schedule a job. */
    method ExecuteDelay(runId: nat, i: nat) returns (ok: bool)
      requires w.Valid() && i < |w.actions| && w.actions[i].Delay?
      modifies this`jobs
      ensures var duration := w.actions[i].duration;
        ok <==> duration.Some? && (duration.value < 60_000_000_000 || w.succeeds[i])
      ensures !ok || w.actions[i].duration.value < 60_000_000_000 ==> jobs == old(jobs)
      ensures ok && w.actions[i].duration.value >= 60_000_000_000 ==>
        && |jobs| == |old(jobs)| + 1 && jobs[..|old(jobs)|] == old(jobs)
        && var job := jobs[|old(jobs)|];
        && job.runId == runId && job.resumeFrom == ResumeName(i)
        && job.delaySeconds * 1_000_000_000 <= w.actions[i].duration.value < (job.delaySeconds + 1) * 1_000_000_000
      ensures ok <==> !Fails(w, i)
      ensures jobs == old(jobs) +
        (if ok && IsLong(w.actions[i]) then [Job(runId, ResumeName(i), DelaySeconds(w.actions[i].duration.value))]
          else [])
    {
      if w.actions[i].duration == None {
        return false;
      }
      WholeSeconds(w.actions[i].duration.value);
      var delaySeconds := DelaySeconds(w.actions[i].duration.value);
      if delaySeconds < SHORTEST_SCHEDULED {
        return true;
      }
      if !w.succeeds[i] {
        return false;
      }
      jobs := jobs + [Job(runId, ResumeName(i), delaySeconds)];
      return true;
    }

    /** What one call of executeActions adds to the job list. */
    function JobsOf(runId: nat, end: End): seq<Job>
      requires end.EndPaused? ==> end.at < |w.actions|
    {
      if end.EndPaused? && IsLong(w.actions[end.at])
      then [Job(runId, ResumeName(end.at), DelaySeconds(w.actions[end.at].duration.value))] else []
    }

    lemma NoJobs(runId: nat, end: End)
      requires !end.EndPaused?
      ensures JobsOf(runId, end) == []
    {
    }

    /** executeSingleAction: prepareAction, then the delay or the regular branch. */
    method ExecuteSingleAction(run: WorkflowRun, i: nat) returns (shouldPause: bool, ok: bool)
      requires Synced(run) && i < |w.actions|
      modifies this, repo, run
      ensures Synced(run) && run.actionIndex == i
      ensures repo.Others(run.runId) == old(repo.Others(run.runId))
      ensures performed == old(performed) + [i]
      ensures ok <==> !Fails(w, i)
      ensures shouldPause <==> ok && w.actions[i].Delay?
      ensures repo.States() == old(repo.States()) + [ActionStarted(i)] +
        (if !ok then [] else if shouldPause then [ActionScheduled(i)] else [ActionCompleted(i)])
      ensures jobs == old(jobs) + JobsOf(run.runId, if shouldPause then EndPaused(i) else EndCompleted)
      ensures old(Steady(run.View()) && run.actionIndex <= i) ==> Steady(run.View())
    {
      hide Steady, StatesOf, RunRepository.States, ResumeName;
      var oldUpdatedAt := run.updatedAt;
      var now: int := *;
      run.SetActionStartedStatus(i, now);
      ok := Save(run, oldUpdatedAt);
      if !ok { return false, false; }
      performed := performed + [i];
      if w.actions[i].Delay? {
        ok := ExecuteDelay(run.runId, i);
        if !ok { return false, false; }
        oldUpdatedAt := run.updatedAt;
        now := *;
        run.SetActionScheduledStatus(i, now);
        ok := Save(run, oldUpdatedAt);
        return true, ok;
      }
      ok := w.actions[i] == Send && w.succeeds[i];
      if ok {
        oldUpdatedAt := run.updatedAt;
        now := *;
        run.SetActionCompletedStatus(i, now);
        var _ := Save(run, oldUpdatedAt);
      }
      return false, ok;
    }

    /** executeActions: the loop over the actions with its three exits. */
    method ExecuteActions(run: WorkflowRun, startIndex: nat) returns (ok: bool)
      requires Synced(run)
      modifies this, repo, run
      ensures Synced(run)
      ensures repo.Others(run.runId) == old(repo.Others(run.runId))
      ensures var t := Segment(w, startIndex);
        && performed == old(performed) + t.performed
        && repo.States() == old(repo.States()) + t.states
        && (ok <==> !t.end.EndFailed?)
        && (t.end.EndPaused? ==> run.actionIndex == t.end.at)
        && jobs == old(jobs) + JobsOf(run.runId, t.end)
      ensures old(Steady(run.View()) && run.actionIndex <= startIndex) ==> Steady(run.View())
    {
      hide Synced, Steady, StatesOf, IsLong, Fails, Segment, RunRepository.States, JobsOf;
      assert w.Valid() by { ValidWorkflow(run); }
      ghost var t := Segment(w, startIndex);
      ghost var allPerformed, allStates := performed + t.performed, repo.States() + t.states;
      var i := startIndex;
      while i < |w.actions|
        invariant Synced(run) && startIndex <= i && jobs == old(jobs)
        invariant repo.Others(run.runId) == old(repo.Others(run.runId))
        invariant performed + Segment(w, i).performed == allPerformed
        invariant repo.States() + Segment(w, i).states == allStates
        invariant Segment(w, i).end == t.end
        invariant old(Steady(run.View()) && run.actionIndex <= startIndex)
          ==> Steady(run.View()) && run.actionIndex <= i
      {
        EndOfSegment(w, i);
        ghost var performedSoFar, statesSoFar := performed, repo.States();
        var shouldPause, fine := ExecuteSingleAction(run, i);
        if !fine {
          NoJobs(run.runId, EndFailed);
          NoJobs(run.runId, EndCompleted);
          var _ := Finish(run, true);
          assert statesSoFar + [ActionStarted(i)] + [] + [Failed] == statesSoFar + [ActionStarted(i), Failed];
          return false;
        }
        if shouldPause {
          assert statesSoFar + [ActionStarted(i)] + [ActionScheduled(i)]
            == statesSoFar + [ActionStarted(i), ActionScheduled(i)];
          return true;
        }
        NoJobs(run.runId, EndCompleted);
        ContinueSegment(w, i, performedSoFar, statesSoFar);
        i := i + 1;
      }
      EndOfSegment(w, i);
      NoJobs(run.runId, EndCompleted);
      ok := Finish(run, false);
    }

    lemma ValidWorkflow(run: WorkflowRun)
      requires Synced(run)
      ensures w.Valid()
    {
    }

    /** The run of a new workflow, TRIGGERED and stored. */
    method CreateRun(runId: nat) returns (run: WorkflowRun)
      requires w.Valid()
      modifies repo
      ensures fresh(run) && run.runId == runId && Synced(run) && run.evalIndex == run.actionIndex == 0
      ensures repo.Others(runId) == old(repo.Others(runId)) && repo.States() == old(repo.States()) + [Triggered]
      ensures old(repo.log) == [] ==> Steady(run.View())
    {
      var now: int := *;
      run := new WorkflowRun(runId, now);
      var _ := repo.Create(run.View(), Done);
      assert repo.log[..|repo.log| - 1] == old(repo.log);
    }

    /** executeNewWorkflow. */
    method ExecuteNewWorkflow(runId: nat) returns (ok: bool, run: WorkflowRun)
      requires w.Valid()
      modifies this, repo
      ensures fresh(run) && run.runId == runId && Synced(run)
      ensures repo.Others(runId) == old(repo.Others(runId))
      ensures var (states, go) := ConditionTrace(w.verdicts, 0);
        var t := if go then Segment(w, 0) else Trace([], [], EndCompleted);
        && performed == old(performed) + t.performed
        && repo.States() == old(repo.States()) + [Triggered] + states + t.states
        && (ok <==> !t.end.EndFailed?)
        && (t.end.EndPaused? ==> run.actionIndex == t.end.at)
        && jobs == old(jobs) + JobsOf(runId, t.end)
      ensures old(repo.log) == [] ==> Steady(run.View())
    {
      hide Segment, ConditionTrace, JobsOf, Synced, Steady, StatesOf, RunRepository.States, RunRepository.Others;
      run := CreateRun(runId);
      NoJobs(runId, EndCompleted);
      ValidWorkflow(run);
      var passed := EvaluateConditions(run);
      if !passed {
        return true, run;
      }
      ok := ExecuteActions(run, 0);
    }

    /** resumeWorkflow: parse, read the run, complete the delay action, go on with the next one, whatever the run has
        come to since the message was sent. */
    method ResumeWorkflow(runId: nat, resumeFrom: string) returns (ok: bool, run: WorkflowRun?)
      requires w.Valid() && (runId in repo.items ==> repo.items[runId].runId == runId)
      requires ParseResume(resumeFrom).1 ==> 0 <= ParseResume(resumeFrom).0
      modifies this, repo
      ensures var (index, parsed) := ParseResume(resumeFrom);
        if !parsed || runId !in old(repo.items) then
          !ok && run == null && repo.items == old(repo.items) && repo.log == old(repo.log)
            && performed == old(performed) && jobs == old(jobs)
        else
          var t := Segment(w, index + 1);
          && run != null && fresh(run) && run.runId == runId && Synced(run)
          && repo.Others(runId) == old(repo.Others(runId))
          && performed == old(performed) + t.performed
          && repo.States() == old(repo.States()) + [ActionCompleted(index)] + t.states
          && (ok <==> !t.end.EndFailed?)
          && (t.end.EndPaused? ==> run.actionIndex == t.end.at)
          && jobs == old(jobs) + JobsOf(runId, t.end)
          && (old(Steady(repo.items[runId]) && repo.items[runId].actionIndex <= index) && index < |w.actions|
            ==> Steady(run.View()))
    {
      hide StatesOf, RunRepository.States, ParseResume, IsLong, Fails, Segment, Steady;
      run := null;
      var (index, parsed) := ParseResume(resumeFrom);
      if !parsed {
        return false, null;
      }
      var item := repo.GetByID(runId);
      if item == None {
        return false, null;
      }
      var read := new WorkflowRun.Unmarshal(item.value);
      run := read;
      var oldUpdatedAt := read.updatedAt;
      var now: int := *;
      read.SetActionCompletedStatus(index, now);
      ok := Save(read, oldUpdatedAt);
      if !ok {
        return false, run;
      }
      ok := ExecuteActions(read, index + 1);
    }

    /** The message of a job scheduled at action `at`: the segment behind it. */
    method HandleJob(job: Job, ghost at: nat) returns (run: WorkflowRun)
      requires w.Valid() && job.runId in repo.items && repo.items[job.runId].runId == job.runId
      requires job.resumeFrom == ResumeName(at)
      modifies this, repo
      ensures fresh(run) && run.runId == job.runId && Synced(run)
      ensures repo.Others(job.runId) == old(repo.Others(job.runId))
      ensures var t := Segment(w, at + 1);
        && performed == old(performed) + t.performed
        && repo.States() == old(repo.States()) + [ActionCompleted(at)] + t.states
        && (t.end.EndPaused? ==> run.actionIndex == t.end.at)
        && jobs == old(jobs) + JobsOf(job.runId, t.end)
      ensures old(Steady(repo.items[job.runId]) && repo.items[job.runId].actionIndex <= at) && at < |w.actions|
        ==> Steady(run.View())
    {
      hide StatesOf, RunRepository.States, ResumeName, ParseResume, IsLong, Fails, Segment, Steady;
      ResumeRoundTrip(at, []);
      assert ResumeName(at) + [] == ResumeName(at);
      var ok, resumed := ResumeWorkflow(job.runId, job.resumeFrom);
      run := resumed;
    }

    /** The run has come to action i: the messages left are its own, and what it still does is the rest of the goal. */
    ghost predicate Halfway(run: WorkflowRun, left: seq<Job>, goal: Trace, i: nat, did: seq<nat>, wrote: seq<RunState>)
      requires w.Valid()
      reads this, repo, run
    {
      var t := Segment(w, i);
      && left == JobsOf(run.runId, t.end) && (t.end.EndPaused? ==> run.actionIndex == t.end.at)
      && performed == did + t.performed && repo.States() == wrote + t.states
      && goal == Before(did, wrote, WholeRun(w, i))
    }

    lemma HalfwayToTheEnd(run: WorkflowRun, goal: Trace, i: nat, did: seq<nat>, wrote: seq<RunState>)
      requires w.Valid() && Halfway(run, [], goal, i, did, wrote)
      ensures performed == goal.performed && repo.States() == goal.states
    {
      hide Segment, WholeRun, IsLong, Fails, StatesOf, RunRepository.States;
      EndOfRun(w, i);
    }

    /** The messages of the jobs behind the first `done`, each once and in order; handling one may schedule the next.
        The termination measure is the number of actions still to come. */
    method FollowJobs(first: WorkflowRun, done: nat, ghost goal: Trace, ghost start: nat, ghost startDid: seq<nat>,
        ghost startWrote: seq<RunState>) returns (run: WorkflowRun)
      requires Synced(first) && w.Valid() && done <= |jobs|
      requires Halfway(first, jobs[done..], goal, start, startDid, startWrote)
      modifies this, repo
      ensures Synced(run) && run.runId == first.runId
      ensures repo.Others(first.runId) == old(repo.Others(first.runId))
      ensures performed == goal.performed && repo.States() == goal.states
      ensures old(Steady(first.View())) ==> Steady(run.View())
    {
      hide StatesOf, RunRepository.States, ResumeName, ParseResume, IsLong, Fails, Segment, WholeRun, Steady;
      run := first;
      var handled := done;
      ghost var i, did, wrote := start, startDid, startWrote;
      while handled < |jobs|
        invariant done <= handled <= |jobs|
        invariant Synced(run) && run.runId == first.runId
        invariant repo.Others(first.runId) == old(repo.Others(first.runId))
        invariant Halfway(run, jobs[handled..], goal, i, did, wrote)
        invariant old(Steady(first.View())) ==> Steady(run.View())
        decreases |w.actions| - i
      {
        ghost var t := Segment(w, i);
        assert jobs[handled..][0] == jobs[handled];
        run := HandleJob(jobs[handled], t.end.at);
        handled := handled + 1;
        ContinueRun(w, goal, i, did, wrote);
        did, wrote := did + t.performed, wrote + t.states + [ActionCompleted(t.end.at)];
        i := t.end.at + 1;
        assert jobs[handled..] == JobsOf(run.runId, Segment(w, i).end);
      }
      HalfwayToTheEnd(run, goal, i, did, wrote);
    }

    /** The worker loop: the start message, then the message of every job. No other run is touched. */
    method HandleMessages(runId: nat)
      requires w.Valid() && repo.log == [] && performed == [] && jobs == []
      modifies this, repo
      ensures repo.Others(runId) == old(repo.Others(runId))
      ensures performed == RunTrace(w).performed
      ensures repo.States() == RunTrace(w).states
      ensures runId in repo.items && repo.items[runId].runId == runId
      ensures repo.items[runId].state == RunTrace(w).states[|RunTrace(w).states| - 1]
      ensures Monotone(repo.log) && InRange(w, repo.log)
    {
      hide StatesOf, RunRepository.States, ResumeName, IsLong, Fails, Segment, WholeRun, Monotone, InRange,
        ConditionTrace;
      NothingStored();
      var ok, run := ExecuteNewWorkflow(runId);
      ghost var start := [] + [Triggered] + ConditionTrace(w.verdicts, 0).0;
      assert start == [Triggered] + ConditionTrace(w.verdicts, 0).0;
      if ConditionTrace(w.verdicts, 0).1 {
        assert Halfway(run, jobs, RunTrace(w), 0, [], start);
      }
      if jobs != [] {
        assert jobs[0..] == jobs;
        run := FollowJobs(run, 0, RunTrace(w), 0, [], start);
      } else if ConditionTrace(w.verdicts, 0).1 {
        HalfwayToTheEnd(run, RunTrace(w), 0, [], start);
      }
      LastState(run);
    }

    lemma NothingStored()
      requires repo.log == []
      ensures repo.States() == []
    {
    }

    lemma LastState(run: WorkflowRun)
      requires Synced(run) && Steady(run.View())
      ensures run.runId in repo.items && repo.States() != []
      ensures repo.States()[|repo.States()| - 1] == repo.items[run.runId].state
    {
    }

    /** A resume message for action `at` and the messages of all jobs this causes. The stored run is not looked at: it
        may have moved on, or have ended. */
    method HandleResume(runId: nat, at: nat)
      requires w.Valid() && runId in repo.items && repo.items[runId].runId == runId
      modifies this, repo
      ensures runId in repo.items && repo.items[runId].runId == runId
      ensures repo.Others(runId) == old(repo.Others(runId))
      ensures performed == old(performed) + WholeRun(w, at + 1).performed
      ensures repo.States() == old(repo.States()) + [ActionCompleted(at)] + WholeRun(w, at + 1).states
    {
      hide StatesOf, RunRepository.States, ResumeName, IsLong, Fails, Segment, WholeRun, Steady;
      ghost var did, wrote := performed, repo.States() + [ActionCompleted(at)];
      ghost var goal := Before(did, wrote, WholeRun(w, at + 1));
      var done := |jobs|;
      var run := HandleJob(Job(runId, ResumeName(at), 0), at);
      assert jobs[done..] == JobsOf(runId, Segment(w, at + 1).end);
      run := FollowJobs(run, done, goal, at + 1, did, wrote);
    }

    /** At-least-once delivery: the same resume message, handled twice, performs and stores the whole tail twice, no
        matter what the run had come to. */
    method HandleTwice(runId: nat, at: nat)
      requires w.Valid() && runId in repo.items && repo.items[runId].runId == runId
      modifies this, repo
      ensures var tail := WholeRun(w, at + 1);
        && performed == old(performed) + tail.performed + tail.performed
        && repo.States() == old(repo.States()) + [ActionCompleted(at)] + tail.states + [ActionCompleted(at)]
          + tail.states
    {
      HandleResume(runId, at);
      HandleResume(runId, at);
    }

    /** A run handled to its end, and then a resume message for one of its actions once more. */
    method HandleMessagesAndOneAgain(runId: nat, at: nat)
      requires w.Valid() && repo.log == [] && performed == [] && jobs == []
      modifies this, repo
      ensures performed == RunTrace(w).performed + WholeRun(w, at + 1).performed
      ensures repo.States() == RunTrace(w).states + [ActionCompleted(at)] + WholeRun(w, at + 1).states
    {
      HandleMessages(runId);
      HandleResume(runId, at);
    }
  }

  lemma {:induction false} ConditionsInLanguage(w: Workflow, i: nat, a: RunState)
    requires w.Valid() && i <= |w.verdicts| && (a == if i == 0 then Triggered else Condition(i - 1))
    ensures var (states, go) := ConditionTrace(w.verdicts, i);
      var all := [a] + states;
      InLanguage(|w.verdicts|, |w.actions|, all) && (go ==> Leads(|w.verdicts|, |w.actions|, all[|all| - 1], 0))
    decreases |w.verdicts| - i
  {
    if i < |w.verdicts| && w.verdicts[i] == Passed {
      ConditionsInLanguage(w, i + 1, Condition(i));
      var rest := [Condition(i)] + ConditionTrace(w.verdicts, i + 1).0;
      assert [a] + ConditionTrace(w.verdicts, i).0 == [a] + rest;
      assert forall k :: 0 <= k < |rest| - 1 ==> MayFollow(|w.verdicts|, |w.actions|, rest[k], rest[k + 1]);
    }
  }

  /** The state language: whatever the verdicts and outcomes, the states a single-delivery run stores step through
      TRIGGERED, the conditions, the actions in order and one terminal state, which nothing follows. */
  lemma RunStaysInLanguage(w: Workflow)
    requires w.Valid()
    ensures InLanguage(|w.verdicts|, |w.actions|, RunTrace(w).states)
    ensures RunTrace(w).states[0] == Triggered
  {
    var (states, go) := ConditionTrace(w.verdicts, 0);
    ConditionsInLanguage(w, 0, Triggered);
    if go {
      var x := [Triggered] + states;
      WholeRunInLanguage(w, 0, |w.verdicts|, x[|x| - 1]);
      JoinInLanguage(|w.verdicts|, |w.actions|, x, WholeRun(w, 0).states);
    }
  }

  // ---------- a second delivery ----------

  /** Action i neither fails nor is a delay under 60 s: the run goes on with the next one. */
  lemma WholeRunStep(w: Workflow, i: nat)
    requires w.Valid() && i < |w.actions| && !Fails(w, i) && !IsShort(w.actions[i])
    ensures WholeRun(w, i).performed == [i] + WholeRun(w, i + 1).performed
  {
    hide Fails, IsShort;
    if w.actions[i].Delay? { EndOfSegment(w, i); DelaysGoOn(w, i); } else { RegularGoesOn(w, i); }
  }

  lemma DelaysGoOn(w: Workflow, i: nat)
    requires w.Valid() && i < |w.actions| && !Fails(w, i) && !IsShort(w.actions[i]) && w.actions[i].Delay?
    ensures WholeRun(w, i).performed == [i] + WholeRun(w, i + 1).performed
  {
  }

  lemma RegularGoesOn(w: Workflow, i: nat)
    requires w.Valid() && i < |w.actions| && !Fails(w, i) && !w.actions[i].Delay?
    ensures WholeRun(w, i).performed == [i] + WholeRun(w, i + 1).performed
  {
    hide Fails, IsLong;
    var t := Segment(w, i + 1);
    assert Segment(w, i) == Before([i], [ActionStarted(i), ActionCompleted(i)], t);
    if t.end.EndPaused? && IsLong(w.actions[t.end.at]) {
      assert [i] + t.performed + WholeRun(w, t.end.at + 1).performed
        == [i] + (t.performed + WholeRun(w, t.end.at + 1).performed);
    }
  }

  /** Action `at` is performed and left behind when the actions from i on are executed. */
  predicate Passes(w: Workflow, i: nat, at: nat)
    requires w.Valid()
  {
    at < |w.actions| && forall j :: i <= j <= at ==> !Fails(w, j) && !IsShort(w.actions[j])
  }

  lemma {:induction false} TailOfRun(w: Workflow, i: nat, at: nat)
    requires w.Valid() && i <= at + 1 && Passes(w, i, at)
    ensures WholeRun(w, i).performed == Range(i, at + 1) + WholeRun(w, at + 1).performed
    decreases at + 1 - i
  {
    if i <= at {
      WholeRunStep(w, i);
      TailOfRun(w, i + 1, at);
    }
  }

  lemma RunIsARange(w: Workflow, i: nat)
    requires w.Valid() && i <= |w.actions|
    ensures WholeRun(w, i).performed == Range(i, i + |WholeRun(w, i).performed|)
  {
    PauseResumePreservesMeaning(w, i);
    var t := WholeRun(w, i);
    var k := if t.end.EndPaused? then t.end.at + 1
             else if FirstFailure(w, i) < |w.actions| then FirstFailure(w, i) + 1 else FirstFailure(w, i);
    hide Fails, WholeRun, Segment, FirstFailure;
    assert t.performed == Range(i, k);
    if i < k { RangeAt(i, k, 0); }
  }

  lemma CountsAdd(a: seq<nat>, b: seq<nat>, j: nat)
    ensures multiset(a + b)[j] == multiset(a)[j] + multiset(b)[j]
  {
  }

  lemma {:induction false} RangeCounts(i: nat, k: nat, j: nat)
    requires i <= k
    ensures |Range(i, k)| == k - i && multiset(Range(i, k))[j] == if i <= j < k then 1 else 0
    decreases k - i
  {
    if i < k {
      RangeCounts(i + 1, k, j);
      CountsAdd([i], Range(i + 1, k), j);
      assert multiset([i])[j] == if i == j then 1 else 0;
    }
  }

  /** After a run has ended, one more delivery of the message for action `at` that the run has passed performs exactly
      the actions behind `at` again: each of them twice in all, each other action of the run once. */
  lemma RedeliveryRepeatsTheTail(w: Workflow, at: nat, j: nat)
    requires w.Valid() && ConditionTrace(w.verdicts, 0).1 && Passes(w, 0, at)
    ensures var n, all := |RunTrace(w).performed|, RunTrace(w).performed + WholeRun(w, at + 1).performed;
      at < n && multiset(all)[j] == if j >= n then 0 else if j > at then 2 else 1
  {
    hide Fails, WholeRun, Segment, Range, ConditionTrace;
    var run, tail := RunTrace(w).performed, WholeRun(w, at + 1).performed;
    assert run == WholeRun(w, 0).performed;
    TailOfRun(w, 0, at);
    RunIsARange(w, 0);
    RunIsARange(w, at + 1);
    RangeCounts(0, at + 1, j);
    RangeCounts(0, |run|, j);
    RangeCounts(at + 1, |run|, j);
    CountsAdd(run, tail, j);
  }
}
