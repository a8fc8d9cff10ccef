/** internal/service/workflow_executor.go with remote calls that fail, method by method. Protocol.dfy flattens its loops
    and early returns into positions; here they are code again, and each method makes exactly the calls, in order, that
    the positions make, and ends where they end, however each call is answered. */
module ExecutorCode {
  import opened Domain
  import opened Options
  import opened RedisLists
  import opened Remote
  import opened Protocol
  import opened ProtocolSafety
  import opened ProtocolRuns
  import opened ProtocolProgress
  import Sched = SchedulerSteps

  /** What a remote call and the clock before it come to: a write is done if it was accepted and reported done. */
  datatype Answer = Answer(stamp: int, done: bool, verdict: Verdict, job: Id)

  /** The remote calls of one call of Execute behind the creation or the read of its run; sleeping is one of them. */
  datatype Request =
    | Put(change: Change)
    | Evaluate(index: nat)
    | CreateLog(index: nat)
    | Perform(index: nat)
    | PushJob(job: Id)
    | UpdateLog
    | Nothing

  // ---------- the positions of Protocol, for one call alone ----------

  function RequestAt(x: Call): Request {
    match x.pc
    case Evaluating(i) => Evaluate(i)
    case Logging(i) => CreateLog(i)
    case Acting(i) => Perform(i)
    case Pushing(_, job) => PushJob(job)
    case PauseLogging => UpdateLog
    case Begin => Nothing
    case Return(_) => Nothing
    case _ => Put(ChangeAt(x))
  }

  function AsChoice(a: Answer): Choice { Choice(a.stamp, if a.done
      then Done else Refused, a.verdict, 0, 0, a.job, 0, 0) }

  function KindIn(w: Workflow, i: nat): Option<ActionKind> {
    if i < |w.actions| then Some(w.actions[i]) else None
  }

  /** One step of a call that has a run, from the answer to its request. */
  function Next(x: Call, w: Workflow, a: Answer): Call {
    if WritesRun(x.pc, w) then x.(run := Apply(x.run, ChangeAt(x), a.stamp), pc := AfterWrite(x, a.done))
    else match x.pc
      case Acting(i) => x.(pc := AfterAction(KindIn(w, i), i, AsChoice(a)))
      case Pushing(i, job) => x.(pc := if a.done then Pausing(i, Some(job)) else Failing)
      case _ => x.(pc := AfterOther(x.pc, AsChoice(a)))
  }

  /** How the steps of the whole engine answer a call. */
  function AnswerOf(s: State, call: nat, c: Choice): Answer
    requires call in s.calls
  {
    Answer(c.stamp, if Writing(s, call) then Reported(s, call, c) else c.outcome == Done, c.verdict, c.job)
  }

  /** Whatever other calls do in between, a step of the engine takes a call where Next says. */
  lemma NextIsStep(s: State, call: nat, c: Choice)
    requires CanWork(s, call, c) && s.calls[call].pc != Begin
    ensures var x := s.calls[call];
      call in WorkStep(s, call, c).calls
      && WorkStep(s, call, c).calls[call] == Next(x, Plan(s, x.run.runId), AnswerOf(s, call, c))
  {
    StepFrames(s, call, c);
    StepPc(s, call, c);
    NextPcIs(s, call, c);
    hide WorkStep, CanWork, WritesRun, Accepts, NextPc, AfterWrite, ChangeAt, AfterOther;
  }

  lemma NextPcIs(s: State, call: nat, c: Choice)
    requires CanWork(s, call, c) && s.calls[call].pc != Begin
    ensures var x := s.calls[call]; NextPc(s, call, c) == Next(x, Plan(s, x.run.runId), AnswerOf(s, call, c)).pc
    ensures !Writing(s, call) ==>
      Next(s.calls[call], Plan(s, s.calls[call].run.runId), AnswerOf(s, call, c)).run == s.calls[call].run
  {
    hide Sched.Enabled, Accepts;
  }

  /** The ends of the two loops make no call: the position behind them, with nothing else changed. */
  function Settled(x: Call, w: Workflow): Call {
    var y := if x.pc.Conditions? && x.pc.index >= w.conditions then x.(pc := Actions(0)) else x;
    if y.pc.Actions? && y.pc.index >= |w.actions| then y.(pc := Finishing) else y
  }

  /** In the engine such an end is a step of its own, whatever the environment chooses. */
  lemma SettledIsStep(s: State, call: nat, c: Choice)
    requires CanWork(s, call, c) && (s.calls[call].pc.Conditions? || s.calls[call].pc.Actions?) && !Writing(s, call)
    ensures var x := s.calls[call]; var w := Plan(s, x.run.runId);
      var t := WorkStep(s, call, c);
      t == s.(calls := t.calls) && t.calls == s.calls[call := t.calls[call]]
        && Settled(t.calls[call], w) == Settled(x, w)
  {
    hide Sched.Enabled;
  }

  // ---------- several steps ----------

  /** The call after the answers from k to l, and the requests they answer. */
  function After(x: Call, w: Workflow, answers: nat -> Answer, k: nat, l: nat): Call
    requires k <= l
    decreases l - k
  {
    if k == l then Settled(x, w) else Settled(Next(After(x, w, answers, k, l - 1), w, answers(l - 1)), w)
  }

  function Requests(x: Call, w: Workflow, answers: nat -> Answer, k: nat, l: nat): seq<Request>
    requires k <= l
    decreases l - k
  {
    if k == l then [] else Requests(x, w, answers, k, l - 1) + [RequestAt(After(x, w, answers, k, l - 1))]
  }

  /** The requests made since `before` are those of the positions from x on, and these have come to y. */
  ghost predicate Path(x: Call, before: seq<Request>, y: Call, made: seq<Request>, w: Workflow,
      answers: nat -> Answer) {
    && before <= made && After(x, w, answers, |before|, |made|) == Settled(y, w)
    && made == before + Requests(x, w, answers, |before|, |made|)
  }

  lemma PathStarts(x: Call, made: seq<Request>, w: Workflow, answers: nat -> Answer)
    ensures Path(x, made, x, made, w, answers)
  {
    assert made + [] == made;
  }

  /** One more request, at the position the path has come to. */
  lemma PathStep(x: Call, before: seq<Request>, y: Call, made: seq<Request>, w: Workflow, answers: nat -> Answer)
    requires Path(x, before, y, made, w, answers) && Settled(y, w) == y
    ensures Path(x, before, Next(y, w, answers(|made|)), made + [RequestAt(y)], w, answers)
  {
    hide Settled, Next, RequestAt;
    var longer := made + [RequestAt(y)];
    assert longer == before + (Requests(x, w, answers, |before|, |made|) + [RequestAt(y)]);
  }

  lemma {:induction false} AfterFrom(x: Call, y: Call, w: Workflow, answers: nat -> Answer, k: nat, m: nat, l: nat)
    requires k <= m <= l && After(x, w, answers, k, m) == Settled(y, w)
    ensures After(x, w, answers, k, l) == After(y, w, answers, m, l)
    ensures Requests(x, w, answers, k, l) == Requests(x, w, answers, k, m) + Requests(y, w, answers, m, l)
    decreases l - m
  {
    hide Settled, Next, RequestAt;
    if m < l {
      AfterFrom(x, y, w, answers, k, m, l - 1);
    } else {
      assert Requests(x, w, answers, k, m) + [] == Requests(x, w, answers, k, m);
    }
  }

  /** Paths join. */
  lemma PathJoins(x: Call, before: seq<Request>, y: Call, middle: seq<Request>, z: Call, made: seq<Request>,
      w: Workflow,
      answers: nat -> Answer)
    requires Path(x, before, y, middle, w, answers) && Path(y, middle, z, made, w, answers)
    ensures Path(x, before, z, made, w, answers)
  {
    hide Settled, After, Requests;
    AfterFrom(x, y, w, answers, |before|, |middle|, |made|);
  }

  // ---------- the calls of the engine follow these paths ----------

  lemma {:induction false} SameAnswers(x: Call, w: Workflow, f: nat -> Answer, g: nat -> Answer, k: nat, l: nat)
    requires k <= l && forall i: nat :: i < l ==> f(i) == g(i)
    ensures After(x, w, f, k, l) == After(x, w, g, k, l)
    decreases l - k
  {
    hide Settled, Next;
    if k < l { SameAnswers(x, w, f, g, k, l - 1); }
  }

  /** The call has come from x by l answers; as long as it holds its run, its plan is still w. */
  ghost predicate Followed(s: State, call: nat, x: Call, w: Workflow, answers: nat -> Answer, l: nat) {
    && call in s.calls && s.calls[call].pc != Begin && Settled(s.calls[call], w) == After(x, w, answers, 0, l)
    && (HoldsRun(s.calls[call].pc) ==> Plan(s, s.calls[call].run.runId) == w)
  }

  lemma OwnStepFollows(s: State, call: nat, c: Choice, x: Call, w: Workflow, answers: nat -> Answer, l: nat)
      returns (more: nat -> Answer, k: nat)
    requires Inv(s) && CanWork(s, call, c) && Followed(s, call, x, w, answers, l)
    ensures Followed(WorkStep(s, call, c), call, x, w, more, k)
  {
    WorkingHolds(s, call, c);
    hide Inv, CanWork, WorkStep, Next, Settled, WritesRun, AnswerOf;
    var t := WorkStep(s, call, c);
    var y := s.calls[call];
    OwnRunStays(s, call, c);
    PlanStays(s, call, c, call);
    if (y.pc.Conditions? || y.pc.Actions?) && !Writing(s, call) {
      SettledIsStep(s, call, c);
      more, k := answers, l;
    } else {
      NextIsStep(s, call, c);
      var a := AnswerOf(s, call, c);
      more, k := (i: nat) => if i == l then a else answers(i), l + 1;
      SameAnswers(x, w, answers, more, 0, l);
      NotSilent(y, w);
    }
  }

  lemma OwnRunStays(s: State, call: nat, c: Choice)
    requires CanWork(s, call, c) && s.calls[call].pc != Begin
    ensures var t := WorkStep(s, call, c);
      call in t.calls && t.calls[call].pc != Begin && t.calls[call].run.runId == s.calls[call].run.runId
  {
    hide WorkStep, CanWork, WritesRun, ChangeAt, Accepts;
    StepFrames(s, call, c);
  }

  lemma NotSilent(y: Call, w: Workflow)
    requires !((y.pc.Conditions? || y.pc.Actions?) && !WritesRun(y.pc, w))
    ensures Settled(y, w) == y
  {
  }

  lemma OtherStepFollows(s: State, l: Label, call: nat, x: Call, w: Workflow, answers: nat -> Answer, k: nat)
    requires Inv(s) && Enabled(s, l) && !(l.Work? && l.call == call) && call in Step(s, l).calls
    requires Followed(s, call, x, w, answers, k)
    ensures Followed(Step(s, l), call, x, w, answers, k)
  {
    CallsAreOld(s, call);
    hide Inv, WorkStep, Settled, FreshStamp, Sched.Enabled, Sched.Step, CanWork;
    OtherCallsUntouched(s, l, call);
    if HoldsRun(s.calls[call].pc) {
      if l.Work? { PlanStays(s, l.call, l.choice, call); } else { SideFrame(s, l); }
    }
  }

  lemma OldCallStays(s: State, l: Label, call: nat)
    requires Possible(s, l) && call < s.nextCall
    ensures call < Step(s, l).nextCall && (call in Step(s, l).calls ==> call in s.calls)
  {
    hide WorkStep, Sched.Enabled, Sched.Step;
    if l.Work? { StepFrames(s, l.call, l.choice); }
  }

  lemma {:induction false} CallsAreContinued(states: seq<State>, labels: seq<Label>, m: nat, n: nat, call: nat)
    requires IsRun(states, labels) && m <= n < |states| && call in states[m].calls
    ensures call < states[n].nextCall && forall k :: m <= k <= n && call in states[n].calls ==> call in states[k].calls
    decreases n
  {
    hide Inv, Step, Possible, FreshStamp;
    if m == n {
      RunInv(states, labels, m);
      CallsAreOld(states[m], call);
    } else {
      CallsAreContinued(states, labels, m, n - 1, call);
      OldCallStays(states[n - 1], labels[n - 1], call);
    }
  }

  /** Every call of every run of the engine, from any of its positions to any later one, goes through the positions that
      the methods below go through for some answers of the environment: whatever is interleaved with it, and however its
      remote calls end, it does what the code does. */
  lemma {:induction false} CallsFollowTheCode(states: seq<State>, labels: seq<Label>, m: nat, n: nat, call: nat)
      returns (answers: nat -> Answer, l: nat)
    requires IsRun(states, labels) && m <= n < |states| && call in states[m].calls && call in states[n].calls
    requires states[m].calls[call].pc != Begin
    ensures var x := states[m].calls[call];
      Followed(states[n], call, x, Plan(states[m], x.run.runId), answers, l)
    decreases n
  {
    hide Inv, WorkStep, Followed, CanWork, FreshStamp, Plan;
    var x := states[m].calls[call];
    var w := Plan(states[m], x.run.runId);
    if m == n {
      answers, l := i => Answer(0, false, Passed, ""), 0;
      assert Followed(states[n], call, x, w, answers, l) by { FollowedFirst(states[m], call, answers); }
    } else {
      CallsAreContinued(states, labels, m, n, call);
      answers, l := CallsFollowTheCode(states, labels, m, n - 1, call);
      RunInv(states, labels, n - 1);
      var s, step := states[n - 1], labels[n - 1];
      if step.Work? && step.call == call {
        answers, l := OwnStepFollows(s, call, step.choice, x, w, answers, l);
      } else {
        OtherStepFollows(s, step, call, x, w, answers, l);
      }
    }
  }

  lemma FollowedFirst(s: State, call: nat, answers: nat -> Answer)
    requires call in s.calls && s.calls[call].pc != Begin
    ensures Followed(s, call, s.calls[call], Plan(s, s.calls[call].run.runId), answers, 0)
  {
    hide Settled;
  }

  // ---------- the code ----------

  /** One call of Execute: its message, and how the environment answers its remote calls. */
  class WorkflowExecutor {
    const w: Workflow
    const message: nat
    const body: Message
    const answers: nat -> Answer
    var made: seq<Request>

    constructor (w: Workflow, message: nat, body: Message, answers: nat -> Answer)
      ensures this.w == w && this.message == message && this.body == body && this.answers == answers && made == []
    {
      this.w, this.message, this.body, this.answers, made := w, message, body, answers, [];
    }

    /** This call at a position, with what the run object holds. */
    function At(pc: Pc, run: Run): Call { Call(message, body, pc, run) }

    /** The calls made since `before` are those from x on, which have come to this position. */
    ghost predicate Comes(x: Call, before: seq<Request>, pc: Pc, run: Run)
      reads this
    {
      Path(x, before, At(pc, run), made, w, answers)
    }

    method Ask(r: Request) returns (a: Answer)
      modifies this
      ensures made == old(made) + [r] && a == answers(|old(made)|)
    {
      a := answers(|made|);
      made := made + [r];
    }

    /** One request of the position the path has come to. */
    lemma Asked(x: Call, before: seq<Request>, y: Call, was: seq<Request>, r: Request)
      requires Path(x, before, y, was, w, answers) && made == was + [r]
      requires Settled(y, w) == y && RequestAt(y) == r
      ensures Path(x, before, Next(y, w, answers(|was|)), made, w, answers)
    {
      hide Settled, RequestAt, Next, Path;
      PathStep(x, before, y, was, w, answers);
    }

    method CompleteWorkflow(run: WorkflowRun) returns (ok: bool)
      modifies this, run
      ensures Comes(old(At(Finishing, run.View())), old(made), Return(ok), run.View())
      ensures made == old(made) + [Put(MarkCompleted)] && ok == answers(|old(made)|).done
    {
      ghost var x := At(Finishing, run.View());
      PathStarts(x, made, w, answers);
      run.MarkCompleted(answers(|made|).stamp);
      var a := Ask(Put(MarkCompleted));
      Asked(x, old(made), x, old(made), Put(MarkCompleted));
      ok := a.done;
    }

    /** The result of the write is ignored: the action's error is returned. */
    method HandleActionFailure(run: WorkflowRun)
      modifies this, run
      ensures Comes(old(At(Failing, run.View())), old(made), Return(false), run.View())
      ensures made == old(made) + [Put(MarkFailed)]
    {
      ghost var x := At(Failing, run.View());
      PathStarts(x, made, w, answers);
      run.MarkFailed(answers(|made|).stamp);
      var _ := Ask(Put(MarkFailed));
      Asked(x, old(made), x, old(made), Put(MarkFailed));
    }

    /** prepareAction: ACTION_i_STARTED, then the log row. */
    method PrepareAction(run: WorkflowRun, i: nat) returns (ok: bool)
      requires i < |w.actions|
      modifies this, run
      ensures Comes(old(At(Actions(i), run.View())), old(made), if ok then Acting(i) else Failing, run.View())
      ensures var n := |old(made)|;
        && ok == (answers(n).done && answers(n + 1).done)
        && made == old(made) + (if answers(n).done then [Put(SetActionStarted(i)), CreateLog(i)]
                                else [Put(SetActionStarted(i))])
    {
      ghost var x := At(Actions(i), run.View());
      PathStarts(x, made, w, answers);
      run.SetActionStartedStatus(i, answers(|made|).stamp);
      var a := Ask(Put(SetActionStarted(i)));
      Asked(x, old(made), x, old(made), Put(SetActionStarted(i)));
      if !a.done {
        return false;
      }
      ghost var y, was := At(Logging(i), run.View()), made;
      a := Ask(CreateLog(i));
      Asked(x, old(made), y, was, CreateLog(i));
      return a.done;
    }

    /** Execute of the action executor for a delay: a short one sleeps, a long one creates the record of its job and
        pushes it. */
    method ExecuteDelay(run: WorkflowRun, i: nat) returns (ok: bool, ghost scheduled: Option<Id>)
      requires KindIn(w, i) == Some(LongDelay) || KindIn(w, i) == Some(ShortDelay)
      modifies this
      ensures Comes(old(At(Acting(i), run.View())), old(made), if ok
        then Pausing(i, scheduled) else Failing, run.View())
      ensures var n := |old(made)|;
        && ok == (w.actions[i] == ShortDelay || (answers(n).done && answers(n + 1).done))
        && made == old(made) + (if w.actions[i] == LongDelay && answers(n).done
                                then [Perform(i), PushJob(answers(n).job)] else [Perform(i)])
    {
      ghost var x := At(Acting(i), run.View());
      PathStarts(x, made, w, answers);
      scheduled := None;
      var a := Ask(Perform(i));
      Asked(x, old(made), x, old(made), Perform(i));
      if w.actions[i] == ShortDelay {
        return true, None;
      }
      if !a.done {
        return false, None;
      }
      var job := a.job;
      ghost var y, was := At(Pushing(i, job), run.View()), made;
      a := Ask(PushJob(job));
      Asked(x, old(made), y, was, PushJob(job));
      return a.done, Some(job);
    }

    /** executeDelayAction: the delay, ACTION_i_SCHEDULED, the log row. */
    method ExecuteDelayAction(run: WorkflowRun, i: nat) returns (shouldPause: bool, ok: bool)
      requires KindIn(w, i) == Some(LongDelay) || KindIn(w, i) == Some(ShortDelay)
      modifies this, run
      ensures shouldPause == ok
      ensures Comes(old(At(Acting(i), run.View())), old(made), if ok then Return(true) else Failing, run.View())
      ensures var n := |old(made)|;
        var all := (if w.actions[i] == LongDelay then [Perform(i), PushJob(answers(n).job)] else [Perform(i)])
          + [Put(SetActionScheduled(i)), UpdateLog];
        && n < |made| && made <= old(made) + all
        && (forall j :: n <= j < |made| - 1 ==> answers(j).done || (j == n && w.actions[i] == ShortDelay))
        && (ok ==> |made| == n + |all|) && ok == answers(|made| - 1).done
    {
      hide Path;
      ghost var x := At(Acting(i), run.View());
      ghost var scheduled: Option<Id>;
      ok, scheduled := ExecuteDelay(run, i);
      if !ok {
        return false, false;
      }
      ghost var y, was := At(Pausing(i, scheduled), run.View()), made;
      run.SetActionScheduledStatus(i, answers(|made|).stamp);
      var a := Ask(Put(SetActionScheduled(i)));
      Asked(x, old(made), y, was, Put(SetActionScheduled(i)));
      if !a.done {
        return false, false;
      }
      y, was := At(PauseLogging, run.View()), made;
      a := Ask(UpdateLog);
      Asked(x, old(made), y, was, UpdateLog);
      return a.done, a.done;
    }

    /** executeRegularAction: the action, then ACTION_i_COMPLETED, whose result is ignored. */
    method ExecuteRegularAction(run: WorkflowRun, i: nat) returns (ok: bool)
      requires KindIn(w, i) == Some(Regular)
      modifies this, run
      ensures Comes(old(At(Acting(i), run.View())), old(made), if ok then Actions(i + 1) else Failing, run.View())
      ensures ok == answers(|old(made)|).done
      ensures made == old(made) + if ok then [Perform(i), Put(SetActionCompleted(i))] else [Perform(i)]
    {
      ghost var x := At(Acting(i), run.View());
      PathStarts(x, made, w, answers);
      var a := Ask(Perform(i));
      Asked(x, old(made), x, old(made), Perform(i));
      if !a.done {
        return false;
      }
      ghost var y, was := At(Marking(i), run.View()), made;
      run.SetActionCompletedStatus(i, answers(|made|).stamp);
      var _ := Ask(Put(SetActionCompleted(i)));
      Asked(x, old(made), y, was, Put(SetActionCompleted(i)));
      return true;
    }

    /** Where executeSingleAction leaves the call. */
    function AfterSingle(i: nat, shouldPause: bool, ok: bool): Pc {
      if !ok then Failing else if shouldPause then Return(true) else Actions(i + 1)
    }

    method ExecuteSingleAction(run: WorkflowRun, i: nat) returns (shouldPause: bool, ok: bool)
      requires i < |w.actions|
      modifies this, run
      ensures Comes(old(At(Actions(i), run.View())), old(made), AfterSingle(i, shouldPause, ok), run.View())
    {
      hide Path;
      ghost var x := At(Actions(i), run.View());
      shouldPause := false;
      ok := PrepareAction(run, i);
      if ok {
        ghost var y, middle := At(Acting(i), run.View()), made;
        if w.actions[i] == Regular {
          ok := ExecuteRegularAction(run, i);
        } else {
          shouldPause, ok := ExecuteDelayAction(run, i);
        }
        PathJoins(x, old(made), y, middle, At(AfterSingle(i, shouldPause, ok), run.View()), made, w, answers);
      }
    }

    /** executeActions: the loop over the actions with its three exits. */
    method ExecuteActions(run: WorkflowRun, startIndex: nat) returns (ok: bool)
      modifies this, run
      ensures Comes(old(At(Actions(startIndex), run.View())), old(made), Return(ok), run.View())
    {
      hide Path;
      ghost var x := At(Actions(startIndex), run.View());
      PathStarts(x, made, w, answers);
      var i := startIndex;
      while i < |w.actions|
        invariant Comes(x, old(made), Actions(i), run.View())
      {
        ghost var y, middle := At(Actions(i), run.View()), made;
        var shouldPause, fine := ExecuteSingleAction(run, i);
        ghost var z := At(AfterSingle(i, shouldPause, fine), run.View());
        PathJoins(x, old(made), y, middle, z, made, w, answers);
        if !fine {
          middle := made;
          HandleActionFailure(run);
          PathJoins(x, old(made), z, middle, At(Return(false), run.View()), made, w, answers);
          return false;
        }
        if shouldPause {
          return true;
        }
        i := i + 1;
      }
      ghost var y, middle := At(Finishing, run.View()), made;
      SettledPath(x, old(made), At(Actions(i), run.View()), y, made);
      ok := CompleteWorkflow(run);
      PathJoins(x, old(made), y, middle, At(Return(ok), run.View()), made, w, answers);
    }

    /** The end of a loop. */
    lemma SettledPath(x: Call, before: seq<Request>, y: Call, z: Call, now: seq<Request>)
      requires Path(x, before, y, now, w, answers) && Settled(y, w) == Settled(z, w)
      ensures Path(x, before, z, now, w, answers)
    {
      hide Settled;
    }

    /** The write at the early exits of evaluateConditions; its result is ignored. */
    method StopRun(run: WorkflowRun, failed: bool)
      modifies this, run
      ensures var change := if failed then MarkFailed else MarkCompleted;
        && Comes(old(At(Stopping(change), run.View())), old(made), Return(true), run.View())
        && made == old(made) + [Put(change)]
    {
      ghost var x := At(Stopping(if failed then MarkFailed else MarkCompleted), run.View());
      PathStarts(x, made, w, answers);
      if failed { run.MarkFailed(answers(|made|).stamp); } else { run.MarkCompleted(answers(|made|).stamp); }
      var _ := Ask(Put(if failed then MarkFailed else MarkCompleted));
      Asked(x, old(made), x, old(made), Put(if failed then MarkFailed else MarkCompleted));
    }

    /** evaluateConditions: a failed CONDITION_i is only logged, and so are the failed writes at its two early exits.
        The first k conditions pass. */
    method EvaluateConditions(run: WorkflowRun) returns (passed: bool, ghost k: nat)
      modifies this, run
      ensures Comes(old(At(Conditions(0), run.View())), old(made), if passed
        then Actions(0) else Return(true), run.View())
      ensures var n := |old(made)| + 2 * k;
        && k <= w.conditions && passed == (k == w.conditions)
        && (forall j :: 0 <= j < k ==> answers(|old(made)| + 2 * j + 1).verdict == Passed)
        && (passed ==> |made| == n)
        && (!passed ==>
              && |made| == n + 3 && answers(n + 1).verdict != Passed
              && made[n] == Put(SetCondition(k)) && made[n + 1] == Evaluate(k)
              && made[n + 2] == Put(if answers(n + 1).verdict == NotPassed then MarkCompleted else MarkFailed))
    {
      hide Path;
      ghost var x := At(Conditions(0), run.View());
      PathStarts(x, made, w, answers);
      k := 0;
      for i := 0 to w.conditions
        invariant Comes(x, old(made), Conditions(i), run.View())
        invariant k == i && |made| == |old(made)| + 2 * i
        invariant forall j :: 0 <= j < i ==> answers(|old(made)| + 2 * j + 1).verdict == Passed
      {
        ghost var y, was := At(Conditions(i), run.View()), made;
        run.SetConditionStatus(i, answers(|made|).stamp);
        var _ := Ask(Put(SetCondition(i)));
        Asked(x, old(made), y, was, Put(SetCondition(i)));
        y, was := At(Evaluating(i), run.View()), made;
        var a := Ask(Evaluate(i));
        Asked(x, old(made), y, was, Evaluate(i));
        if a.verdict != Passed {
          y, was := At(Stopping(if a.verdict == Broken then MarkFailed else MarkCompleted), run.View()), made;
          StopRun(run, a.verdict == Broken);
          PathJoins(x, old(made), y, was, At(Return(true), run.View()), made, w, answers);
          return false, k;
        }
        k := k + 1;
      }
      SettledPath(x, old(made), At(Conditions(w.conditions), run.View()), At(Actions(0), run.View()), made);
      return true, k;
    }

    /** executeNewWorkflow, once its run has been created. */
    method ExecuteNewWorkflow(run: WorkflowRun) returns (ok: bool)
      modifies this, run
      ensures Comes(old(At(Conditions(0), run.View())), old(made), Return(ok), run.View())
    {
      hide Path;
      ghost var x := At(Conditions(0), run.View());
      var passed, _ := EvaluateConditions(run);
      if !passed {
        return true;
      }
      ghost var y, middle := At(Actions(0), run.View()), made;
      ok := ExecuteActions(run, 0);
      PathJoins(x, old(made), y, middle, At(Return(ok), run.View()), made, w, answers);
    }

    /** resumeWorkflow, once resume_from has been parsed and the run has been read. */
    method ResumeWorkflow(run: WorkflowRun) returns (ok: bool)
      requires body.Resume?
      modifies this, run
      ensures Comes(old(At(Loaded, run.View())), old(made), Return(ok), run.View())
    {
      hide Path;
      ghost var x := At(Loaded, run.View());
      PathStarts(x, made, w, answers);
      run.SetActionCompletedStatus(body.index, answers(|made|).stamp);
      var a := Ask(Put(SetActionCompleted(body.index)));
      Asked(x, old(made), x, old(made), Put(SetActionCompleted(body.index)));
      if !a.done {
        return false;
      }
      ghost var y, middle := At(Actions(body.index + 1), run.View()), made;
      ok := ExecuteActions(run, body.index + 1);
      PathJoins(x, old(made), y, middle, At(Return(ok), run.View()), made, w, answers);
    }
  }
}
