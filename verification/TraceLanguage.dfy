/** The language of the executor's traces, exactly: a sequence of states is the beginning of some trace of a workflow if
    and only if each state may follow the one before it, the kinds of the actions considered. */
module TraceLanguage {
  import opened Domain
  import opened Options
  import opened Protocol
  import opened ExecutorRefinement
  import E = Executor
  import I = ExecutorImpl

  /** State b may be stored over a when every message is delivered once and only actions fail. */
  predicate MayStep(w: Workflow, a: RunState, b: RunState) {
    && E.MayFollow(w.conditions, |w.actions|, a, b)
    && match a
       case ActionStarted(i) =>
         && (b.ActionCompleted? ==> w.actions[i] == Regular)
         && (b.ActionScheduled? ==> w.actions[i] != Regular)
         && (b == RunState.Failed ==> w.actions[i] != ShortDelay)
       case ActionScheduled(i) => w.actions[i] == LongDelay
       case _ => true
  }

  ghost predicate IsBeginning(w: Workflow, h: seq<RunState>) {
    && h != [] && h[0] == Triggered
    && forall k :: 0 <= k < |h| - 1 ==> MayStep(w, h[k], h[k + 1])
  }

  // ---------- traces, one state after the other ----------

  function FirstAction(w: E.Workflow): RunState { if |w.actions| > 0 then ActionStarted(0) else RunState.Completed }

  /** The state a trace of this workflow stores after this one. */
  function NextOf(w: E.Workflow, a: RunState): Option<RunState>
    requires w.Valid()
  {
    match a
    case Triggered => Some(if |w.verdicts| > 0 then Condition(0) else FirstAction(w))
    case Condition(i) =>
      if i >= |w.verdicts| then None
      else (match w.verdicts[i]
            case Passed => Some(if i + 1 < |w.verdicts| then Condition(i + 1) else FirstAction(w))
            case NotPassed => Some(RunState.Completed)
            case Broken => Some(RunState.Failed))
    case ActionStarted(i) =>
      if i >= |w.actions| then None
      else if E.Fails(w, i) then Some(RunState.Failed)
      else Some(if w.actions[i].Delay? then ActionScheduled(i) else ActionCompleted(i))
    case ActionScheduled(i) => if i < |w.actions| && E.IsLong(w.actions[i]) then Some(ActionCompleted(i)) else None
    case ActionCompleted(i) =>
      if i >= |w.actions| then None
      else Some(if i + 1 < |w.actions| then ActionStarted(i + 1) else RunState.Completed)
    case Completed => None
    case Failed => None
  }

  /** The states are the ones that come after a, to the end. */
  predicate Chain(w: E.Workflow, a: RunState, states: seq<RunState>)
    requires w.Valid()
    decreases |states|
  {
    if states == [] then NextOf(w, a) == None
    else NextOf(w, a) == Some(states[0]) && Chain(w, states[0], states[1..])
  }

  lemma ChainCons(w: E.Workflow, a: RunState, b: RunState, states: seq<RunState>)
    requires w.Valid() && NextOf(w, a) == Some(b) && Chain(w, b, states)
    ensures Chain(w, a, [b] + states)
  {
    assert ([b] + states)[1..] == states;
  }

  lemma {:induction false} ActionsChain(w: E.Workflow, i: nat, a: RunState)
    requires w.Valid() && i <= |w.actions|
    requires NextOf(w, a) == Some(if i < |w.actions| then ActionStarted(i) else RunState.Completed)
    ensures Chain(w, a, E.WholeRun(w, i).states)
    decreases |w.actions| - i
  {
    hide E.WholeRun, Chain, E.Fails, KindOf;
    assert Chain(w, RunState.Completed, []) && Chain(w, RunState.Failed, []) by { EndsChain(w); }
    if i == |w.actions| {
      ChainCons(w, a, RunState.Completed, []);
      assert E.WholeRun(w, i).states == [RunState.Completed] + [] by { NothingLeft(w); }
    } else {
      WholeRunCases(w, i);
      var states := E.WholeRun(w, i).states;
      if E.Fails(w, i) {
        ChainCons(w, ActionStarted(i), RunState.Failed, []);
        ChainCons(w, a, ActionStarted(i), [RunState.Failed] + []);
        assert states == [ActionStarted(i)] + ([RunState.Failed] + []);
      } else {
        KindsOfActions(w, i);
        var rest := E.WholeRun(w, i + 1).states;
        match KindOf(w.actions[i])
        case ShortDelay =>
          ShortEnds(w, i);
          ChainCons(w, ActionStarted(i), ActionScheduled(i), []);
          ChainCons(w, a, ActionStarted(i), [ActionScheduled(i)] + []);
          assert states == [ActionStarted(i)] + ([ActionScheduled(i)] + []);
        case LongDelay =>
          ActionsChain(w, i + 1, ActionCompleted(i));
          ChainCons(w, ActionScheduled(i), ActionCompleted(i), rest);
          ChainCons(w, ActionStarted(i), ActionScheduled(i), [ActionCompleted(i)] + rest);
          ChainCons(w, a, ActionStarted(i), [ActionScheduled(i)] + ([ActionCompleted(i)] + rest));
          assert states == [ActionStarted(i)] + ([ActionScheduled(i)] + ([ActionCompleted(i)] + rest));
        case Regular =>
          ActionsChain(w, i + 1, ActionCompleted(i));
          ChainCons(w, ActionStarted(i), ActionCompleted(i), rest);
          ChainCons(w, a, ActionStarted(i), [ActionCompleted(i)] + rest);
          assert states == [ActionStarted(i)] + ([ActionCompleted(i)] + rest);
      }
    }
  }

  lemma EndsChain(w: E.Workflow)
    requires w.Valid()
    ensures Chain(w, RunState.Completed, []) && Chain(w, RunState.Failed, [])
  {
  }

  lemma NothingLeft(w: E.Workflow)
    requires w.Valid()
    ensures E.WholeRun(w, |w.actions|).states == [RunState.Completed]
  {
  }

  lemma ShortEnds(w: E.Workflow, i: nat)
    requires w.Valid() && i < |w.actions| && KindOf(w.actions[i]) == ShortDelay
    ensures Chain(w, ActionScheduled(i), [])
  {
  }

  lemma {:induction false} ConditionsChain(w: E.Workflow, i: nat, a: RunState)
    requires w.Valid() && i <= |w.verdicts|
    requires NextOf(w, a) == Some(if i < |w.verdicts| then Condition(i) else FirstAction(w))
    ensures var (states, go) := I.ConditionTrace(w.verdicts, i);
      Chain(w, a, states + if go then E.WholeRun(w, 0).states else [])
    decreases |w.verdicts| - i
  {
    hide E.WholeRun, Chain;
    EndsChain(w);
    var (states, go) := I.ConditionTrace(w.verdicts, i);
    var actions := E.WholeRun(w, 0).states;
    if i == |w.verdicts| {
      ActionsChain(w, 0, a);
      assert states + actions == actions;
    } else if w.verdicts[i] == E.Passed {
      ConditionsChain(w, i + 1, Condition(i));
      var rest := I.ConditionTrace(w.verdicts, i + 1).0;
      var after := rest + if go then actions else [];
      ChainCons(w, a, Condition(i), after);
      assert states + (if go then actions else []) == [Condition(i)] + after;
    } else {
      var last := if w.verdicts[i] == E.Broken then RunState.Failed else RunState.Completed;
      ChainCons(w, Condition(i), last, []);
      ChainCons(w, a, Condition(i), [last] + []);
      assert states + [] == [Condition(i)] + ([last] + []);
    }
  }

  lemma TraceIsChain(w: E.Workflow)
    requires w.Valid()
    ensures |I.RunTrace(w).states| > 0 && I.RunTrace(w).states[0] == Triggered
    ensures Chain(w, Triggered, I.RunTrace(w).states[1..])
  {
    hide E.WholeRun, Chain, I.ConditionTrace;
    ConditionsChain(w, 0, Triggered);
    var (states, go) := I.ConditionTrace(w.verdicts, 0);
    var rest := if go then E.WholeRun(w, 0).states else [];
    assert I.RunTrace(w).states == [Triggered] + (states + rest);
  }

  /** Whatever follows state by state is a beginning of the chain. */
  lemma {:induction false} BeginsChain(w: E.Workflow, a: RunState, states: seq<RunState>, h: seq<RunState>)
    requires w.Valid() && Chain(w, a, states) && h != [] && h[0] == a
    requires forall k :: 0 <= k < |h| - 1 ==> NextOf(w, h[k]) == Some(h[k + 1])
    ensures h[1..] <= states
    decreases |h|
  {
    hide NextOf;
    if |h| > 1 {
      assert NextOf(w, h[0]) == Some(h[0 + 1]);
      assert states != [] && states[0] == h[1];
      forall k | 0 <= k < |h[1..]| - 1 ensures NextOf(w, h[1..][k]) == Some(h[1..][k + 1]) {
        assert NextOf(w, h[k + 1]) == Some(h[k + 1 + 1]);
      }
      BeginsChain(w, h[1], states[1..], h[1..]);
      assert h[1..] == [h[1]] + h[1..][1..] && states == [states[0]] + states[1..];
    }
  }

  // ---------- the trace of a beginning ----------

  /** States come in the order of their ranks. */
  function Rank(w: Workflow, a: RunState): nat {
    match a
    case Triggered => 0
    case Condition(i) => i + 1
    case ActionStarted(i) => w.conditions + 3 * i + 1
    case ActionScheduled(i) => w.conditions + 3 * i + 2
    case ActionCompleted(i) => w.conditions + 3 * i + 3
    case _ => w.conditions + 3 * |w.actions| + 4
  }

  lemma StepRanks(w: Workflow, a: RunState, b: RunState)
    requires MayStep(w, a, b)
    ensures Rank(w, a) < Rank(w, b)
  {
  }

  lemma {:induction false} RanksRise(w: Workflow, h: seq<RunState>, j: nat, k: nat)
    requires IsBeginning(w, h) && j < k < |h|
    ensures Rank(w, h[j]) < Rank(w, h[k])
    decreases k
  {
    hide Rank, MayStep;
    assert MayStep(w, h[k - 1], h[k - 1 + 1]);
    StepRanks(w, h[k - 1], h[k]);
    if j < k - 1 { RanksRise(w, h, j, k - 1); }
  }

  /** No state comes twice. */
  lemma StatesDiffer(w: Workflow, h: seq<RunState>, j: nat, k: nat)
    requires IsBeginning(w, h) && j < |h| && k < |h| && h[j] == h[k]
    ensures j == k
  {
    hide IsBeginning, Rank;
    if j < k { RanksRise(w, h, j, k); }
    if k < j { RanksRise(w, h, k, j); }
  }

  /** Somewhere b comes right after a. */
  ghost predicate Has(h: seq<RunState>, a: RunState, b: RunState) {
    exists k :: 0 <= k < |h| - 1 && h[k] == a && h[k + 1] == b
  }

  function ActionOf(kind: ActionKind): E.Action {
    match kind
    case Regular => E.Send
    case LongDelay => E.Delay(Some(60 * E.NANOS))
    case ShortDelay => E.Delay(Some(0))
  }

  ghost function VerdictIn(h: seq<RunState>, i: nat): E.Verdict {
    if Has(h, Condition(i), RunState.Completed) then E.NotPassed
    else if Has(h, Condition(i), RunState.Failed) then E.Broken else E.Passed
  }

  /** A workflow with what its environment must have answered for these states. */
  ghost function Chosen(w: Workflow, h: seq<RunState>): E.Workflow {
    E.Workflow(seq(w.conditions, i requires 0 <= i < w.conditions => VerdictIn(h, i)),
               seq(|w.actions|, i requires 0 <= i < |w.actions| => ActionOf(w.actions[i])),
               seq(|w.actions|, i requires 0 <= i < |w.actions| => !Has(h, ActionStarted(i), RunState.Failed)))
  }

  lemma ChosenHasThePlan(w: Workflow, h: seq<RunState>)
    ensures Chosen(w, h).Valid() && PlanOf(Chosen(w, h)) == w
  {
    var v := Chosen(w, h);
    forall i | 0 <= i < |w.actions| ensures KindOf(v.actions[i]) == w.actions[i] { KindOfAction(w.actions[i]); }
    assert PlanOf(v).actions == w.actions;
  }

  lemma KindOfAction(kind: ActionKind)
    ensures KindOf(ActionOf(kind)) == kind && (ActionOf(kind).Delay? <==> kind != Regular)
    ensures E.IsLong(ActionOf(kind)) <==> kind == LongDelay
  {
  }

  /** What comes after a state in the beginning is what comes after it in the chosen trace. */
  lemma ChosenNext(w: Workflow, h: seq<RunState>, k: nat)
    requires IsBeginning(w, h) && k + 1 < |h| && Chosen(w, h).Valid()
    ensures NextOf(Chosen(w, h), h[k]) == Some(h[k + 1])
  {
    OnlyAfter(w, h, k);
    assert MayStep(w, h[k], h[k + 1]);
    match h[k]
    case Condition(i) => ChosenCondition(w, h, k, i);
    case ActionStarted(i) => ChosenAction(w, h, k, i);
    case ActionScheduled(i) => KindOfAction(w.actions[i]);
    case _ =>
  }

  /** What comes after a state comes after it everywhere. */
  lemma OnlyAfter(w: Workflow, h: seq<RunState>, k: nat)
    requires IsBeginning(w, h) && k + 1 < |h|
    ensures forall b :: Has(h, h[k], b) <==> b == h[k + 1]
  {
    forall b | Has(h, h[k], b) ensures b == h[k + 1] {
      var j :| 0 <= j < |h| - 1 && h[j] == h[k] && h[j + 1] == b;
      StatesDiffer(w, h, j, k);
    }
  }

  lemma ChosenCondition(w: Workflow, h: seq<RunState>, k: nat, i: nat)
    requires k + 1 < |h| && h[k] == Condition(i) && MayStep(w, h[k], h[k + 1]) && Chosen(w, h).Valid()
    requires forall b :: Has(h, h[k], b) <==> b == h[k + 1]
    ensures NextOf(Chosen(w, h), h[k]) == Some(h[k + 1])
  {
    hide Has;
    assert Chosen(w, h).verdicts[i] == VerdictIn(h, i);
  }

  lemma ChosenAction(w: Workflow, h: seq<RunState>, k: nat, i: nat)
    requires k + 1 < |h| && h[k] == ActionStarted(i) && MayStep(w, h[k], h[k + 1]) && Chosen(w, h).Valid()
    requires forall b :: Has(h, h[k], b) <==> b == h[k + 1]
    ensures NextOf(Chosen(w, h), h[k]) == Some(h[k + 1])
  {
    hide Has;
    KindOfAction(w.actions[i]);
    assert Chosen(w, h).succeeds[i] == (h[k + 1] != RunState.Failed);
  }

  /** Every beginning is one: some workflow with this plan has a trace that starts with these states. */
  lemma BeginningOfATrace(w: Workflow, h: seq<RunState>) returns (v: E.Workflow)
    requires IsBeginning(w, h)
    ensures v.Valid() && PlanOf(v) == w && h <= I.RunTrace(v).states
  {
    hide Chain, NextOf, MayStep, PlanOf, I.RunTrace;
    v := Chosen(w, h);
    ChosenHasThePlan(w, h);
    forall k | 0 <= k < |h| - 1 ensures NextOf(v, h[k]) == Some(h[k + 1]) { ChosenNext(w, h, k); }
    TraceIsChain(v);
    var states := I.RunTrace(v).states;
    BeginsChain(v, Triggered, states[1..], h);
    assert h == [h[0]] + h[1..] && states == [states[0]] + states[1..];
  }

  lemma NextIsAStep(w: E.Workflow, a: RunState, b: RunState)
    requires w.Valid() && NextOf(w, a) == Some(b)
    ensures MayStep(PlanOf(w), a, b)
  {
    hide E.IsLong, E.IsShort;
    if (a.ActionStarted? || a.ActionScheduled?) && a.index < |w.actions| { PlannedKind(w, a.index); }
  }

  lemma PlannedKind(w: E.Workflow, i: nat)
    requires w.Valid() && i < |w.actions|
    ensures var kind := PlanOf(w).actions[i];
      && (kind == LongDelay <==> E.IsLong(w.actions[i]))
      && (kind != Regular ==> w.actions[i].Delay?)
      && (kind == Regular && w.actions[i].Delay? ==> E.Fails(w, i))
      && (E.Fails(w, i) ==> kind != ShortDelay)
  {
  }

  lemma {:induction false} ChainSteps(w: E.Workflow, a: RunState, states: seq<RunState>, k: nat)
    requires w.Valid() && Chain(w, a, states) && k < |states|
    ensures MayStep(PlanOf(w), ([a] + states)[k], ([a] + states)[k + 1])
    decreases k
  {
    hide NextOf, MayStep, PlanOf;
    if k == 0 {
      NextIsAStep(w, a, states[0]);
    } else {
      ChainSteps(w, states[0], states[1..], k - 1);
      assert [states[0]] + states[1..] == states;
    }
  }

  ghost predicate BeginsATrace(w: Workflow, h: seq<RunState>) {
    exists v: E.Workflow :: v.Valid() && PlanOf(v) == w && h <= I.RunTrace(v).states
  }

  /** The language of traces, exactly. */
  lemma BeginningsAreTraces(w: Workflow, h: seq<RunState>)
    requires h != []
    ensures IsBeginning(w, h) <==> BeginsATrace(w, h)
  {
    if IsBeginning(w, h) {
      var v := BeginningOfATrace(w, h);
    }
    if v: E.Workflow :| v.Valid() && PlanOf(v) == w && h <= I.RunTrace(v).states { TraceBegins(v, h); }
  }

  lemma TraceBegins(v: E.Workflow, h: seq<RunState>)
    requires v.Valid() && h != [] && h <= I.RunTrace(v).states
    ensures IsBeginning(PlanOf(v), h)
  {
    hide Chain, MayStep, PlanOf, I.RunTrace;
    TraceIsChain(v);
    var states := I.RunTrace(v).states;
    assert states == [Triggered] + states[1..];
    forall k | 0 <= k < |h| - 1 ensures MayStep(PlanOf(v), h[k], h[k + 1]) { ChainSteps(v, Triggered, states[1..], k); }
  }

  /** In a trace, what is started is performed. */
  lemma {:induction false} StartedIsPerformed(w: E.Workflow, i: nat, k: nat)
    requires w.Valid() && i <= |w.actions| && ActionStarted(k) in E.WholeRun(w, i).states
    ensures k in E.WholeRun(w, i).performed
    decreases |w.actions| - i
  {
    hide E.WholeRun, E.Fails, KindOf;
    if i == |w.actions| {
      NothingLeft(w);
    } else {
      WholeRunCases(w, i);
      if ActionStarted(k) in E.WholeRun(w, i + 1).states && !E.Fails(w, i) && KindOf(w.actions[i]) != ShortDelay {
        StartedIsPerformed(w, i + 1, k);
      }
    }
  }

  lemma {:induction false} ConditionsStartNothing(verdicts: seq<E.Verdict>, i: nat, k: nat)
    ensures ActionStarted(k) !in I.ConditionTrace(verdicts, i).0
    decreases |verdicts| - i
  {
    if i < |verdicts| { ConditionsStartNothing(verdicts, i + 1, k); }
  }

  lemma TraceStartsWhatItPerforms(w: E.Workflow, k: nat)
    requires w.Valid() && ActionStarted(k) in I.RunTrace(w).states
    ensures k in I.RunTrace(w).performed
  {
    hide E.WholeRun, I.ConditionTrace;
    ConditionsStartNothing(w.verdicts, 0, k);
    if I.ConditionTrace(w.verdicts, 0).1 { StartedIsPerformed(w, 0, k); }
  }
}
