/** Whether the message of a call that has lost a write is delivered again. */
module ProtocolRetries {
  import opened Domain
  import opened Options
  import opened RedisLists
  import opened Remote
  import opened Protocol
  import opened ProtocolSafety
  import opened ProtocolRuns
  import Sched = SchedulerSteps

  /** Among the steps from .. to - 1 the call made the last write of evaluateConditions: a condition has not passed or
      could not be evaluated. */
  ghost predicate StoppedBetween(states: seq<State>, labels: seq<Label>, from: nat, to: nat, call: nat) {
    exists k :: from <= k < to && StopsAt(states, labels, k, call)
  }

  predicate StopsAt(states: seq<State>, labels: seq<Label>, k: nat, call: nat) {
    && k < |labels| && k < |states| && labels[k].Work? && labels[k].call == call && call in states[k].calls
    && states[k].calls[call].pc.Stopping?
  }

  /** Where a call can stand that has lost a write. */
  predicate AfterLoss(pc: Pc, stopped: bool) {
    match pc
    case Return(ok) => ok == stopped
    case Conditions(_) | Evaluating(_) | Stopping(_) | Actions(_) | Failing | Finishing => !stopped
    case _ => false
  }

  lemma LossLeadsOn(s: State, call: nat, c: Choice)
    requires CanWork(s, call, c) && Writing(s, call) && !Applied(s, call, c)
    ensures AfterLoss(NextPc(s, call, c), s.calls[call].pc.Stopping?)
  {
    hide Sched.Enabled, Accepts;
  }

  lemma LoserGoesOn(s: State, call: nat, c: Choice, stopped: bool)
    requires CanWork(s, call, c) && AfterLoss(s.calls[call].pc, stopped) && (Writing(s, call) ==> !Applied(s, call, c))
    ensures AfterLoss(NextPc(s, call, c), stopped || s.calls[call].pc.Stopping?)
  {
    hide Sched.Enabled, Accepts;
  }

  /** No write of a fenced call is applied. */
  lemma FencedIsRejected(s: State, call: nat, c: Choice)
    requires Fenced(s, call) && CanWork(s, call, c) && Writing(s, call)
    ensures !Applied(s, call, c)
  {
    hide Sched.Enabled, Busy;
    assert Orphan(s, s.calls[call].run);
  }

  lemma OneMoreState(states: seq<State>, labels: seq<Label>, m: nat, n: nat, call: nat)
    requires m <= n
    ensures StoppedBetween(states, labels, m, n + 1, call)
      <==> StoppedBetween(states, labels, m, n, call) || StopsAt(states, labels, n, call)
  {
  }

  lemma OwnLossStep(s: State, call: nat, c: Choice, stopped: bool)
    requires call in s.calls && Fenced(s, call) && CanWork(s, call, c) && AfterLoss(s.calls[call].pc, stopped)
    ensures call in WorkStep(s, call, c).calls
    ensures AfterLoss(WorkStep(s, call, c).calls[call].pc, stopped || s.calls[call].pc.Stopping?)
  {
    hide CanWork, WorkStep, Fenced, AfterLoss, Applied, NextPc;
    if Writing(s, call) { FencedIsRejected(s, call, c); }
    LoserGoesOn(s, call, c, stopped);
    StepPc(s, call, c);
  }

  lemma FirstLossStep(s: State, call: nat, c: Choice)
    requires CanWork(s, call, c) && Writing(s, call) && !Applied(s, call, c)
    ensures call in WorkStep(s, call, c).calls
    ensures AfterLoss(WorkStep(s, call, c).calls[call].pc, s.calls[call].pc.Stopping?)
  {
    hide CanWork, WorkStep, AfterLoss, Applied, NextPc;
    LossLeadsOn(s, call, c);
    StepPc(s, call, c);
  }

  lemma {:induction false} LoserStands(states: seq<State>, labels: seq<Label>, m: nat, n: nat, call: nat)
    requires IsRun(states, labels) && m < n < |states| && LostAt(states, labels, m, call)
    ensures Fenced(states[n], call)
    ensures call in states[n].calls ==> AfterLoss(states[n].calls[call].pc, StoppedBetween(states, labels, m, n, call))
    decreases n
  {
    hide Inv, WorkStep, Fenced, AfterLoss, StoppedBetween, FreshStamp, CanWork, Applied;
    var s, l := states[n - 1], labels[n - 1];
    OneMoreState(states, labels, m, n - 1, call);
    RunInv(states, labels, n - 1);
    if n == m + 1 {
      UnappliedWriteFences(s, call, l.choice);
      FirstLossStep(s, call, l.choice);
      assert !StoppedBetween(states, labels, m, m, call) by { NothingBetween(states, labels, m, call); }
    } else {
      LoserStands(states, labels, m, n - 1, call);
      FencedStays(s, l, call);
      if l.Work? && l.call == call {
        OwnLossStep(s, call, l.choice, StoppedBetween(states, labels, m, n - 1, call));
      } else if call in states[n].calls {
        CallsAreOldWhenFenced(s, call);
        OtherCallsUntouched(s, l, call);
      }
    }
  }

  lemma NothingBetween(states: seq<State>, labels: seq<Label>, m: nat, call: nat)
    ensures !StoppedBetween(states, labels, m, m, call)
  {
  }

  lemma CallsAreOldWhenFenced(s: State, call: nat)
    requires Fenced(s, call)
    ensures call < s.nextCall
  {
  }

  /** A lost write and the message: once a write of a call has been rejected or refused, the call returns success, so
      that its message may be deleted, if and only if it came to a condition that does not pass or cannot be evaluated;
      losing any write behind the conditions always leaves the message to be delivered again. */
  lemma LostWriteIsRetried(states: seq<State>, labels: seq<Label>, m: nat, n: nat, call: nat)
    requires IsRun(states, labels) && m < n < |states| && LostAt(states, labels, m, call)
    requires call in states[n].calls && states[n].calls[call].pc.Return?
    ensures Possible(states[n], Delete(call)) <==> StoppedBetween(states, labels, m, n, call)
  {
    hide Inv, WorkStep, Fenced, StoppedBetween, FreshStamp, CanWork, Applied, IsRun;
    LoserStands(states, labels, m, n, call);
  }
}
