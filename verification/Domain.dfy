/** internal/domain/workflow_run.go: the run record, its setters and the names of its states. */
module Domain {
  import opened Text

  datatype RunStatus = StatusTriggered | StatusCompleted | StatusFailed

  datatype RunState =
    | Triggered
    | Condition(index: nat)
    | ActionStarted(index: nat)
    | ActionScheduled(index: nat)
    | ActionCompleted(index: nat)
    | Completed
    | Failed

  /** The stored item. Workflow id, version, signal id and context never change after creation. */
  datatype Run = Run(
    runId: nat,
    status: RunStatus,
    state: RunState,
    evalIndex: nat,
    actionIndex: nat,
    completedAt: int,
    updatedAt: int)

  /** The setters of a run record. */
  datatype Change =
    | SetCondition(index: nat)
    | SetActionStarted(index: nat)
    | SetActionScheduled(index: nat)
    | SetActionCompleted(index: nat)
    | MarkCompleted
    | MarkFailed

  function NewRun(runId: nat, now: int): Run {
    Run(runId, StatusTriggered, Triggered, 0, 0, 0, now)
  }

  /** What a setter called at time `now` leaves in the record. */
  function Apply(run: Run, change: Change, now: int): Run {
    match change
    case SetCondition(i) => run.(state := Condition(i), evalIndex := i, updatedAt := now)
    case SetActionStarted(i) => run.(state := ActionStarted(i), actionIndex := i, updatedAt := now)
    case SetActionScheduled(i) => run.(state := ActionScheduled(i), actionIndex := i, updatedAt := now)
    case SetActionCompleted(i) => run.(state := ActionCompleted(i), actionIndex := i, updatedAt := now)
    case MarkCompleted => run.(status := StatusCompleted, state := Completed, completedAt := now, updatedAt := now)
    case MarkFailed => run.(status := StatusFailed, state := Failed, updatedAt := now)
  }

  predicate Terminal(status: RunStatus) { status != StatusTriggered }

  /** The record as the executor holds it: an object whose setters assign its fields. */
  class WorkflowRun {
    const runId: nat
    var status: RunStatus
    var state: RunState
    var evalIndex: nat
    var actionIndex: nat
    var completedAt: int
    var updatedAt: int

    function View(): Run
      reads this
    {
      Run(runId, status, state, evalIndex, actionIndex, completedAt, updatedAt)
    }

    constructor (runId: nat, now: int)
      ensures View() == NewRun(runId, now)
      ensures status == StatusTriggered && state == Triggered && evalIndex == actionIndex == 0 && updatedAt == now
    {
      this.runId := runId;
      status, state := StatusTriggered, Triggered;
      evalIndex, actionIndex, completedAt := 0, 0, 0;
      updatedAt := now;
    }

    /** A record read back from the store. */
    constructor Unmarshal(item: Run)
      ensures View() == item
    {
      runId := item.runId;
      status, state := item.status, item.state;
      evalIndex, actionIndex, completedAt := item.evalIndex, item.actionIndex, item.completedAt;
      updatedAt := item.updatedAt;
    }

    method SetConditionStatus(index: nat, now: int)
      modifies this
      ensures View() == Apply(old(View()), SetCondition(index), now)
      ensures state == Condition(index) && evalIndex == index && updatedAt == now
      ensures status == old(status) && actionIndex == old(actionIndex) && completedAt == old(completedAt)
    {
      state := Condition(index);
      evalIndex := index;
      updatedAt := now;
    }

    method SetActionStartedStatus(index: nat, now: int)
      modifies this
      ensures View() == Apply(old(View()), SetActionStarted(index), now)
      ensures state == ActionStarted(index) && actionIndex == index && updatedAt == now
      ensures status == old(status) && evalIndex == old(evalIndex) && completedAt == old(completedAt)
    {
      state := ActionStarted(index);
      actionIndex := index;
      updatedAt := now;
    }

    method SetActionCompletedStatus(index: nat, now: int)
      modifies this
      ensures View() == Apply(old(View()), SetActionCompleted(index), now)
      ensures state == ActionCompleted(index) && actionIndex == index && updatedAt == now
      ensures status == old(status) && evalIndex == old(evalIndex) && completedAt == old(completedAt)
    {
      state := ActionCompleted(index);
      actionIndex := index;
      updatedAt := now;
    }

    method SetActionScheduledStatus(index: nat, now: int)
      modifies this
      ensures View() == Apply(old(View()), SetActionScheduled(index), now)
      ensures state == ActionScheduled(index) && actionIndex == index && updatedAt == now
      ensures status == old(status) && evalIndex == old(evalIndex) && completedAt == old(completedAt)
    {
      state := ActionScheduled(index);
      actionIndex := index;
      updatedAt := now;
    }

    method MarkCompleted(now: int)
      modifies this
      ensures View() == Apply(old(View()), Change.MarkCompleted, now)
      ensures status == StatusCompleted && state == Completed && completedAt == updatedAt == now
      ensures evalIndex == old(evalIndex) && actionIndex == old(actionIndex)
    {
      status := StatusCompleted;
      state := Completed;
      completedAt := now;
      updatedAt := completedAt;
    }

    method MarkFailed(now: int)
      modifies this
      ensures View() == Apply(old(View()), Change.MarkFailed, now)
      ensures status == StatusFailed && state == Failed && completedAt == old(completedAt) && updatedAt == now
      ensures evalIndex == old(evalIndex) && actionIndex == old(actionIndex)
    {
      status := StatusFailed;
      state := Failed;
      updatedAt := now;
    }
  }

  // ---------- names ----------

  /** The current_state column. */
  function StateName(state: RunState): string {
    match state
    case Triggered => "TRIGGERED"
    case Condition(i) => "CONDITION_" + Digits(i)
    case ActionStarted(i) => "ACTION_" + Digits(i) + "_STARTED"
    case ActionScheduled(i) => "ACTION_" + Digits(i) + "_SCHEDULED"
    case ActionCompleted(i) => "ACTION_" + Digits(i) + "_COMPLETED"
    case Completed => "COMPLETED"
    case Failed => "FAILED"
  }

  function Suffix(state: RunState): string {
    match state
    case ActionStarted(_) => "STARTED"
    case ActionScheduled(_) => "SCHEDULED"
    case ActionCompleted(_) => "COMPLETED"
    case _ => ""
  }

  predicate IsAction(state: RunState) { state.ActionStarted? || state.ActionScheduled? || state.ActionCompleted? }

  function Head(state: RunState): string {
    match state
    case Triggered => "TRI"
    case Condition(_) => "CON"
    case Completed => "COM"
    case Failed => "FAI"
    case _ => "ACT"
  }

  lemma NameHead(s: RunState)
    ensures |StateName(s)| > 3 && StateName(s)[..3] == Head(s)
  {
  }

  lemma ActionName(s: RunState)
    requires IsAction(s)
    ensures StateName(s) == "ACTION_" + (Digits(s.index) + "_" + Suffix(s))
  {
    Regroup("ACTION_", Digits(s.index), Suffix(s));
    assert "_" + "STARTED" == "_STARTED" && "_" + "SCHEDULED" == "_SCHEDULED" && "_" + "COMPLETED" == "_COMPLETED";
  }

  lemma Regroup(a: string, b: string, c: string)
    ensures a + b + ("_" + c) == a + (b + "_" + c)
  {
  }

  lemma ActionNamesAreDistinct(a: RunState, b: RunState)
    requires IsAction(a) && IsAction(b) && StateName(a) == StateName(b)
    ensures a == b
  {
    var tailA, tailB := Digits(a.index) + "_" + Suffix(a), Digits(b.index) + "_" + Suffix(b);
    ActionName(a);
    ActionName(b);
    assert tailA == ("ACTION_" + tailA)[7..] == ("ACTION_" + tailB)[7..] == tailB;
    DigitsHaveNo(Digits(a.index), '_');
    DigitsHaveNo(Digits(b.index), '_');
    SplitAtSeparator(Digits(a.index), Suffix(a), Digits(b.index), Suffix(b), '_');
    ValueOfDigits(a.index);
    ValueOfDigits(b.index);
    assert |Suffix(a)| == |Suffix(b)| && Suffix(a)[0] == Suffix(b)[0];
  }

  /** No two states share a name. */
  lemma StateNamesAreDistinct(a: RunState, b: RunState)
    ensures StateName(a) == StateName(b) <==> a == b
  {
    if StateName(a) == StateName(b) {
      NameHead(a);
      NameHead(b);
      assert Head(a)[0] == Head(b)[0] && Head(a)[2] == Head(b)[2];
      if IsAction(a) {
        ActionNamesAreDistinct(a, b);
      } else if a.Condition? {
        assert Digits(a.index) == ("CONDITION_" + Digits(a.index))[10..];
        assert Digits(b.index) == ("CONDITION_" + Digits(b.index))[10..];
        ValueOfDigits(a.index);
        ValueOfDigits(b.index);
      }
    }
  }

  /** The resume_from field of a job: the index of the delay action. */
  function ResumeName(index: nat): string { "ACTION_" + Digits(index) }

  /** Sscanf(resumeFrom, "ACTION_%d"): the literal, an optional sign and a run of digits; the rest is ignored. */
  function ParseResume(s: string): (int, bool) {
    if !("ACTION_" <= s) then (0, false) else
    var rest := s[7..];
    var signed := rest != [] && rest[0] in "+-";
    var body := if signed then rest[1..] else rest;
    var n := DigitPrefix(body);
    if n == 0 then (0, false)
    else
      var value: int := ValueOf(body[..n]);
      (if signed && rest[0] == '-' then -value else value, true)
  }

  /** What is read: the prefix, perhaps a sign, and at least one digit; and the number is that of the longest run of
      digits, negated behind a minus. */
  lemma ParsesExactlyNumbers(s: string)
    ensures ParseResume(s).1 <==>
      "ACTION_" <= s && |s| > 7 && (IsDigit(s[7]) || (s[7] in "+-" && |s| > 8 && IsDigit(s[8])))
    ensures ParseResume(s).1 ==>
      var start := if IsDigit(s[7]) then 7 else 8;
      var value: int := ValueOf(s[start..][..DigitPrefix(s[start..])]);
      ParseResume(s).0 == if s[7] == '-' then -value else value
  {
    if "ACTION_" <= s && |s| > 7 {
      assert s[7..][0] == s[7] && (|s| > 8 ==> s[7..][1..] == s[8..] && s[8..][0] == s[8]);
    }
  }

  /** Parsing undoes printing, also when more text follows the number, as in a state name. */
  lemma ResumeRoundTrip(index: nat, rest: string)
    requires rest == [] || !IsDigit(rest[0])
    ensures ParseResume(ResumeName(index) + rest) == (index, true)
  {
    var s := ResumeName(index) + rest;
    assert s == "ACTION_" + (Digits(index) + rest);
    assert s[7..] == Digits(index) + rest;
    assert IsDigit(Digits(index)[0]) && s[7..][0] == Digits(index)[0];
    DigitPrefixOf(Digits(index), rest);
    assert s[7..][..|Digits(index)|] == Digits(index);
    ValueOfDigits(index);
  }
}
