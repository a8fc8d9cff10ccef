/** How the lock fails when two calls read the same millisecond: the FAILED that the loser writes on its way out
    replaces the record of the winner. From every state with a paused run and its message, and in a run from the
    start. */
module ProtocolWitness {
  import opened Domain
  import opened Options
  import opened RedisLists
  import opened Remote
  import opened Protocol
  import opened ProtocolLock
  import Runs = ProtocolRuns
  import Sched = SchedulerSteps
  import Timing

  /** A delay of at least 60 s, then an ordinary action. */
  const PLAN := Workflow(0, [LongDelay, Regular])
  const JOB: Id := "j"

  function Choose(stamp: int, seen: nat): Choice { Choice(stamp, Done, Passed, 0, seen, JOB, 0, 0) }

  function Go(call: nat, stamp: int): Label { Work(call, Choose(stamp, 0)) }

  // The versions of run 0 until it is paused.
  const V1 := NewRun(0, 1)
  const V2 := Apply(V1, SetActionStarted(0), 2)
  const V3 := Apply(V2, SetActionScheduled(0), 3)

  // ---------- the states ----------

  /** Call c stands at pc with the given record. */
  function At(s: State, c: nat, pc: Pc, run: Run): State
    requires c in s.calls
  {
    s.(calls := s.calls[c := s.calls[c].(run := run, pc := pc)])
  }

  /** The same after a setter stamped the record, and after its write was applied. */
  function Stamped(s: State, c: nat, pc: Pc, run: Run): State
    requires c in s.calls
  {
    At(s, c, pc, run).(used := s.used + {(run.runId, run.updatedAt)})
  }

  function Stored(s: State, c: nat, pc: Pc, run: Run): State
    requires c in s.calls
  {
    Stamped(s, c, pc, run).(hist := Store(s.hist, run))
  }

  function Delivered(s: State, m: nat): State
    requires m in s.queue
  {
    s.(calls := s.calls[s.nextCall := Call(m, s.queue[m], Begin, NewRun(0, 0))], nextCall := s.nextCall + 1)
  }

  // The first call pauses the run and pushes its job.
  const S1 := INITIAL.(queue := INITIAL.queue[0 := Start(PLAN)], nextMessage := 1)
  const S2 := Delivered(S1, 0)
  const S3 := Stamped(S2, 0, Conditions(0), V1).(hist := S2.hist[0 := [V1]], plans := S2.plans[0 := PLAN])
  const S4 := At(S3, 0, Actions(0), V1)
  const S5 := Stored(S4, 0, Logging(0), V2)
  const S6 := At(S5, 0, Acting(0), V2)
  const Q1 := Sched.INITIAL.(records := Sched.INITIAL.records + {JOB})
  const S7 := At(S6, 0, Pushing(0, JOB), V2).(sched := Q1, jobs := S6.jobs[JOB := Job(0, 0, 2)])
  const Q2 := Q1.(lists := RPush(Q1.lists, Sched.Bucket(1), JOB), pushed := Q1.pushed[JOB := 1])
  const S8 := At(S7, 0, Pausing(0, Some(JOB)), V2).(sched := Q2)
  const S9 := Stored(S8, 0, PauseLogging, V3).(author := S8.author[(0, 3) := JOB])

  // A sweep sends the job's message.
  const Q3 := Q2.(lists := Transfer(Q2.lists, Sched.Bucket(1), Sched.Temp(1)),
                  sweeps := Q2.sweeps[0 := Sched.Sweep(1, [JOB], Sched.Fetching)])
  const Q4 := Q3.(sweeps := Q3.sweeps[0 := Sched.Sweep(1, [JOB], Sched.Sending)])
  const Q5 := Q4.(sent := Q4.sent + {JOB}, sweeps := Q4.sweeps[0 := Sched.Sweep(1, [JOB], Sched.Removing)])

  // ---------- the steps ----------

  lemma Starts()
    ensures Possible(INITIAL, Submit(PLAN)) && Step(INITIAL, Submit(PLAN)) == S1
    ensures Possible(S1, Deliver(0)) && Step(S1, Deliver(0)) == S2
    ensures Possible(S2, Go(0, 1)) && Step(S2, Go(0, 1)) == S3
    ensures Possible(S3, Go(0, 0)) && Step(S3, Go(0, 0)) == S4
  {
  }

  lemma Begins()
    ensures Possible(S4, Go(0, 2)) && Step(S4, Go(0, 2)) == S5
    ensures Possible(S5, Go(0, 0)) && Step(S5, Go(0, 0)) == S6
  {
  }

  lemma Creates()
    ensures Possible(S6, Go(0, 0)) && Step(S6, Go(0, 0)) == S7
  {
  }

  lemma Pushes()
    ensures Possible(S7, Go(0, 0)) && Step(S7, Go(0, 0)) == S8
  {
    assert Timing.BucketMinute(0, 0) == 1;
  }

  lemma Pauses()
    ensures Possible(S8, Go(0, 3)) && Step(S8, Go(0, 3)) == S9
  {
  }

  const MOVE := Sched.Move(0, Sched.Main, 60_000, Done)
  const FETCH := Sched.Fetch(0, true, Done)
  const SEND := Sched.Send(0, Done)

  /** The stored record of the run, under its own id. */
  predicate Current(s: State, r: RunId, run: Run) {
    r in s.hist && s.hist[r] != [] && Last(s.hist[r]) == run && run.runId == r
  }

  /** What the rest of the run needs to know of S9. */
  ghost predicate Paused(s: State) {
    && Current(s, 0, V3) && Plan(s, 0) == PLAN && s.nextCall == 1 && s.nextMessage == 1
    && s.sched == Q2 && JOB in s.jobs && s.jobs[JOB] == Job(0, 0, 2)
  }

  lemma S9IsPaused()
    ensures Paused(S9)
  {
  }

  lemma SweepMoves()
    ensures Sched.Enabled(Q2, MOVE) && Sched.Step(Q2, MOVE) == Q3
  {
    assert Timing.MainMinute(60_000) == 1;
    assert Items(Q2.lists, Sched.Bucket(1)) == [JOB];
  }

  lemma SweepSends()
    ensures Sched.Enabled(Q3, FETCH) && Sched.Step(Q3, FETCH) == Q4
    ensures Sched.Enabled(Q4, SEND) && Sched.Step(Q4, SEND) == Q5
    ensures 0 in Q4.sweeps && Q4.sweeps[0].todo == [JOB]
  {
  }

  /** The message of the paused run has been sent. */
  ghost predicate Messaged(s: State) {
    && Current(s, 0, V3) && Plan(s, 0) == PLAN && s.nextCall == 1
    && 1 in s.queue && s.queue[1] == Resume(0, 0, JOB)
  }

  /** The three ticks, on whatever states of the scheduler they lead through. */
  lemma Ticks(s: State, q3: Sched.State, q4: Sched.State, q5: Sched.State) returns (s1: State, s2: State, s3: State)
    requires Current(s, 0, V3) && Plan(s, 0) == PLAN && s.nextCall == 1 && s.nextMessage == 1
    requires JOB in s.jobs && s.jobs[JOB] == Job(0, 0, 2)
    requires Sched.Enabled(s.sched, MOVE) && Sched.Step(s.sched, MOVE) == q3
    requires Sched.Enabled(q3, FETCH) && Sched.Step(q3, FETCH) == q4
    requires Sched.Enabled(q4, SEND) && Sched.Step(q4, SEND) == q5 && 0 in q4.sweeps && q4.sweeps[0].todo == [JOB]
    ensures Possible(s, Tick(MOVE)) && Step(s, Tick(MOVE)) == s1
    ensures Possible(s1, Tick(FETCH)) && Step(s1, Tick(FETCH)) == s2
    ensures Possible(s2, Tick(SEND)) && Step(s2, Tick(SEND)) == s3
    ensures Messaged(s3)
  {
    hide Sched.Step, Sched.Enabled, WorkStep;
    s1 := Step(s, Tick(MOVE));
    s2 := Step(s1, Tick(FETCH));
    s3 := Step(s2, Tick(SEND));
  }

  lemma Sweeps(s: State) returns (s1: State, s2: State, s3: State)
    requires Paused(s)
    ensures Possible(s, Tick(MOVE)) && Step(s, Tick(MOVE)) == s1
    ensures Possible(s1, Tick(FETCH)) && Step(s1, Tick(FETCH)) == s2
    ensures Possible(s2, Tick(SEND)) && Step(s2, Tick(SEND)) == s3
    ensures Messaged(s3)
  {
    hide Sched.Step, Sched.Enabled, Step, Possible;
    SweepMoves();
    SweepSends();
    s1, s2, s3 := Ticks(s, Q3, Q4, Q5);
  }

  // ---------- steps in any state ----------

  /** Positions whose write is nothing but a write. */
  predicate Plain(pc: Pc) { pc != Begin && !pc.Acting? && !pc.Pushing? && !pc.Pausing? && !pc.Return? }

  lemma AcceptedWrite(s: State, call: nat, c: Choice)
    requires call in s.calls && Plain(s.calls[call].pc) && Writing(s, call)
    requires Accepts(s.hist, s.calls[call].run) && c.outcome == Done
    ensures var x := s.calls[call];
      && Possible(s, Work(call, c))
      && Step(s, Work(call, c)) == Stored(s, call, AfterWrite(x, true), Apply(x.run, ChangeAt(x), c.stamp))
  {
    hide Sched.Enabled, Sched.Step;
  }

  lemma RejectedWrite(s: State, call: nat, c: Choice)
    requires call in s.calls && Plain(s.calls[call].pc) && Writing(s, call) && !Accepts(s.hist, s.calls[call].run)
    ensures var x := s.calls[call];
      && Possible(s, Work(call, c))
      && Step(s, Work(call, c)) == Stamped(s, call, AfterWrite(x, false), Apply(x.run, ChangeAt(x), c.stamp))
  {
    hide Sched.Enabled, Sched.Step;
  }

  lemma FreshRead(s: State, call: nat, c: Choice)
    requires call in s.calls && s.calls[call].pc == Begin && s.calls[call].body.Resume? && c.outcome == Done
    requires s.calls[call].body.run in s.hist && c.seen < |s.hist[s.calls[call].body.run]|
    ensures Possible(s, Work(call, c))
    ensures Step(s, Work(call, c)) == At(s, call, Loaded, s.hist[s.calls[call].body.run][c.seen])
  {
    hide Sched.Enabled, Sched.Step;
  }

  /** A delivered resume message: read the current record, and complete the delay over it. */
  lemma ReadAndResume(s: State, call: nat, run: Run, t: int) returns (s1: State, s2: State)
    requires call in s.calls && s.calls[call].pc == Begin && s.calls[call].body.Resume?
    requires Current(s, s.calls[call].body.run, run)
    ensures var x := s.calls[call];
      var l := Work(call, Choose(t, |s.hist[x.body.run]| - 1));
      var after := Apply(run, SetActionCompleted(x.body.index), t);
      && Possible(s, l) && Step(s, l) == s1 && Possible(s1, l) && Step(s1, l) == s2
      && s2.calls == s.calls[call := x.(run := after, pc := Actions(x.body.index + 1))]
      && s2.hist == Store(s.hist, after) && s2.plans == s.plans && Current(s2, x.body.run, after)
  {
    hide Step, Possible;
    var c := Choose(t, |s.hist[s.calls[call].body.run]| - 1);
    FreshRead(s, call, c);
    s1 := Step(s, Work(call, c));
    AcceptedWrite(s1, call, c);
    s2 := Step(s1, Work(call, c));
  }

  /** Two calls about to start the same action, one of them with a record that has been replaced: if their setters read
      the same millisecond, the one that is rejected can still replace the record of the other by FAILED. */
  lemma LoserReplacesWinner(s: State, loser: nat, winner: nat, k: nat, t: int, u: int)
      returns (s1: State, s2: State, s3: State)
    requires loser != winner && loser in s.calls && winner in s.calls
    requires s.calls[loser].pc == s.calls[winner].pc == Actions(k)
    requires var x, y := s.calls[loser].run, s.calls[winner].run;
      && x.runId == y.runId && x.updatedAt != y.updatedAt && Current(s, y.runId, y)
      && k < |Plan(s, y.runId).actions|
    ensures var x, y := s.calls[loser].run, s.calls[winner].run;
      var won, lost := Apply(y, SetActionStarted(k), t), Apply(Apply(x, SetActionStarted(k), t), Change.MarkFailed, u);
      && Possible(s, Go(loser, t)) && Step(s, Go(loser, t)) == s1 && s1.hist == s.hist
      && Possible(s1, Go(winner, t)) && Step(s1, Go(winner, t)) == s2 && Current(s2, y.runId, won)
      && Possible(s2, Go(loser, u)) && Step(s2, Go(loser, u)) == s3 && Current(s3, y.runId, lost)
      && Writing(s, loser) && !Accepts(s.hist, x)
      && winner in s1.calls && Writing(s1, winner) && Accepts(s1.hist, s1.calls[winner].run)
      && loser in s2.calls && Writing(s2, loser) && Accepts(s2.hist, s2.calls[loser].run)
        && s2.calls[loser].pc == Failing
  {
    hide Step, Possible, Apply;
    RejectedWrite(s, loser, Choose(t, 0));
    s1 := Step(s, Go(loser, t));
    AcceptedWrite(s1, winner, Choose(t, 0));
    s2 := Step(s1, Go(winner, t));
    StampOf(s.calls[loser].run, SetActionStarted(k), t);
    StampOf(s.calls[winner].run, SetActionStarted(k), t);
    AcceptedWrite(s2, loser, Choose(u, 0));
    s3 := Step(s2, Go(loser, u));
    StampOf(s2.calls[loser].run, Change.MarkFailed, u);
  }

  lemma StampOf(run: Run, change: Change, t: int)
    ensures Apply(run, change, t).runId == run.runId && Apply(run, change, t).updatedAt == t
  {
  }

  // ---------- a run ----------

  predicate StoredAs(s: State, r: RunId, state: RunState) {
    r in s.hist && s.hist[r] != [] && Last(s.hist[r]).state == state
  }

  lemma Extend(states: seq<State>, labels: seq<Label>, l: Label, t: State)
      returns (more: seq<State>, longer: seq<Label>)
    requires IsLooseRun(states, labels) && Possible(states[|labels|], l) && Step(states[|labels|], l) == t
    ensures IsLooseRun(more, longer) && more == states + [t] && longer == labels + [l]
  {
    hide Step, Possible;
    more, longer := states + [t], labels + [l];
    forall k | 0 <= k < |longer| ensures Possible(more[k], longer[k]) && more[k + 1] == Step(more[k], longer[k]) {
      if k < |labels| { assert more[k] == states[k] && more[k + 1] == states[k + 1] && longer[k] == labels[k]; }
    }
  }

  lemma RunToTheAction() returns (states: seq<State>, labels: seq<Label>)
    ensures IsLooseRun(states, labels) && |labels| == 6 && states[6] == S6
  {
    hide Step, Possible;
    states, labels := [INITIAL], [];
    Starts();
    states, labels := Extend(states, labels, Submit(PLAN), S1);
    states, labels := Extend(states, labels, Deliver(0), S2);
    states, labels := Extend(states, labels, Go(0, 1), S3);
    states, labels := Extend(states, labels, Go(0, 0), S4);
    Begins();
    states, labels := Extend(states, labels, Go(0, 2), S5);
    states, labels := Extend(states, labels, Go(0, 0), S6);
  }

  lemma RunToThePause() returns (states: seq<State>, labels: seq<Label>)
    ensures IsLooseRun(states, labels) && |labels| == 9 && Paused(states[9])
  {
    hide Step, Possible, Paused;
    states, labels := RunToTheAction();
    Creates();
    states, labels := Extend(states, labels, Go(0, 0), S7);
    Pushes();
    states, labels := Extend(states, labels, Go(0, 0), S8);
    Pauses();
    states, labels := Extend(states, labels, Go(0, 3), S9);
    S9IsPaused();
  }

  lemma RunToTheMessage() returns (states: seq<State>, labels: seq<Label>)
    ensures IsLooseRun(states, labels) && |labels| == 12 && Messaged(states[12])
  {
    hide Step, Possible, Paused, Messaged;
    states, labels := RunToThePause();
    var s10, s11, s12 := Sweeps(states[9]);
    states, labels := Extend(states, labels, Tick(MOVE), s10);
    states, labels := Extend(states, labels, Tick(FETCH), s11);
    states, labels := Extend(states, labels, Tick(SEND), s12);
  }

  lemma Redelivers(s: State) returns (s1: State, s2: State)
    requires s.nextCall == 1 && 1 in s.queue
    ensures Possible(s, Deliver(1)) && Step(s, Deliver(1)) == s1 && Possible(s1, Deliver(1))
      && Step(s1, Deliver(1)) == s2
    ensures s2.hist == s.hist && s2.plans == s.plans && 1 in s2.calls && 2 in s2.calls
    ensures forall c :: 1 <= c <= 2 ==> s2.calls[c] == Call(1, s.queue[1], Begin, NewRun(0, 0))
  {
    hide WorkStep, Sched.Step, Sched.Enabled;
    s1 := Step(s, Deliver(1));
    s2 := Step(s1, Deliver(1));
  }

  const FIRST := Apply(V3, SetActionCompleted(0), 4)
  const SECOND := Apply(FIRST, SetActionCompleted(0), 5)

  /** Both calls are about to start action 1; call 1 holds the record that call 2 has replaced. */
  ghost predicate Ready(s: State) {
    && 1 in s.calls && s.calls[1].pc == Actions(1) && s.calls[1].run == FIRST
    && 2 in s.calls && s.calls[2].pc == Actions(1) && s.calls[2].run == SECOND
    && Current(s, 0, SECOND) && Plan(s, 0) == PLAN
  }

  /** Both calls have been handed the message of the paused run. */
  ghost predicate Handed(s: State) {
    && 1 in s.calls && 2 in s.calls && Current(s, 0, V3) && Plan(s, 0) == PLAN
    && s.calls[1] == s.calls[2] == Call(1, Resume(0, 0, JOB), Begin, NewRun(0, 0))
  }

  lemma BothResume(s: State) returns (s1: State, s2: State, s3: State, s4: State, k: nat, l: nat)
    requires Handed(s)
    ensures Possible(s, Work(1, Choose(4, k))) && Step(s, Work(1, Choose(4, k))) == s1
    ensures Possible(s1, Work(1, Choose(4, k))) && Step(s1, Work(1, Choose(4, k))) == s2
    ensures Possible(s2, Work(2, Choose(5, l))) && Step(s2, Work(2, Choose(5, l))) == s3
    ensures Possible(s3, Work(2, Choose(5, l))) && Step(s3, Work(2, Choose(5, l))) == s4
    ensures Ready(s4)
  {
    hide Step, Possible, Apply, Writing, Accepts;
    k := |s.hist[0]| - 1;
    s1, s2 := ReadAndResume(s, 1, V3, 4);
    l := |s2.hist[0]| - 1;
    s3, s4 := ReadAndResume(s2, 2, FIRST, 5);
  }

  lemma RunToTheDeliveries() returns (states: seq<State>, labels: seq<Label>)
    ensures IsLooseRun(states, labels) && |labels| == 14 && Handed(states[14])
  {
    hide Step, Possible, Apply, Writing, Accepts;
    states, labels := RunToTheMessage();
    var s13, s14 := Redelivers(states[12]);
    states, labels := Extend(states, labels, Deliver(1), s13);
    states, labels := Extend(states, labels, Deliver(1), s14);
  }

  lemma RunToTheDuel() returns (states: seq<State>, labels: seq<Label>)
    ensures IsLooseRun(states, labels) && |labels| == 18 && Ready(states[18])
  {
    hide Step, Possible, Apply, Handed, Ready;
    states, labels := RunToTheDeliveries();
    var s15, s16, s17, s18, k, l := BothResume(states[14]);
    states, labels := Extend(states, labels, Work(1, Choose(4, k)), s15);
    states, labels := Extend(states, labels, Work(1, Choose(4, k)), s16);
    states, labels := Extend(states, labels, Work(2, Choose(5, l)), s17);
    states, labels := Extend(states, labels, Work(2, Choose(5, l)), s18);
  }

  lemma RecordsOfTheDuel()
    ensures FIRST.runId == SECOND.runId == 0 && FIRST.updatedAt == 4 && SECOND.updatedAt == 5
    ensures Apply(SECOND, SetActionStarted(1), 6).state == ActionStarted(1)
    ensures Apply(Apply(FIRST, SetActionStarted(1), 6), Change.MarkFailed, 7).state == Failed
  {
  }

  /** From the start of the system: call 1 is rejected, call 2 stores ACTION_1_STARTED, and then FAILED of call 1's
      handleActionFailure replaces it, both setters having read millisecond 6. */
  lemma FailedReplacesTheWinner() returns (states: seq<State>, labels: seq<Label>)
    ensures IsLooseRun(states, labels) && |labels| == 21
    ensures Runs.WritesAt(states, labels, 18, 1) && RejectedAt(states, labels, 18, 1)
    ensures Runs.WritesAt(states, labels, 19, 2) && !RejectedAt(states, labels, 19, 2)
    ensures Runs.WritesAt(states, labels, 20, 1) && !RejectedAt(states, labels, 20, 1)
      && states[20].calls[1].pc == Failing
    ensures labels[18].choice.stamp == labels[19].choice.stamp == 6
    ensures StoredAs(states[20], 0, ActionStarted(1)) && StoredAs(states[21], 0, Failed)
  {
    hide Step, Possible, Apply, Writing, Accepts, FIRST, SECOND;
    states, labels := RunToTheDuel();
    RecordsOfTheDuel();
    var s19, s20, s21 := LoserReplacesWinner(states[18], 1, 2, 1, 6, 7);
    states, labels := Extend(states, labels, Go(1, 6), s19);
    states, labels := Extend(states, labels, Go(2, 6), s20);
    states, labels := Extend(states, labels, Go(1, 7), s21);
  }
}
