/** The minute-bucket scheduler as a step system. Every call to Redis, DynamoDB or SQS is one step, any of
    them may fail or take effect and still report failure, sweeps overlap freely and a sweep may die. */
module SchedulerSteps {
  import opened RedisLists
  import opened Remote
  import opened Timing

  /** The Redis keys of one node. Keys.dfy shows that the textual keys are as distinct as these. */
  datatype Key = Bucket(minute: int) | Temp(minute: int)

  datatype Tick = Main | Late

  /** processJob for the head of `todo`: read the record, send it, remove it from TEMP.
      The status writes between these calls touch no list and their errors are ignored. */
  datatype SweepPc = Fetching | Sending | Removing

  datatype Sweep = Sweep(temp: int, todo: seq<Id>, pc: SweepPc)

  datatype State = State(
    lists: Lists<Key>,
    sweeps: map<nat, Sweep>,
    records: set<Id>,         // job records created so far
    pushed: map<Id, int>,     // the ids pushed so far and their bucket minutes
    sent: set<Id>,            // the ids handed to the queue at least once
    dropped: set<Id>)         // the ids whose record could not be read

  datatype Label =
    | Create(id: Id)
    | Push(id: Id, executeAt: int, now: int, outcome: Outcome)
    | Move(sweep: nat, tick: Tick, clock: int, outcome: Outcome)
    | Cleanup(sweep: nat, clock: int)
    | Fetch(sweep: nat, found: bool, removal: Outcome)
    | Send(sweep: nat, outcome: Outcome)
    | Remove(sweep: nat, outcome: Outcome)
    | Die(sweep: nat)

  const INITIAL := State(map[], map[], {}, map[], {}, {})

  function SweptMinute(tick: Tick, clock: int): int {
    match tick
    case Main => MainMinute(clock)
    case Late => LateMinute(clock)
  }

  /** Whether the call that `l` stands for can be made in `s`. */
  predicate Enabled(s: State, l: Label) {
    match l
    case Create(id) => id !in s.records
    case Push(id, _, _, _) => id in s.records && id !in s.pushed
    case Move(w, _, _, _) => w !in s.sweeps
    case Cleanup(w, _) => w !in s.sweeps
    case Fetch(w, _, _) => w in s.sweeps && s.sweeps[w].todo != [] && s.sweeps[w].pc == Fetching
    case Send(w, _) => w in s.sweeps && s.sweeps[w].todo != [] && s.sweeps[w].pc == Sending
    case Remove(w, _) => w in s.sweeps && s.sweeps[w].todo != [] && s.sweeps[w].pc == Removing
    case Die(w) => w in s.sweeps
  }

  function LRemIf(s: State, w: Sweep, outcome: Outcome): Lists<Key>
    requires w.todo != []
  {
    if outcome == Refused then s.lists else LRem(s.lists, Temp(w.temp), w.todo[0])
  }

  function Next(w: Sweep): Sweep
    requires w.todo != []
  {
    Sweep(w.temp, w.todo[1..], Fetching)
  }

  function Step(s: State, l: Label): State
    requires Enabled(s, l)
  {
    match l
    case Create(id) => s.(records := s.records + {id})
    case Push(id, executeAt, now, outcome) =>
      if outcome == Refused then s else
      var minute := BucketMinute(executeAt, now);
      s.(lists := RPush(s.lists, Bucket(minute), id), pushed := s.pushed[id := minute])
    case Move(w, tick, clock, outcome) =>
      var minute := SweptMinute(tick, clock);
      if outcome == Refused then s else
      s.(lists := Transfer(s.lists, Bucket(minute), Temp(minute)),
         sweeps := s.sweeps[w := Sweep(minute, if outcome == Done
           then Items(s.lists, Bucket(minute)) else [], Fetching)])
    case Cleanup(w, clock) =>
      var minute := CleanupMinute(clock);
      s.(sweeps := s.sweeps[w := Sweep(minute, Items(s.lists, Temp(minute)), Fetching)])
    case Fetch(w, found, removal) =>
      var sweep := s.sweeps[w];
      if found then s.(sweeps := s.sweeps[w := sweep.(pc := Sending)])
      else s.(lists := LRemIf(s, sweep, removal), sweeps := s.sweeps[w := Next(sweep)],
              dropped := s.dropped + {sweep.todo[0]})
    case Send(w, outcome) =>
      var sweep := s.sweeps[w];
      s.(sent := if outcome == Refused then s.sent else s.sent + {sweep.todo[0]},
         sweeps := s.sweeps[w := if outcome == Done then sweep.(pc := Removing) else Next(sweep)])
    case Remove(w, outcome) =>
      var sweep := s.sweeps[w];
      s.(lists := LRemIf(s, sweep, outcome), sweeps := s.sweeps[w := Next(sweep)])
    case Die(w) => s.(sweeps := s.sweeps - {w})
  }

  // ---------- conservation ----------

  ghost predicate Waiting(s: State, id: Id)
    requires id in s.pushed
  {
    id in Items(s.lists, Bucket(s.pushed[id])) || id in Items(s.lists, Temp(s.pushed[id]))
  }

  ghost predicate Conserved(s: State) {
    forall id :: id in s.pushed ==> Waiting(s, id) || id in s.sent || id in s.dropped
  }

  /** A sweep that is about to remove an id has already sent it. */
  ghost predicate RemovesOnlySent(s: State) {
    forall w :: w in s.sweeps && s.sweeps[w].pc == Removing && s.sweeps[w].todo != [] ==> s.sweeps[w].todo[0] in s.sent
  }

  ghost predicate Inv(s: State) {
    Conserved(s) && RemovesOnlySent(s)
  }

  lemma TransferKeepsIds(lists: Lists<Key>, minute: int, k: Key, id: Id)
    ensures k.minute != minute ==> Items(Transfer(lists, Bucket(minute), Temp(minute)), k) == Items(lists, k)
    ensures id in Items(lists, Bucket(minute)) || id in Items(lists, Temp(minute))
            <==> id in Items(Transfer(lists, Bucket(minute), Temp(minute)), Temp(minute))
    ensures Items(Transfer(lists, Bucket(minute), Temp(minute)), Bucket(minute)) == []
  {
    TransferMoves(lists, Bucket(minute), Temp(minute), if k.minute != minute then k else Bucket(minute + 1));
  }

  /** LREM leaves every other id waiting. */
  lemma LRemKeepsWaiting(s: State, key: Key, id: Id, other: Id)
    requires other != id && other in s.pushed && Waiting(s, other)
    ensures Waiting(s.(lists := LRem(s.lists, key, id)), other)
  {
    if other in Items(s.lists, key) { RemoveFirstKeeps(Items(s.lists, key), id, other); }
  }

  lemma StepKeepsInv(s: State, l: Label)
    requires Inv(s) && Enabled(s, l)
    ensures Inv(Step(s, l))
  {
    match l
    case Move(w, tick, clock, outcome) => MoveKeepsInv(s, w, tick, clock, outcome);
    case Fetch(w, found, removal) =>
      if !found { RemovalKeepsInv(s, w, removal, Step(s, l)); }
    case Remove(w, outcome) => RemovalKeepsInv(s, w, outcome, Step(s, l));
    case _ =>
  }

  lemma MoveKeepsInv(s: State, w: nat, tick: Tick, clock: int, outcome: Outcome)
    requires Inv(s) && w !in s.sweeps
    ensures Inv(Step(s, Move(w, tick, clock, outcome)))
  {
    if outcome != Refused {
      var minute := SweptMinute(tick, clock);
      var t := Step(s, Move(w, tick, clock, outcome));
      forall id | id in s.pushed && Waiting(s, id) ensures Waiting(t, id) {
        TransferKeepsIds(s.lists, minute, Bucket(s.pushed[id]), id);
        TransferKeepsIds(s.lists, minute, Temp(s.pushed[id]), id);
      }
    }
  }

  /** Taking the head of a sweep out of TEMP is harmless once that id was sent or dropped. */
  lemma RemovalKeepsInv(s: State, w: nat, outcome: Outcome, t: State)
    requires Inv(s) && w in s.sweeps && s.sweeps[w].todo != []
    requires t.lists == LRemIf(s, s.sweeps[w], outcome) && t.sweeps == s.sweeps[w := Next(s.sweeps[w])]
    requires t.pushed == s.pushed && t.sent == s.sent && s.dropped <= t.dropped
    requires s.sweeps[w].todo[0] in s.sent || s.sweeps[w].todo[0] in t.dropped
    ensures Inv(t)
  {
    var id := s.sweeps[w].todo[0];
    forall other | other in s.pushed && other != id && Waiting(s, other) ensures Waiting(t, other) {
      LRemKeepsWaiting(s, Temp(s.sweeps[w].temp), id, other);
    }
  }

  // ---------- only pushed ids move ----------

  /** Ids in lists and in sweeps were pushed, and they stay within the lists of their own minute. */
  ghost predicate Accounted(s: State) {
    ListsAccounted(s.lists, s.pushed) && SweepsAccounted(s.sweeps, s.pushed) && s.sent <= s.pushed.Keys <= s.records
  }

  ghost predicate ListsAccounted(lists: Lists<Key>, pushed: map<Id, int>) {
    forall k, id :: id in Items(lists, k) ==> id in pushed && pushed[id] == k.minute
  }

  ghost predicate SweepsAccounted(sweeps: map<nat, Sweep>, pushed: map<Id, int>) {
    forall w :: w in sweeps ==> OwnMinute(pushed, sweeps[w])
  }

  ghost predicate OwnMinute(pushed: map<Id, int>, sweep: Sweep) {
    forall id :: id in sweep.todo ==> id in pushed && pushed[id] == sweep.temp
  }

  lemma StepKeepsAccounted(s: State, l: Label)
    requires Accounted(s) && Enabled(s, l)
    ensures Accounted(Step(s, l))
  {
    match l
    case Push(_, _, _, _) => PushKeepsAccounted(s, l);
    case Move(_, _, _, _) => MoveKeepsAccounted(s, l);
    case Fetch(w, found, _) =>
      assert OwnMinute(s.pushed, s.sweeps[w]);
      if !found { LRemAccounted(s, Temp(s.sweeps[w].temp), s.sweeps[w].todo[0]); }
    case Send(w, _) => assert OwnMinute(s.pushed, s.sweeps[w]);
    case Remove(w, _) =>
      assert OwnMinute(s.pushed, s.sweeps[w]);
      LRemAccounted(s, Temp(s.sweeps[w].temp), s.sweeps[w].todo[0]);
    case _ =>
  }

  lemma PushKeepsAccounted(s: State, l: Label)
    requires Accounted(s) && l.Push? && Enabled(s, l)
    ensures Accounted(Step(s, l))
  {
    var t := Step(s, l);
    var key := Bucket(BucketMinute(l.executeAt, l.now));
    forall k, id | id in Items(t.lists, k) ensures id in t.pushed && t.pushed[id] == k.minute {
      assert id in Items(s.lists, k) || (l.outcome != Refused && k == key && id == l.id);
    }
    forall w | w in t.sweeps ensures OwnMinute(t.pushed, t.sweeps[w]) { assert OwnMinute(s.pushed, s.sweeps[w]); }
  }

  lemma MoveKeepsAccounted(s: State, l: Label)
    requires Accounted(s) && l.Move? && Enabled(s, l)
    ensures Accounted(Step(s, l))
  {
    if l.outcome != Refused {
      var t := Step(s, l);
      forall k, id | id in Items(t.lists, k) ensures id in s.pushed && s.pushed[id] == k.minute {
        TransferKeepsIds(s.lists, SweptMinute(l.tick, l.clock), k, id);
      }
      forall w | w in t.sweeps ensures OwnMinute(t.pushed, t.sweeps[w]) {
        assert w in s.sweeps ==> OwnMinute(s.pushed, s.sweeps[w]);
      }
    }
  }

  lemma LRemAccounted(s: State, key: Key, id: Id)
    ensures forall k, x :: x in Items(LRem(s.lists, key, id), k) ==> x in Items(s.lists, k)
  {
    RemoveFirstTakesOne(Items(s.lists, key), id);
    forall x | x in RemoveFirst(Items(s.lists, key), id) ensures x in Items(s.lists, key) {
      assert x in multiset(RemoveFirst(Items(s.lists, key), id));
    }
  }

  // ---------- whole runs ----------

  ghost predicate IsRun(states: seq<State>, labels: seq<Label>) {
    && |states| == |labels| + 1
    && states[0] == INITIAL
    && forall k :: 0 <= k < |labels| ==> Enabled(states[k], labels[k]) && states[k + 1] == Step(states[k], labels[k])
  }

  lemma {:induction false} RunInv(states: seq<State>, labels: seq<Label>, n: nat)
    requires IsRun(states, labels) && n < |states|
    ensures Inv(states[n])
  {
    if n > 0 {
      RunInv(states, labels, n - 1);
      StepKeepsInv(states[n - 1], labels[n - 1]);
    }
  }

  /** Job conservation over every run: an id that was pushed is in the bucket or the TEMP list of its own
      minute, or it was sent, or the read of its record failed. */
  lemma JobsAreConserved(states: seq<State>, labels: seq<Label>, n: nat, id: Id)
    requires IsRun(states, labels) && n < |states| && id in states[n].pushed
    ensures Waiting(states[n], id) || id in states[n].sent || id in states[n].dropped
  {
    RunInv(states, labels, n);
  }

  lemma StepDropsNothing(s: State, l: Label)
    requires Enabled(s, l) && (l.Fetch? ==> l.found)
    ensures Step(s, l).dropped == s.dropped
  {
  }

  /** Only a failed record read drops an id. */
  lemma {:induction false} OnlyFailedReadsDrop(states: seq<State>, labels: seq<Label>, n: nat)
    requires IsRun(states, labels) && n < |states|
    requires forall k :: 0 <= k < n && labels[k].Fetch? ==> labels[k].found
    ensures states[n].dropped == {}
  {
    if n > 0 {
      OnlyFailedReadsDrop(states, labels, n - 1);
      StepDropsNothing(states[n - 1], labels[n - 1]);
    }
  }

  /** For an unsent id that waits only in the TEMP list its sweep is working on, the step that reads the record keeps
      the id waiting exactly when the read succeeds or the removal after the failed read is refused. */
  lemma FailedReadLosesJob(s: State, w: nat, found: bool, removal: Outcome)
    requires Enabled(s, Fetch(w, found, removal))
    requires var id := s.sweeps[w].todo[0];
      && id in s.pushed && s.pushed[id] == s.sweeps[w].temp && id !in s.sent
      && id !in Items(s.lists, Bucket(s.pushed[id])) && multiset(Items(s.lists, Temp(s.pushed[id])))[id] == 1
    ensures var id, t := s.sweeps[w].todo[0], Step(s, Fetch(w, found, removal));
      id in t.pushed && id !in t.sent && (Waiting(t, id) <==> found || removal == Refused)
  {
    var id := s.sweeps[w].todo[0];
    var temp := Items(s.lists, Temp(s.pushed[id]));
    assert id in multiset(temp);
    RemoveFirstTakesOne(temp, id);
    assert id !in multiset(RemoveFirst(temp, id));
  }

  /** Every pushed id still waits or was sent. */
  ghost predicate NothingLost(s: State) {
    forall id :: id in s.pushed ==> Waiting(s, id) || id in s.sent
  }

  /** One job, taken from its bucket by one sweep, its record not yet read. */
  function OneSwept(id: Id, minute: int): State {
    State(map[Temp(minute) := [id]], map[0 := Sweep(minute, [id], Fetching)], {id}, map[id := minute], {}, {})
  }

  lemma SweptOnce(id: Id, executeAt: int, now: int) returns (states: seq<State>, labels: seq<Label>)
    ensures IsRun(states, labels) && |labels| == 3 && states[3] == OneSwept(id, BucketMinute(executeAt, now))
  {
    hide FloorMinute, ChosenTime;
    var minute := BucketMinute(executeAt, now);
    labels := [Create(id), Push(id, executeAt, now, Done), Move(0, Main, minute * MINUTE, Done)];
    var a := INITIAL.(records := {id});
    var b := a.(lists := map[Bucket(minute) := [id]], pushed := map[id := minute]);
    assert MainMinute(minute * MINUTE) == minute by { SweepMinutes(minute * MINUTE, minute); }
    assert Items(a.lists, Bucket(minute)) + [id] == [id];
    assert Step(a, labels[1]).lists == b.lists;
    var c := OneSwept(id, minute);
    assert Step(b, labels[2]).lists == c.lists;
    states := [INITIAL, a, b, c];
  }

  /** It happens: a job is created, pushed and swept in its minute, the read of its record fails once, and the job is
      gone without having been sent. */
  lemma ReadFailureRun(id: Id, executeAt: int, now: int) returns (states: seq<State>, labels: seq<Label>)
    ensures IsRun(states, labels) && id in states[|labels|].pushed && !NothingLost(states[|labels|])
  {
    hide FloorMinute, ChosenTime;
    states, labels := SweptOnce(id, executeAt, now);
    var c := states[3];
    var d := Step(c, Fetch(0, false, Done));
    FailedReadLosesJob(c, 0, false, Done);
    states, labels := states + [d], labels + [Fetch(0, false, Done)];
    assert id in d.pushed && !Waiting(d, id) && id !in d.sent;
  }
}
