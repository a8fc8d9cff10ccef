/** What becomes of every pushed id in timed runs, sweeps refused or never made included: which move took it out of its
    bucket, which of at most three attempts sent it, and from when on nothing changes any more. */
module SweepFates {
  import opened RedisLists
  import opened Remote
  import opened Timing
  import opened SchedulerSteps
  import opened SweepTimeline

  const CLEANUP_OFFSET := 30 * SECOND

  /** The cleanup fires at second 30, once a minute, and reads its list in the minute it fired. */
  ghost predicate CleanupsOnTime(labels: seq<Label>, times: seq<int>) {
    && |times| == |labels|
    && (forall k :: 0 <= k < |labels| && labels[k].Cleanup? ==> CleanupOnTime(labels[k], times[k]))
    && (forall i, j :: 0 <= i < j < |labels| && labels[i].Cleanup? && labels[j].Cleanup? ==>
         FloorMinute(labels[i].clock) != FloorMinute(labels[j].clock))
  }

  predicate CleanupOnTime(l: Label, time: int)
    requires l.Cleanup?
  {
    && l.clock <= time && FloorMinute(l.clock) == FloorMinute(time)
    && l.clock >= FloorMinute(l.clock) * MINUTE + CLEANUP_OFFSET
  }

  // ---------- out of the bucket ----------

  /** Step k transfers the bucket of this minute. */
  predicate MovesAt(labels: seq<Label>, k: nat, minute: int) {
    k < |labels| && labels[k].Move? && labels[k].outcome != Refused
      && SweptMinute(labels[k].tick, labels[k].clock) == minute
  }

  lemma MoveEmpties(s: State, l: Label, id: Id, minute: int)
    requires Enabled(s, l) && MovesAt([l], 0, minute)
    ensures id !in Items(Step(s, l).lists, Bucket(minute))
  {
    TransferKeepsIds(s.lists, minute, Bucket(minute), id);
  }

  lemma NotMovedStays(s: State, l: Label, id: Id, minute: int)
    requires Enabled(s, l) && id in Items(s.lists, Bucket(minute)) && !MovesAt([l], 0, minute)
    ensures id in Items(Step(s, l).lists, Bucket(minute))
  {
    if l.Move? && l.outcome != Refused { TransferKeepsIds(s.lists, SweptMinute(l.tick, l.clock), Bucket(minute), id); }
  }

  lemma PushedIsThere(s: State, l: Label, id: Id, minute: int)
    requires Enabled(s, l) && PushesAt([l], 0, id, minute)
    ensures id in Items(Step(s, l).lists, Bucket(minute))
  {
  }

  /** In every run an id is out of its bucket exactly if a transfer of its minute took effect after its push. */
  lemma {:induction false} OutIffMoved(states: seq<State>, labels: seq<Label>, p: nat, n: nat, id: Id, minute: int)
    requires IsRun(states, labels) && PushesAt(labels, p, id, minute) && p < n < |states|
    ensures id !in Items(states[n].lists, Bucket(minute)) <==> exists k :: p < k < n && MovesAt(labels, k, minute)
    decreases n
  {
    hide PushesAt, MovesAt;
    var s, l := states[n - 1], labels[n - 1];
    OneStepAlone(labels, n - 1, minute, id);
    if n == p + 1 {
      PushedIsThere(s, l, id, minute);
    } else {
      OutIffMoved(states, labels, p, n - 1, id, minute);
      if MovesAt(labels, n - 1, minute) { MoveEmpties(s, l, id, minute); }
      else if id in Items(s.lists, Bucket(minute)) { NotMovedStays(s, l, id, minute); }
      else { PushedStaysPushed(states, labels, p, n - 1, id, minute); StepKeepsOut(s, l, id, minute); }
    }
  }

  lemma OneStepAlone(labels: seq<Label>, k: nat, minute: int, id: Id)
    requires k < |labels|
    ensures MovesAt([labels[k]], 0, minute) <==> MovesAt(labels, k, minute)
    ensures PushesAt([labels[k]], 0, id, minute) <==> PushesAt(labels, k, id, minute)
  {
  }

  /** The late tick of the minute, its transfer done or refused. */
  predicate LateTickAt(labels: seq<Label>, q: nat, minute: int) {
    q < |labels| && labels[q].Move? && labels[q].tick == Late && FloorMinute(labels[q].clock) == minute + 1
  }

  lemma NoMoveAfterLateTick(states: seq<State>, labels: seq<Label>, times: seq<int>, q: nat, k: nat, minute: int)
    requires IsTimedRun(states, labels, times) && LateTickAt(labels, q, minute) && q < k
    ensures !MovesAt(labels, k, minute)
  {
    hide IsRun;
    if k < |labels| {
      assert times[q] <= times[k] && OnTime(labels[q], times[q]) && OnTime(labels[k], times[k]);
    }
  }

  /** Once the late tick of a minute has gone by, done or refused, an id of that minute is out of its bucket if and only
      if a transfer of the minute, at the latest that of the tick itself, took effect after its push; and so it stays. */
  lemma OutIffMovedInTime(states: seq<State>, labels: seq<Label>, times: seq<int>, p: nat, q: nat, n: nat, id: Id,
      minute: int)
    requires IsTimedRun(states, labels, times) && PushesAt(labels, p, id, minute) && LateTickAt(labels, q, minute)
    requires p < n && q < n < |states|
    ensures id !in Items(states[n].lists, Bucket(minute)) <==> exists k :: p < k <= q && MovesAt(labels, k, minute)
  {
    hide PushesAt, MovesAt, LateTickAt, OnTime, OncePerMinute, IsRun;
    OutIffMoved(states, labels, p, n, id, minute);
    forall k | q < k < n ensures !MovesAt(labels, k, minute) {
      NoMoveAfterLateTick(states, labels, times, q, k, minute);
    }
  }

  // ---------- three attempts ----------

  datatype Attempt = MainAttempt | LateAttempt | CleanupAttempt

  /** Step k starts a sweep that works on the ids of this minute. */
  predicate StartsAt(labels: seq<Label>, k: nat, minute: int) {
    k < |labels| && match labels[k]
      case Move(_, tick, clock, outcome) => outcome != Refused && SweptMinute(tick, clock) == minute
      case Cleanup(_, clock) => CleanupMinute(clock) == minute
      case _ => false
  }

  function AttemptAt(l: Label): Attempt {
    if l.Move? then (if l.tick == Main then MainAttempt else LateAttempt) else CleanupAttempt
  }

  /** Each kind of attempt is made at most once for a minute: there are at most three. */
  lemma AtMostThreeAttempts(states: seq<State>, labels: seq<Label>, times: seq<int>, j: nat, k: nat, minute: int)
    requires IsTimedRun(states, labels, times) && CleanupsOnTime(labels, times)
    requires StartsAt(labels, j, minute) && StartsAt(labels, k, minute) && AttemptAt(labels[j]) == AttemptAt(labels[k])
    ensures j == k
  {
    hide IsRun, OnTime;
    assert labels[j].Move? ==> labels[j].tick == labels[k].tick;
    SameClockMinute(labels[j], labels[k]);
  }

  lemma SameClockMinute(a: Label, b: Label)
    requires (a.Move? && b.Move? && a.tick == b.tick && SweptMinute(a.tick, a.clock) == SweptMinute(b.tick, b.clock))
             || (a.Cleanup? && b.Cleanup? && CleanupMinute(a.clock) == CleanupMinute(b.clock))
    ensures FloorMinute(a.clock) == FloorMinute(b.clock)
  {
  }

  /** The sweep was started by a step before n, for the minute it works on. */
  ghost predicate Started(labels: seq<Label>, n: nat, w: nat, minute: int) {
    exists k :: 0 <= k < n && StartsAt(labels, k, minute) && SweepOf(labels[k]) == w
  }

  function SweepOf(l: Label): int { if l.Move? || l.Cleanup? then l.sweep else -1 }

  lemma StepSweeps(s: State, l: Label, w: nat)
    requires Enabled(s, l) && w in Step(s, l).sweeps
    ensures (w in s.sweeps && Step(s, l).sweeps[w].temp == s.sweeps[w].temp)
            || (StartsAt([l], 0, Step(s, l).sweeps[w].temp) && SweepOf(l) == w)
  {
  }

  lemma {:induction false} SweepsAreStarted(states: seq<State>, labels: seq<Label>, n: nat, w: nat)
    requires IsRun(states, labels) && n < |states| && w in states[n].sweeps
    ensures Started(labels, n, w, states[n].sweeps[w].temp)
  {
    hide Step, Enabled, StartsAt, SweepOf;
    NoSweepsYet(w);
    if n > 0 {
      StepSweeps(states[n - 1], labels[n - 1], w);
      StartAlone(labels, n - 1, states[n].sweeps[w].temp);
      if w in states[n - 1].sweeps && states[n].sweeps[w].temp == states[n - 1].sweeps[w].temp {
        SweepsAreStarted(states, labels, n - 1, w);
      }
    }
  }

  lemma StartAlone(labels: seq<Label>, k: nat, minute: int)
    requires k < |labels|
    ensures StartsAt([labels[k]], 0, minute) <==> StartsAt(labels, k, minute)
  {
  }

  lemma NoSweepsYet(w: nat)
    ensures w !in INITIAL.sweeps
  {
  }

  /** Step k hands the id to the queue. */
  predicate SendsAt(states: seq<State>, labels: seq<Label>, k: nat, id: Id) {
    && k < |labels| && k < |states| && labels[k].Send? && labels[k].outcome != Refused
    && labels[k].sweep in states[k].sweeps && states[k].sweeps[labels[k].sweep].todo != []
    && states[k].sweeps[labels[k].sweep].todo[0] == id
  }

  lemma StepSends(s: State, t: State, l: Label, id: Id)
    requires Enabled(s, l) && t == Step(s, l)
    ensures id in t.sent <==> id in s.sent || SendsAt([s, t], [l], 0, id)
  {
  }

  lemma {:induction false} SentIffSends(states: seq<State>, labels: seq<Label>, n: nat, id: Id)
    requires IsRun(states, labels) && n < |states|
    ensures id in states[n].sent <==> exists k :: 0 <= k < n && SendsAt(states, labels, k, id)
  {
    hide Step, Enabled, SendsAt;
    if n > 0 {
      SentIffSends(states, labels, n - 1, id);
      StepSends(states[n - 1], states[n], labels[n - 1], id);
      SendAlone(states, labels, n - 1, id);
    } else {
      NothingSent(states[0], id);
    }
  }

  lemma SendAlone(states: seq<State>, labels: seq<Label>, k: nat, id: Id)
    requires k < |labels| && k + 1 < |states|
    ensures SendsAt([states[k], states[k + 1]], [labels[k]], 0, id) <==> SendsAt(states, labels, k, id)
  {
  }

  lemma NothingSent(s: State, id: Id)
    requires s == INITIAL
    ensures id !in s.sent
  {
  }

  /** Step k hands the id to the queue in an attempt that step j started for the id's minute. */
  predicate AttemptSends(states: seq<State>, labels: seq<Label>, j: nat, k: nat, id: Id, minute: int) {
    j < k && SendsAt(states, labels, k, id) && StartsAt(labels, j, minute) && SweepOf(labels[j]) == labels[k].sweep
  }

  /** An id is ever sent if and only if one of the attempts at its minute, at most three by AtMostThreeAttempts, sends
      it. */
  lemma SentIffAttempted(states: seq<State>, labels: seq<Label>, p: nat, n: nat, id: Id, minute: int)
    requires IsRun(states, labels) && PushesAt(labels, p, id, minute) && p < n < |states|
    ensures id in states[n].sent <==> exists j: nat, k: nat :: k < n && AttemptSends(states, labels, j, k, id, minute)
  {
    hide IsRun, PushesAt, SendsAt, StartsAt, SweepOf;
    SentIffSends(states, labels, n, id);
    forall k | 0 <= k < n && SendsAt(states, labels, k, id)
      ensures exists j: nat :: AttemptSends(states, labels, j, k, id, minute) {
      SendIsAttempt(states, labels, p, n, k, id, minute);
    }
  }

  lemma SendIsAttempt(states: seq<State>, labels: seq<Label>, p: nat, n: nat, k: nat, id: Id, minute: int)
    requires IsRun(states, labels) && PushesAt(labels, p, id, minute) && p < n < |states| && k < n
    requires SendsAt(states, labels, k, id)
    ensures exists j: nat :: AttemptSends(states, labels, j, k, id, minute)
  {
    hide IsRun, PushesAt, StartsAt, SweepOf;
    var w := labels[k].sweep;
    SweepsAreStarted(states, labels, k, w);
    OwnMinuteAt(states, labels, p, n, k, id, minute);
    var j :| 0 <= j < k && StartsAt(labels, j, states[k].sweeps[w].temp) && SweepOf(labels[j]) == w;
    assert AttemptSends(states, labels, j, k, id, minute);
  }

  /** A sweep that has the id at its head works on the id's minute. */
  lemma OwnMinuteAt(states: seq<State>, labels: seq<Label>, p: nat, n: nat, k: nat, id: Id, minute: int)
    requires IsRun(states, labels) && PushesAt(labels, p, id, minute) && p < n < |states| && k < n
    requires SendsAt(states, labels, k, id)
    ensures states[k].sweeps[labels[k].sweep].temp == minute
  {
    hide Step, Enabled, PushesAt;
    RunAccounted(states, labels, k);
    assert OwnMinute(states[k].pushed, states[k].sweeps[labels[k].sweep]);
    if p < k {
      PushedStaysPushed(states, labels, p, k, id, minute);
    } else {
      PushedForGood(states, labels, k, p, id);
      assert false by { NotPushedTwice(states, labels, p, id, minute); }
    }
  }

  lemma {:induction false} RunAccounted(states: seq<State>, labels: seq<Label>, n: nat)
    requires IsRun(states, labels) && n < |states|
    ensures Accounted(states[n])
  {
    if n > 0 {
      RunAccounted(states, labels, n - 1);
      StepKeepsAccounted(states[n - 1], labels[n - 1]);
    }
  }

  lemma {:induction false} PushedForGood(states: seq<State>, labels: seq<Label>, m: nat, n: nat, id: Id)
    requires IsRun(states, labels) && m <= n < |states| && id in states[m].pushed
    ensures id in states[n].pushed
    decreases n
  {
    if m < n { PushedForGood(states, labels, m, n - 1, id); }
  }

  lemma NotPushedTwice(states: seq<State>, labels: seq<Label>, p: nat, id: Id, minute: int)
    requires IsRun(states, labels) && PushesAt(labels, p, id, minute)
    ensures id !in states[p].pushed
  {
    assert Enabled(states[p], labels[p]);
  }

  // ---------- the end ----------

  /** No sweep works on the id. */
  ghost predicate Idle(s: State, id: Id) {
    forall w :: w in s.sweeps ==> id !in s.sweeps[w].todo
  }

  ghost predicate SameFate(s: State, t: State, id: Id, minute: int) {
    && (id in Items(t.lists, Bucket(minute)) <==> id in Items(s.lists, Bucket(minute)))
    && (id in Items(t.lists, Temp(minute)) <==> id in Items(s.lists, Temp(minute)))
    && (id in t.sent <==> id in s.sent)
  }

  /** A step that starts no attempt at the id's minute, while none is under way, leaves the id where it is. */
  lemma IdleStep(s: State, l: Label, id: Id, minute: int)
    requires Enabled(s, l) && Accounted(s) && id in s.pushed && s.pushed[id] == minute && Idle(s, id)
    requires !StartsAt([l], 0, minute)
    ensures Idle(Step(s, l), id) && SameFate(s, Step(s, l), id, minute)
  {
    match l
    case Move(_, tick, clock, outcome) =>
      if outcome != Refused { ElsewhereMoves(s, l, id, minute); }
    case Cleanup(w, clock) => ElsewhereCleans(s, l, id, minute);
    case Fetch(w, found, removal) => if !found { OthersStay(s, w, removal, id, minute); }
    case Remove(w, outcome) => OthersStay(s, w, outcome, id, minute);
    case _ =>
  }

  lemma ElsewhereMoves(s: State, l: Label, id: Id, minute: int)
    requires Enabled(s, l) && Accounted(s) && id in s.pushed && s.pushed[id] == minute && Idle(s, id)
    requires l.Move? && l.outcome != Refused && SweptMinute(l.tick, l.clock) != minute
    ensures Idle(Step(s, l), id) && SameFate(s, Step(s, l), id, minute)
  {
    var other := SweptMinute(l.tick, l.clock);
    TransferKeepsIds(s.lists, other, Bucket(minute), id);
    TransferKeepsIds(s.lists, other, Temp(minute), id);
    assert id !in Items(s.lists, Bucket(other));
  }

  lemma ElsewhereCleans(s: State, l: Label, id: Id, minute: int)
    requires Enabled(s, l) && Accounted(s) && id in s.pushed && s.pushed[id] == minute && Idle(s, id)
    requires l.Cleanup? && CleanupMinute(l.clock) != minute
    ensures Idle(Step(s, l), id) && SameFate(s, Step(s, l), id, minute)
  {
    assert id !in Items(s.lists, Temp(CleanupMinute(l.clock)));
  }

  /** Removing another id. */
  lemma OthersStay(s: State, w: nat, outcome: Outcome, id: Id, minute: int)
    requires w in s.sweeps && s.sweeps[w].todo != [] && s.sweeps[w].todo[0] != id
    ensures id in Items(LRemIf(s, s.sweeps[w], outcome), Bucket(minute)) <==> id in Items(s.lists, Bucket(minute))
    ensures id in Items(LRemIf(s, s.sweeps[w], outcome), Temp(minute)) <==> id in Items(s.lists, Temp(minute))
  {
    var key, other := Temp(s.sweeps[w].temp), s.sweeps[w].todo[0];
    LRemAccounted(s, key, other);
    if id in Items(s.lists, key) { RemoveFirstKeeps(Items(s.lists, key), other, id); }
  }

  /** After the last minute in which an attempt can start, none starts. */
  lemma NoLateAttempt(states: seq<State>, labels: seq<Label>, times: seq<int>, k: nat, minute: int)
    requires IsTimedRun(states, labels, times) && CleanupsOnTime(labels, times) && k < |labels|
    requires FloorMinute(times[k]) > minute + 5
    ensures !StartsAt(labels, k, minute)
  {
    hide IsRun, OncePerMinute;
    assert OnTime(labels[k], times[k]);
    assert labels[k].Cleanup? ==> CleanupOnTime(labels[k], times[k]);
    if labels[k].Cleanup? { SweepMinutes(labels[k].clock, minute); }
    if labels[k].Move? { SweepMinutes(labels[k].clock, minute); }
  }

  /** The end of an id's life: once the minute of its cleanup has gone by, whatever its ticks came to, and no sweep
      works on it any more, nothing changes for good: an id still in TEMP or in its bucket stays there, and one not sent
      is never sent. */
  lemma {:induction false} FateIsSealed(states: seq<State>, labels: seq<Label>, times: seq<int>, m: nat, n: nat, id: Id,
      minute: int)
    requires IsTimedRun(states, labels, times) && CleanupsOnTime(labels, times) && m <= n < |states|
    requires id in states[m].pushed && states[m].pushed[id] == minute && Idle(states[m], id)
    requires m < |labels| ==> FloorMinute(times[m]) > minute + 5
    ensures id in states[n].pushed && states[n].pushed[id] == minute && Idle(states[n], id)
    ensures SameFate(states[m], states[n], id, minute)
    decreases n
  {
    hide Step, Enabled, OnTime, OncePerMinute, StartsAt, Accounted, Idle;
    if m < n {
      FateIsSealed(states, labels, times, m, n - 1, id, minute);
      LaterMinute(times[m], times[n - 1], minute);
      NoLateAttempt(states, labels, times, n - 1, minute);
      StartAlone(labels, n - 1, minute);
      RunAccounted(states, labels, n - 1);
      IdleStep(states[n - 1], labels[n - 1], id, minute);
      StaysPushed(states[n - 1], labels[n - 1], id);
    }
  }

  lemma LaterMinute(s: int, t: int, minute: int)
    requires s <= t && FloorMinute(s) > minute + 5
    ensures FloorMinute(t) > minute + 5
  {
  }

  lemma StaysPushed(s: State, l: Label, id: Id)
    requires Enabled(s, l) && id in s.pushed
    ensures id in Step(s, l).pushed && Step(s, l).pushed[id] == s.pushed[id]
  {
  }
}
