/** Runs of the scheduler with real times: how late a push may come and still be swept. */
module SweepTimeline {
  import opened RedisLists
  import opened Remote
  import opened Timing
  import opened SchedulerSteps

  const LATE_OFFSET := 10 * SECOND
  const PUSH_WINDOW := 70 * SECOND

  /** The step at real time `time` agrees with the cron table: the late sweep fires at second 10 of a minute,
      a clock is read no later than the step it serves, and a sweep moves its list in the minute it fired. */
  ghost predicate OnTime(l: Label, time: int) {
    match l
    case Push(_, _, now, _) => now <= time
    case Move(_, tick, clock, _) =>
      && clock <= time && FloorMinute(clock) == FloorMinute(time)
      && (tick == Late ==> clock >= FloorMinute(clock) * MINUTE + LATE_OFFSET)
    case _ => true
  }

  /** Cron fires each sweep once a minute. */
  ghost predicate OncePerMinute(labels: seq<Label>) {
    forall i, j :: 0 <= i < j < |labels| && labels[i].Move? && labels[j].Move? && labels[i].tick == labels[j].tick
      ==> FloorMinute(labels[i].clock) != FloorMinute(labels[j].clock)
  }

  ghost predicate IsTimedRun(states: seq<State>, labels: seq<Label>, times: seq<int>) {
    && IsRun(states, labels)
    && |times| == |labels|
    && (forall i, j :: 0 <= i <= j < |times| ==> times[i] <= times[j])
    && (forall k :: 0 <= k < |labels| ==> OnTime(labels[k], times[k]))
    && OncePerMinute(labels)
  }

  /** labels[p] pushes `id` to the bucket of `minute`. */
  ghost predicate PushesAt(labels: seq<Label>, p: nat, id: Id, minute: int) {
    && p < |labels| && labels[p].Push? && labels[p].id == id && labels[p].outcome != Refused
    && BucketMinute(labels[p].executeAt, labels[p].now) == minute
  }

  /** labels[q] is the transfer of the late sweep that fires one minute after `minute`. */
  ghost predicate LateSweepAt(labels: seq<Label>, q: nat, minute: int) {
    && q < |labels| && labels[q].Move? && labels[q].tick == Late && labels[q].outcome != Refused
    && FloorMinute(labels[q].clock) == minute + 1
  }

  lemma PushPrecedesLateSweep(states: seq<State>, labels: seq<Label>, times: seq<int>, p: nat, q: nat, id: Id,
      minute: int)
    requires IsTimedRun(states, labels, times) && PushesAt(labels, p, id, minute) && LateSweepAt(labels, q, minute)
    requires times[p] <= labels[p].now + PUSH_WINDOW
    ensures p < q
  {
    BucketIsAhead(labels[p].executeAt, labels[p].now);
    assert OnTime(labels[p], times[p]) && OnTime(labels[q], times[q]);
    assert times[p] < times[q];
  }

  lemma {:induction false} PushedStaysPushed(states: seq<State>, labels: seq<Label>, p: nat, n: nat, id: Id,
      minute: int)
    requires IsRun(states, labels) && p < n < |states| && PushesAt(labels, p, id, minute)
    ensures id in states[n].pushed && states[n].pushed[id] == minute
  {
    if n > p + 1 {
      PushedStaysPushed(states, labels, p, n - 1, id, minute);
    }
  }

  /** Only a push puts an id into a bucket. */
  lemma StepKeepsOut(s: State, l: Label, id: Id, minute: int)
    requires Enabled(s, l) && id in s.pushed && id !in Items(s.lists, Bucket(minute))
    ensures id in Step(s, l).pushed && id !in Items(Step(s, l).lists, Bucket(minute))
  {
    match l
    case Move(_, tick, clock, _) => TransferKeepsIds(s.lists, SweptMinute(tick, clock), Bucket(minute), id);
    case Fetch(w, _, _) => LRemAccounted(s, Temp(s.sweeps[w].temp), s.sweeps[w].todo[0]);
    case Remove(w, _) => LRemAccounted(s, Temp(s.sweeps[w].temp), s.sweeps[w].todo[0]);
    case _ =>
  }

  lemma {:induction false} BucketStaysWithout(states: seq<State>, labels: seq<Label>, q: nat, n: nat, id: Id,
      minute: int)
    requires IsRun(states, labels) && q < n < |states| && id in states[q].pushed
    requires id !in Items(states[q + 1].lists, Bucket(minute))
    ensures id in states[n].pushed && id !in Items(states[n].lists, Bucket(minute))
  {
    if n > q + 1 {
      BucketStaysWithout(states, labels, q, n - 1, id, minute);
      StepKeepsOut(states[n - 1], labels[n - 1], id, minute);
    }
  }

  /** Sweep coverage. A push within 70 s of ScheduleJob's clock read comes before the late sweep of its
      bucket, and from that sweep on the id is out of the bucket for good: it is in TEMP, sent or dropped. */
  lemma PushedInTimeIsSwept(states: seq<State>, labels: seq<Label>, times: seq<int>, p: nat, q: nat, n: nat, id: Id,
      minute: int)
    requires IsTimedRun(states, labels, times) && PushesAt(labels, p, id, minute) && LateSweepAt(labels, q, minute)
    requires times[p] <= labels[p].now + PUSH_WINDOW
    requires q < n < |states|
    ensures p < q
    ensures id !in Items(states[n].lists, Bucket(minute))
    ensures id in Items(states[n].lists, Temp(minute)) || id in states[n].sent || id in states[n].dropped
  {
    PushPrecedesLateSweep(states, labels, times, p, q, id, minute);
    PushedStaysPushed(states, labels, p, q, id, minute);
    TransferKeepsIds(states[q].lists, minute, Bucket(minute), id);
    BucketStaysWithout(states, labels, q, n, id, minute);
    PushedStaysPushed(states, labels, p, n, id, minute);
    JobsAreConserved(states, labels, n, id);
  }

  /** An id still unsent then is picked up once more by the cleanup sweep five minutes after its minute. */
  lemma UnsentIsRetried(states: seq<State>, labels: seq<Label>, times: seq<int>, p: nat, q: nat, n: nat, id: Id,
      minute: int)
    requires IsTimedRun(states, labels, times) && PushesAt(labels, p, id, minute) && LateSweepAt(labels, q, minute)
    requires times[p] <= labels[p].now + PUSH_WINDOW
    requires q < n < |labels| && labels[n].Cleanup? && FloorMinute(labels[n].clock) == minute + 5
    requires id !in states[n].sent && id !in states[n].dropped
    ensures id in states[n + 1].sweeps[labels[n].sweep].todo
    ensures states[n + 1].sweeps[labels[n].sweep].temp == minute
  {
    PushedInTimeIsSwept(states, labels, times, p, q, n, id, minute);
  }

  /** A push that comes after the late sweep of its bucket is never swept: no later step of any kind takes
      the id out of the bucket. */
  lemma {:induction false} PushedTooLateIsNeverSwept(states: seq<State>, labels: seq<Label>, times: seq<int>, p: nat,
      q: nat, n: nat, id: Id, minute: int)
    requires IsTimedRun(states, labels, times) && PushesAt(labels, p, id, minute) && LateSweepAt(labels, q, minute)
    requires q < p < n < |states|
    ensures id in Items(states[n].lists, Bucket(minute))
  {
    hide OnTime, OncePerMinute;
    if n > p + 1 {
      PushedTooLateIsNeverSwept(states, labels, times, p, q, n - 1, id, minute);
      LaterSweepsMissIt(states, labels, times, q, n - 1, minute);
      NotSweptStays(states[n - 1], labels[n - 1], id, minute);
    }
  }

  /** After the late sweep of its minute, no sweep moves a bucket. */
  lemma LaterSweepsMissIt(states: seq<State>, labels: seq<Label>, times: seq<int>, q: nat, k: nat, minute: int)
    requires IsTimedRun(states, labels, times) && LateSweepAt(labels, q, minute) && q < k < |labels|
    ensures labels[k].Move? ==> SweptMinute(labels[k].tick, labels[k].clock) != minute
  {
    var l := labels[k];
    if l.Move? {
      assert times[q] <= times[k] && OnTime(labels[q], times[q]) && OnTime(l, times[k]);
      assert l.tick == Late ==> FloorMinute(l.clock) != FloorMinute(labels[q].clock);
    }
  }

  lemma NotSweptStays(s: State, l: Label, id: Id, minute: int)
    requires Enabled(s, l) && id in Items(s.lists, Bucket(minute))
    requires l.Move? ==> SweptMinute(l.tick, l.clock) != minute
    ensures id in Items(Step(s, l).lists, Bucket(minute))
  {
    if l.Move? { TransferKeepsIds(s.lists, SweptMinute(l.tick, l.clock), Bucket(minute), id); }
  }

  /** Exactly: once the late sweep of its minute has run, an id pushed by now is out of its bucket if and
      only if the push came before that sweep. */
  lemma SweptIffPushedBefore(states: seq<State>, labels: seq<Label>, times: seq<int>, p: nat, q: nat, n: nat, id: Id,
      minute: int)
    requires IsTimedRun(states, labels, times) && PushesAt(labels, p, id, minute) && LateSweepAt(labels, q, minute)
    requires p < n && q < n < |states|
    ensures id !in Items(states[n].lists, Bucket(minute)) <==> p < q
  {
    if p < q {
      PushedStaysPushed(states, labels, p, q, id, minute);
      TransferKeepsIds(states[q].lists, minute, Bucket(minute), id);
      BucketStaysWithout(states, labels, q, n, id, minute);
    } else {
      PushedTooLateIsNeverSwept(states, labels, times, p, q, n, id, minute);
    }
  }

  /** Seventy seconds is the exact window: one millisecond more and a run exists in which the late sweep has
      already gone by when the push arrives. */
  lemma WindowIsTight(id: Id) returns (states: seq<State>, labels: seq<Label>, times: seq<int>)
    ensures IsTimedRun(states, labels, times) && |labels| == 3
    ensures LateSweepAt(labels, 1, 1) && PushesAt(labels, 2, id, 1)
    ensures times[2] == labels[2].now + PUSH_WINDOW + 1
  {
    labels := [Create(id), Move(0, Late, 130_000, Done), Push(id, 0, 59_999, Done)];
    times := [0, 130_000, 130_000];
    var s1 := Step(INITIAL, labels[0]);
    var s2 := Step(s1, labels[1]);
    var s3 := Step(s2, labels[2]);
    states := [INITIAL, s1, s2, s3];
    assert FloorMinute(130_000) == 2 && FloorMinute(59_999) == 0 && FloorMinute(0) == 0;
    assert BucketMinute(0, 59_999) == 1 by { BucketIsAhead(0, 59_999); }
    assert forall k :: 0 <= k < 3 ==> OnTime(labels[k], times[k]);
  }
}
