/** The scheduler without failures and without overlapping sweeps: every job is sent exactly once, in its own
    minute, and leaves nothing behind. */
module SchedulerRuns {
  import opened RedisLists
  import opened Remote
  import opened Calendar
  import opened Timing
  import opened Keys
  import opened SchedulerStore
  import Steps = SchedulerSteps

  /** The textual key of a symbolic one. */
  function KeyText(k: Steps.Key, node: string, offset: int): string {
    match k
    case Bucket(minute) => BucketKey(minute * MINUTE, offset, node)
    case Temp(minute) => TempKey(minute * MINUTE, offset, node)
  }

  /** For one node the textual keys are as distinct as the symbolic keys of the step system. */
  lemma KeyTextInjective(a: Steps.Key, b: Steps.Key, node: string, offset: int)
    ensures KeyText(a, node, offset) == KeyText(b, node, offset) <==> a == b
  {
    hide BucketKey;
    var s, t := a.minute * MINUTE, b.minute * MINUTE;
    BucketKeysEqual(s, t, offset, offset, node, node);
    BucketKeysEqual(s, t, offset, offset, node + "_TEMP", node + "_TEMP");
    BucketIsNeverTemp(s, t, offset, offset, node, node);
    BucketIsNeverTemp(t, s, offset, offset, node, node);
    MinuteStarts(a.minute, offset);
    MinuteStarts(b.minute, offset);
  }

  lemma MinuteStarts(minute: int, offset: int)
    ensures LocalSecond(minute * MINUTE, offset) / 60 == minute + offset / 60
  {
    assert minute * MINUTE / 1000 == minute * 60;
  }

  /** ScheduleJob: the record is put first, then the id is pushed to the bucket of the chosen time. */
  function ScheduledIn(s: Store, job: Job, now: int, create: Outcome, push: Outcome, node: string, offset: int): Store {
    var chosen := job.(executeAt := ChosenTime(job.executeAt, now));
    var t := Put(s, chosen, create);
    if create != Done || push == Refused then t
    else t.(lists := RPush(t.lists, BucketKey(chosen.executeAt, offset, node), job.id))
  }

  function MainSweep(s: Store, clock: int, f: Faults, node: string, offset: int): Store {
    var time := MainMinute(clock) * MINUTE;
    Swept(s, BucketKey(time, offset, node), TempKey(time, offset, node), f)
  }

  function LateSweep(s: Store, clock: int, f: Faults, node: string, offset: int): Store {
    var time := LateMinute(clock) * MINUTE;
    Swept(s, BucketKey(time, offset, node), TempKey(time, offset, node), f)
  }

  function CleanupSweep(s: Store, clock: int, f: Faults, node: string, offset: int): Store {
    CleanedUp(s, TempKey(CleanupMinute(clock) * MINUTE, offset, node), f)
  }

  // ---------- sweeping without failures ----------

  /** What is sent for the ids, in order. */
  function Sends(records: map<Id, Job>, ids: seq<Id>): seq<Sent>
    requires forall id :: id in ids ==> id in records
  {
    if ids == [] then []
    else
      var id := ids[|ids| - 1];
      Sends(records, ids[..|ids| - 1]) + [Sent(id, records[id].queue, records[id].details)]
  }

  lemma {:induction false} SendsCount(s: Store, ids: seq<Id>, sent: seq<Sent>, x: Id)
    requires forall id :: id in ids ==> id in s.records
    ensures SendCount(sent + Sends(s.records, ids), x) == SendCount(sent, x) + Count(ids, x)
  {
    if ids == [] {
      assert sent + Sends(s.records, ids) == sent;
    } else {
      var rest, id := ids[..|ids| - 1], ids[|ids| - 1];
      var last := Sent(id, s.records[id].queue, s.records[id].details);
      SendsCount(s, rest, sent, x);
      SendCountAppend(sent + Sends(s.records, rest), last, x);
      assert sent + Sends(s.records, ids) == sent + Sends(s.records, rest) + [last];
      AppendCount(ids, |ids|, x);
      assert ids[..|ids|] == ids;
    }
  }

  /** The ids were sent once each, in order, and taken off the list; their records are COMPLETED and otherwise as
      they were; nothing else changed. */
  ghost predicate SentInOrder(s: Store, t: Store, ids: seq<Id>, key: string)
    requires forall id :: id in ids ==> id in s.records
  {
    && t.sent == s.sent + Sends(s.records, ids) && t.dropped == s.dropped
    && ListsAfter(s.lists, t.lists, ids, key) && RecordsAfter(s, t, ids)
  }

  ghost predicate ListsAfter(lists: Lists<string>, left: Lists<string>, ids: seq<Id>, key: string) {
    && multiset(Items(left, key)) == multiset(Items(lists, key)) - multiset(ids)
    && (forall k :: k != key ==> Items(left, k) == Items(lists, k))
  }

  ghost predicate RecordsAfter(s: Store, t: Store, ids: seq<Id>) {
    t.records.Keys == s.records.Keys && (forall id :: id in s.records ==> RecordAfter(s, t, ids, id))
  }

  predicate RecordAfter(s: Store, t: Store, ids: seq<Id>, id: Id)
    requires id in s.records && id in t.records
  {
    t.records[id] == if id in ids then s.records[id].(status := Completed, updatedAt := t.records[id].updatedAt)
      else s.records[id]
  }

  lemma FlawlessJob(s: Store, id: Id, key: string, a: Attempt)
    requires FlawlessAttempt(a) && id in s.records && s.records[id].id == id
    ensures var t := Processed(s, id, key, a);
      && t.lists == LRem(s.lists, key, id) && t.dropped == s.dropped
      && t.sent == s.sent + [Sent(id, s.records[id].queue, s.records[id].details)]
      && t.records == s.records[id := s.records[id].(status := Completed, updatedAt := a.later)]
  {
  }

  lemma {:induction false} FlawlessJobs(s: Store, ids: seq<Id>, key: string, attempts: nat -> Attempt, n: nat)
    requires Filed(s) && n <= |ids| && (forall id :: id in ids ==> id in s.records)
    requires forall i: nat :: FlawlessAttempt(attempts(i))
    ensures SentInOrder(s, ProcessedAll(s, ids, key, attempts, n), ids[..n], key)
  {
    hide Processed, Filed, RecordsAfter, ListsAfter, Sends, LRem, FlawlessAttempt;
    if n == 0 {
      NothingSent(s, ids[..0], key);
    } else {
      var t, id := ProcessedAll(s, ids, key, attempts, n - 1), ids[n - 1];
      FlawlessJobs(s, ids, key, attempts, n - 1);
      FiledAfter(s, t, ids[..n - 1], id);
      FlawlessJob(t, id, key, attempts(n - 1));
      OneMoreSent(s, t, ProcessedAll(s, ids, key, attempts, n), ids[..n - 1], id, key, attempts(n - 1).later);
      assert ids[..n] == ids[..n - 1] + [id];
    }
  }

  lemma NothingSent(s: Store, ids: seq<Id>, key: string)
    requires ids == []
    ensures SentInOrder(s, s, ids, key)
  {
    assert s.sent + Sends(s.records, ids) == s.sent;
  }

  lemma FiledAfter(s: Store, t: Store, ids: seq<Id>, id: Id)
    requires Filed(s) && id in s.records && RecordsAfter(s, t, ids)
    ensures id in t.records && t.records[id].id == id
    ensures t.records[id].queue == s.records[id].queue && t.records[id].details == s.records[id].details
  {
    assert RecordAfter(s, t, ids, id);
  }

  lemma OneMoreSent(s: Store, t: Store, u: Store, done: seq<Id>, id: Id, key: string, later: int)
    requires id in s.records && (forall x :: x in done ==> x in s.records) && SentInOrder(s, t, done, key)
    requires t.records[id].queue == s.records[id].queue && t.records[id].details == s.records[id].details
    requires u.lists == LRem(t.lists, key, id) && u.dropped == t.dropped
    requires u.sent == t.sent + [Sent(id, t.records[id].queue, t.records[id].details)]
    requires u.records == t.records[id := t.records[id].(status := Completed, updatedAt := later)]
    ensures SentInOrder(s, u, done + [id], key)
  {
    hide RecordsAfter, ListsAfter, Sends, LRem;
    LastRemoval(s.lists, t.lists, done, id, key);
    LastSend(s, done, id);
    LastRecord(s, t, u, done, id, later);
  }

  lemma LastRemoval(lists: Lists<string>, left: Lists<string>, done: seq<Id>, id: Id, key: string)
    requires ListsAfter(lists, left, done, key)
    ensures ListsAfter(lists, LRem(left, key, id), done + [id], key)
  {
    hide RemoveFirst;
    RemoveFirstTakesOne(Items(left, key), id);
    MultisetStep(multiset(Items(lists, key)), done, id);
  }

  lemma MultisetStep(m: multiset<Id>, done: seq<Id>, id: Id)
    ensures m - multiset(done) - multiset{id} == m - multiset(done + [id])
  {
  }

  lemma LastSend(s: Store, done: seq<Id>, id: Id)
    requires id in s.records && (forall x :: x in done ==> x in s.records)
    ensures s.sent + Sends(s.records, done + [id])
            == s.sent + Sends(s.records, done) + [Sent(id, s.records[id].queue, s.records[id].details)]
  {
    assert (done + [id])[..|done|] == done;
  }

  lemma LastRecord(s: Store, t: Store, u: Store, done: seq<Id>, id: Id, later: int)
    requires id in s.records && RecordsAfter(s, t, done)
    requires u.records == t.records[id := t.records[id].(status := Completed, updatedAt := later)]
    ensures RecordsAfter(s, u, done + [id])
  {
    forall x | x in s.records ensures RecordAfter(s, u, done + [id], x) {
      assert RecordAfter(s, t, done, x);
    }
  }

  // ---------- whole runs without failures ----------

  /** A call of the scheduler, with what it is given and how its remote calls end. */
  datatype Op =
    | Schedule(job: Job, now: int, create: Outcome, push: Outcome)
    | Main(clock: int, faults: Faults)
    | Late(clock: int, faults: Faults)
    | Cleanup(clock: int, faults: Faults)

  /** A new job has a new id; sweeps run whole, one at a time, and none of their calls fails. */
  ghost predicate Clean(s: Store, op: Op) {
    match op
    case Schedule(job, _, create, push) => job.id !in s.records && job.status == Scheduled && create == push == Done
    case Main(_, f) => Flawless(f)
    case Late(_, f) => Flawless(f)
    case Cleanup(_, f) => Flawless(f)
  }

  function After(s: Store, op: Op, node: string, offset: int): Store {
    match op
    case Schedule(job, now, create, push) => ScheduledIn(s, job, now, create, push, node, offset)
    case Main(clock, f) => MainSweep(s, clock, f, node, offset)
    case Late(clock, f) => LateSweep(s, clock, f, node, offset)
    case Cleanup(clock, f) => CleanupSweep(s, clock, f, node, offset)
  }

  function JobKey(job: Job, node: string, offset: int): string { BucketKey(job.executeAt, offset, node) }

  /** Nothing waits anywhere but in the bucket of its own job. */
  ghost predicate OwnBucket(s: Store, node: string, offset: int) {
    forall k, id :: id in Items(s.lists, k) ==> id in s.records && k == JobKey(s.records[id], node, offset)
  }

  /** The job waits once in its bucket and was never sent, or was sent exactly once and is COMPLETED. */
  ghost predicate SentOnceOrWaiting(s: Store, id: Id, node: string, offset: int)
    requires id in s.records
  {
    var waiting := Count(Items(s.lists, JobKey(s.records[id], node, offset)), id);
    || (waiting == 1 && SendCount(s.sent, id) == 0 && s.records[id].status == Scheduled)
    || (waiting == 0 && SendCount(s.sent, id) == 1 && s.records[id].status == Completed)
  }

  ghost predicate Tidy(s: Store, node: string, offset: int) {
    && Filed(s) && OwnBucket(s, node, offset) && s.dropped == []
    && (forall id :: id in s.records ==> SentOnceOrWaiting(s, id, node, offset))
    && (forall id :: id !in s.records ==> SendCount(s.sent, id) == 0)
  }

  lemma ScheduleKeepsTidy(s: Store, job: Job, now: int, node: string, offset: int)
    requires Tidy(s, node, offset) && job.id !in s.records && job.status == Scheduled
    ensures Tidy(ScheduledIn(s, job, now, Done, Done, node, offset), node, offset)
  {
    hide BucketKey, ChosenTime, SendCount, SentOnceOrWaiting, OwnBucket;
    var t := ScheduledIn(s, job, now, Done, Done, node, offset);
    var chosen := job.(executeAt := ChosenTime(job.executeAt, now));
    var key := JobKey(chosen, node, offset);
    PushKeepsOwnBucket(s, t, chosen, node, offset);
    forall id | id in t.records ensures SentOnceOrWaiting(t, id, node, offset) {
      PushKeepsOnce(s, t, chosen, node, offset, id);
    }
  }

  lemma PushKeepsOwnBucket(s: Store, t: Store, job: Job, node: string, offset: int)
    requires OwnBucket(s, node, offset) && job.id !in s.records
    requires t == s.(records := s.records[job.id := job], lists := RPush(s.lists, JobKey(job, node, offset), job.id))
    ensures OwnBucket(t, node, offset)
  {
    hide JobKey;
    forall k, id | id in Items(t.lists, k) ensures id in t.records && k == JobKey(t.records[id], node, offset) {
      assert id in Items(s.lists, k) || (k == JobKey(job, node, offset) && id == job.id);
    }
  }

  lemma PushKeepsOnce(s: Store, t: Store, job: Job, node: string, offset: int, id: Id)
    requires OwnBucket(s, node, offset) && job.id !in s.records && job.status == Scheduled
    requires SendCount(s.sent, job.id) == 0
    requires t == s.(records := s.records[job.id := job], lists := RPush(s.lists, JobKey(job, node, offset), job.id))
    requires id in t.records && (id in s.records ==> SentOnceOrWaiting(s, id, node, offset))
    ensures SentOnceOrWaiting(t, id, node, offset)
  {
    hide JobKey, SendCount;
    var list := Items(s.lists, JobKey(job, node, offset));
    CountRemoveFirst(list, id, id);
    assert Count(list + [job.id], id) == Count(list, id) + if id == job.id then 1 else 0;
  }

  lemma TempIsEmpty(s: Store, time: int, node: string, offset: int)
    requires OwnBucket(s, node, offset)
    ensures Items(s.lists, TempKey(time, offset, node)) == []
    ensures BucketKey(time, offset, node) != TempKey(time, offset, node)
  {
    hide BucketKey, TempKey;
    var temp := TempKey(time, offset, node);
    BucketIsNeverTemp(time, time, offset, offset, node, node);
    if Items(s.lists, temp) != [] {
      var id := Items(s.lists, temp)[0];
      assert id in Items(s.lists, temp);
      BucketIsNeverTemp(s.records[id].executeAt, time, offset, offset, node, node);
    }
  }

  /** A flawless sweep of a tidy store sends its bucket in order, once each, and leaves it and TEMP empty. */
  ghost predicate SendsBucket(s: Store, t: Store, bucket: string, temp: string)
    requires forall id :: id in Items(s.lists, bucket) ==> id in s.records
  {
    var ids := Items(s.lists, bucket);
    && t.sent == s.sent + Sends(s.records, ids) && t.dropped == s.dropped
    && Items(t.lists, bucket) == [] && Items(t.lists, temp) == []
    && (forall k :: k != bucket && k != temp ==> Items(t.lists, k) == Items(s.lists, k))
    && t.records.Keys == s.records.Keys
    && (forall id :: id in s.records ==> RecordAfter(s, t, ids, id))
  }

  lemma FlawlessSweep(s: Store, bucket: string, temp: string, f: Faults)
    requires Filed(s) && Flawless(f) && bucket != temp && Items(s.lists, temp) == []
    requires forall id :: id in Items(s.lists, bucket) ==> id in s.records
    ensures SendsBucket(s, Swept(s, bucket, temp, f), bucket, temp)
  {
    hide ProcessedAll, Transfer;
    var ids := Items(s.lists, bucket);
    if ids == [] {
      assert s.sent + Sends(s.records, ids) == s.sent;
    } else {
      var t := s.(lists := Transfer(s.lists, bucket, temp));
      TransferFrame(s.lists, bucket, temp);
      FlawlessJobs(t, ids, temp, f.attempts, |ids|);
      assert ids[..|ids|] == ids && Items(t.lists, temp) == ids;
      var u := ProcessedAll(t, ids, temp, f.attempts, |ids|);
      assert multiset(Items(u.lists, temp)) == multiset{};
      EmptyList(Items(u.lists, temp));
      forall id | id in s.records ensures RecordAfter(s, u, ids, id) { assert RecordAfter(t, u, ids, id); }
    }
  }

  lemma EmptyList(list: seq<Id>)
    requires multiset(list) == multiset{}
    ensures list == []
  {
    assert |list| == |multiset(list)|;
  }

  lemma SweepKeepsTidy(s: Store, t: Store, bucket: string, temp: string, node: string, offset: int)
    requires Tidy(s, node, offset) && SendsBucket(s, t, bucket, temp)
    requires forall id :: id in s.records ==> JobKey(s.records[id], node, offset) != temp
    ensures Tidy(t, node, offset)
  {
    hide JobKey, SendCount, SentOnceOrWaiting, RecordAfter, OwnBucket;
    var ids := Items(s.lists, bucket);
    OwnIds(s, bucket, node, offset);
    forall id | id in t.records ensures t.records[id].id == id && SentOnceOrWaiting(t, id, node, offset) {
      SweepKeepsOnce(s, t, bucket, temp, node, offset, id);
    }
    SweepKeepsOwnBucket(s, t, bucket, temp, node, offset);
    forall id | id !in t.records ensures SendCount(t.sent, id) == 0 {
      SendsCount(s, ids, s.sent, id);
      CountRemoveFirst(ids, id, id);
    }
  }

  lemma OwnIds(s: Store, key: string, node: string, offset: int)
    requires OwnBucket(s, node, offset)
    ensures forall id :: id in Items(s.lists, key) ==> id in s.records
  {
  }

  lemma SweepKeepsOnce(s: Store, t: Store, bucket: string, temp: string, node: string, offset: int, id: Id)
    requires Filed(s) && OwnBucket(s, node, offset) && SendsBucket(s, t, bucket, temp) && id in s.records
    requires SentOnceOrWaiting(s, id, node, offset) && JobKey(s.records[id], node, offset) != temp
    ensures t.records[id].id == id && SentOnceOrWaiting(t, id, node, offset)
  {
    hide JobKey, SendCount, Sends;
    var ids := Items(s.lists, bucket);
    SendsCount(s, ids, s.sent, id);
    assert RecordAfter(s, t, ids, id);
    JobKeyAfter(s, t, ids, id, node, offset);
    CountRemoveFirst(ids, id, id);
  }

  lemma SweepKeepsOwnBucket(s: Store, t: Store, bucket: string, temp: string, node: string, offset: int)
    requires OwnBucket(s, node, offset) && SendsBucket(s, t, bucket, temp)
    ensures OwnBucket(t, node, offset)
  {
    hide JobKey, SendCount, Sends, RecordAfter;
    forall k, id | id in Items(t.lists, k) ensures id in t.records && k == JobKey(t.records[id], node, offset) {
      assert id in Items(s.lists, k) && RecordAfter(s, t, Items(s.lists, bucket), id);
      JobKeyAfter(s, t, Items(s.lists, bucket), id, node, offset);
    }
  }

  lemma JobKeyAfter(s: Store, t: Store, ids: seq<Id>, id: Id, node: string, offset: int)
    requires id in s.records && id in t.records && RecordAfter(s, t, ids, id)
    ensures JobKey(t.records[id], node, offset) == JobKey(s.records[id], node, offset)
  {
  }

  /** The sweep of one minute, either tick. */
  lemma MinuteSweepKeepsTidy(s: Store, time: int, f: Faults, node: string, offset: int)
    requires Tidy(s, node, offset) && Flawless(f)
    ensures var bucket, temp := BucketKey(time, offset, node), TempKey(time, offset, node);
      && (forall id :: id in Items(s.lists, bucket) ==> id in s.records)
      && SendsBucket(s, Swept(s, bucket, temp, f), bucket, temp)
      && Tidy(Swept(s, bucket, temp, f), node, offset)
  {
    hide BucketKey, TempKey, Swept, SendCount;
    var bucket, temp := BucketKey(time, offset, node), TempKey(time, offset, node);
    TempIsEmpty(s, time, node, offset);
    FlawlessSweep(s, bucket, temp, f);
    forall id | id in s.records ensures JobKey(s.records[id], node, offset) != temp {
      BucketIsNeverTemp(s.records[id].executeAt, time, offset, offset, node, node);
    }
    SweepKeepsTidy(s, Swept(s, bucket, temp, f), bucket, temp, node, offset);
  }

  lemma AfterKeepsTidy(s: Store, op: Op, node: string, offset: int)
    requires Tidy(s, node, offset) && Clean(s, op)
    ensures Tidy(After(s, op, node, offset), node, offset)
  {
    hide Tidy, ScheduledIn, Swept, BucketKey, TempKey;
    match op
    case Schedule(job, now, _, _) => ScheduleKeepsTidy(s, job, now, node, offset);
    case Main(clock, f) => MinuteSweepKeepsTidy(s, MainMinute(clock) * MINUTE, f, node, offset);
    case Late(clock, f) => MinuteSweepKeepsTidy(s, LateMinute(clock) * MINUTE, f, node, offset);
    case Cleanup(clock, f) => CleanupKeepsTidy(s, CleanupMinute(clock) * MINUTE, f, node, offset);
  }

  lemma CleanupKeepsTidy(s: Store, time: int, f: Faults, node: string, offset: int)
    requires Tidy(s, node, offset)
    ensures CleanedUp(s, TempKey(time, offset, node), f) == s
  {
    hide TempKey, BucketKey;
    TempIsEmpty(s, time, node, offset);
  }

  ghost predicate IsCleanRun(stores: seq<Store>, ops: seq<Op>, node: string, offset: int) {
    && |stores| == |ops| + 1 && stores[0] == Store(map[], map[], [], [])
    && forall k :: 0 <= k < |ops| ==>
         Clean(stores[k], ops[k]) && stores[k + 1] == After(stores[k], ops[k], node, offset)
  }

  /** Without failures and without overlap, at every moment of every run each scheduled job waits exactly once in the
      bucket of its minute, or has been sent exactly once and is COMPLETED; no TEMP list holds anything. */
  lemma {:induction false} EachJobIsSentOnce(stores: seq<Store>, ops: seq<Op>, n: nat, node: string, offset: int)
    requires IsCleanRun(stores, ops, node, offset) && n < |stores|
    ensures Tidy(stores[n], node, offset)
    ensures forall time: int :: Items(stores[n].lists, TempKey(time, offset, node)) == []
  {
    hide After, Clean, TempKey, BucketKey;
    if n > 0 {
      EachJobIsSentOnce(stores, ops, n - 1, node, offset);
      hide Tidy;
      AfterKeepsTidy(stores[n - 1], ops[n - 1], node, offset);
    }
    forall time: int ensures Items(stores[n].lists, TempKey(time, offset, node)) == [] {
      TidyOwns(stores[n], node, offset);
      TempIsEmpty(stores[n], time, node, offset);
    }
  }

  lemma TidyOwns(s: Store, node: string, offset: int)
    requires Tidy(s, node, offset)
    ensures OwnBucket(s, node, offset)
  {
  }

  /** A flawless sweep sends a waiting job exactly when the job's minute is the swept one. */
  lemma SweepSendsItsMinute(s: Store, time: int, f: Faults, node: string, offset: int, id: Id)
    requires Tidy(s, node, offset) && Flawless(f) && offset % 60 == 0
    requires id in s.records && s.records[id].status == Scheduled
    ensures var t := Swept(s, BucketKey(time, offset, node), TempKey(time, offset, node), f);
      && id in t.records
      && (FloorMinute(s.records[id].executeAt) == FloorMinute(time)
          <==> SendCount(t.sent, id) == 1 && t.records[id].status == Completed)
      && (FloorMinute(s.records[id].executeAt) != FloorMinute(time) ==> t.records[id] == s.records[id])
  {
    hide BucketKey, TempKey, Swept, SendCount;
    var bucket := BucketKey(time, offset, node);
    var ids := Items(s.lists, bucket);
    MinuteSweepKeepsTidy(s, time, f, node, offset);
    BucketKeyInjective(s.records[id].executeAt, time, offset, node);
    assert SentOnceOrWaiting(s, id, node, offset);
    CountRemoveFirst(ids, id, id);
    SendsCount(s, ids, s.sent, id);
    assert RecordAfter(s, Swept(s, bucket, TempKey(time, offset, node), f), ids, id);
  }
}
