/** What the job table says of a job, over every run of the scheduler's code and whatever fails: COMPLETED only once the
    job was sent, and every message sent is the job that was scheduled. */
module SchedulerStatus {
  import opened RedisLists
  import opened Remote
  import opened Timing
  import Keys
  import opened SchedulerStore
  import opened SchedulerRuns
  import opened SchedulerRefinement

  // ---------- one attempt ----------

  /** COMPLETED is written only behind a send that is reported done. A send that is not leaves RUNNING, or what was
      there if even that write did not take effect; and nothing else of a record ever changes. */
  lemma StatusAfter(s: Store, id: Id, key: string, a: Attempt)
    requires Filed(s) && id in s.records
    ensures var before, after := s.records[id], Processed(s, id, key, a).records[id];
      && (before.status != Completed ==>
            (after.status == Completed <==> a.found && a.send == Done && a.completing != Refused))
      && (a.found && (a.send != Done || a.completing == Refused) ==>
            after.status == if a.running != Refused then Running else before.status)
      && (!a.found ==> after == before)
      && after == before.(status := after.status, updatedAt := after.updatedAt)
  {
  }

  /** A completed job was sent, and what was sent is what its record says. */
  ghost predicate Honest(s: Store) {
    && (forall id :: id in s.records && s.records[id].status == Completed ==> SendCount(s.sent, id) > 0)
    && forall i :: 0 <= i < |s.sent| ==> IsOf(s.records, s.sent[i])
  }

  predicate IsOf(records: map<Id, Job>, m: Sent) {
    m.id in records && m.queue == records[m.id].queue && m.details == records[m.id].details
  }

  /** The record but for its status and its stamp. */
  function Lasting(job: Job): Job { job.(status := Scheduled, updatedAt := 0) }

  /** Records stay but for status and stamp, and nothing sent is taken back. */
  ghost predicate Goes(s: Store, t: Store) {
    && (forall id :: id in s.records ==> id in t.records && Lasting(t.records[id]) == Lasting(s.records[id]))
    && s.sent <= t.sent
  }

  lemma PutHonest(s: Store, job: Job, outcome: Outcome)
    requires Filed(s) && Honest(s) && job.id in s.records && Lasting(job) == Lasting(s.records[job.id])
    requires job.status == Completed ==> SendCount(s.sent, job.id) > 0
    ensures Filed(Put(s, job, outcome)) && Honest(Put(s, job, outcome)) && Goes(s, Put(s, job, outcome))
  {
    hide SendCount;
    var before := s.records[job.id];
    assert job.queue == Lasting(job).queue == before.queue && job.details == Lasting(job).details == before.details;
  }

  lemma DeliveredHonest(s: Store, job: Job, outcome: Outcome)
    requires Filed(s) && Honest(s) && job.id in s.records
    requires job.queue == s.records[job.id].queue && job.details == s.records[job.id].details
    ensures var t := Delivered(s, job, outcome);
      Filed(t) && Honest(t) && Goes(s, t) && (outcome != Refused ==> SendCount(t.sent, job.id) > 0)
  {
    hide SendCount;
    var last := Sent(job.id, job.queue, job.details);
    forall x ensures SendCount(s.sent + [last], x) == SendCount(s.sent, x) + if job.id == x then 1 else 0 {
      SendCountAppend(s.sent, last, x);
    }
  }

  /** Honesty does not depend on the lists, nor on what was dropped. */
  lemma ListsAside(s: Store, t: Store)
    requires Filed(s) && Honest(s) && t.records == s.records && t.sent == s.sent
    ensures Filed(t) && Honest(t) && Goes(s, t)
  {
    hide SendCount;
  }

  lemma ProcessedHonest(s: Store, id: Id, key: string, a: Attempt)
    requires Filed(s) && Honest(s)
    ensures Honest(Processed(s, id, key, a)) && Goes(s, Processed(s, id, key, a))
  {
    hide Honest, Goes, SendCount;
    var end := Processed(s, id, key, a);
    if id !in s.records || !a.found {
      ListsAside(s, end);
    } else {
      var job := s.records[id].(status := Running, updatedAt := a.now);
      var t := Put(s, job, a.running);
      PutHonest(s, job, a.running);
      DeliveredHonest(t, job, a.send);
      var u := Delivered(t, job, a.send);
      GoesOn(s, t, u);
      if a.send == Done {
        var done := job.(status := Completed, updatedAt := a.later);
        var v := Put(u, done, a.completing);
        PutHonest(u, done, a.completing);
        ListsAside(v, end);
        GoesOn(s, u, v);
        GoesOn(s, v, end);
      }
    }
  }

  lemma GoesOn(s: Store, t: Store, u: Store)
    requires Goes(s, t) && Goes(t, u)
    ensures Goes(s, u)
  {
  }

  lemma {:induction false} ProcessedAllHonest(s: Store, ids: seq<Id>, key: string, attempts: nat -> Attempt, n: nat)
    requires Filed(s) && Honest(s) && n <= |ids|
    ensures var t := ProcessedAll(s, ids, key, attempts, n); Filed(t) && Honest(t) && Goes(s, t)
  {
    hide Processed, Filed, Honest, Goes;
    if n == 0 {
      assert Goes(s, s) by { SameGoes(s); }
    } else {
      var before := ProcessedAll(s, ids, key, attempts, n - 1);
      ProcessedAllHonest(s, ids, key, attempts, n - 1);
      ProcessedTouchesOnly(before, ids[n - 1], key, attempts(n - 1));
      ProcessedHonest(before, ids[n - 1], key, attempts(n - 1));
      GoesOn(s, before, Processed(before, ids[n - 1], key, attempts(n - 1)));
    }
  }

  lemma SameGoes(s: Store)
    ensures Goes(s, s)
  {
  }

  // ---------- whole calls ----------

  lemma SweptHonest(s: Store, bucket: string, temp: string, f: Faults)
    requires Filed(s) && Honest(s)
    ensures Honest(Swept(s, bucket, temp, f)) && Goes(s, Swept(s, bucket, temp, f))
  {
    hide Filed, Honest, Goes, ProcessedAll, Transfer;
    SameGoes(s);
    var t := s.(lists := Transfer(s.lists, bucket, temp));
    ListsAside(s, t);
    var ids := Items(s.lists, bucket);
    ProcessedAllHonest(t, ids, temp, f.attempts, |ids|);
    GoesOn(s, t, ProcessedAll(t, ids, temp, f.attempts, |ids|));
  }

  lemma CleanedUpHonest(s: Store, temp: string, f: Faults)
    requires Filed(s) && Honest(s)
    ensures Honest(CleanedUp(s, temp, f)) && Goes(s, CleanedUp(s, temp, f))
  {
    hide Filed, Honest, Goes, ProcessedAll;
    SameGoes(s);
    ProcessedAllHonest(s, Items(s.lists, temp), temp, f.attempts, |Items(s.lists, temp)|);
  }

  lemma ScheduledHonest(s: Store, job: Job, now: int, create: Outcome, push: Outcome, node: string, offset: int)
    requires Honest(s) && job.id !in s.records && job.status == Scheduled
    ensures var t := ScheduledIn(s, job, now, create, push, node, offset);
      Honest(t) && Goes(s, t) && (create != Refused ==> job.id in t.records && Enqueued(t.records[job.id], job))
  {
    hide ChosenTime, SendCount, Keys.BucketKey;
  }

  /** The stored job is the one asked for, at the chosen time. */
  predicate Enqueued(stored: Job, job: Job) {
    stored.name == job.name && stored.queue == job.queue && stored.details == job.details
  }

  lemma CallHonest(s: Store, c: Op, node: string, offset: int)
    requires Filed(s) && Honest(s) && (c.Schedule? ==> c.job.id !in s.records && c.job.status == Scheduled)
    ensures Honest(After(s, c, node, offset)) && Goes(s, After(s, c, node, offset))
  {
    hide Filed, Honest, Goes, Swept, CleanedUp, ScheduledIn;
    match c
    case Schedule(job, now, create, push) => ScheduledHonest(s, job, now, create, push, node, offset);
    case Main(clock, f) =>
      var time := MainMinute(clock) * MINUTE;
      SweptHonest(s, Keys.BucketKey(time, offset, node), Keys.TempKey(time, offset, node), f);
    case Late(clock, f) =>
      var time := LateMinute(clock) * MINUTE;
      SweptHonest(s, Keys.BucketKey(time, offset, node), Keys.TempKey(time, offset, node), f);
    case Cleanup(clock, f) => CleanedUpHonest(s, Keys.TempKey(CleanupMinute(clock) * MINUTE, offset, node), f);
  }

  // ---------- every run ----------

  /** Jobs come from NewScheduledJob, which makes them SCHEDULED. */
  ghost predicate NewJobs(calls: seq<Op>) {
    forall k :: 0 <= k < |calls| && calls[k].Schedule? ==> calls[k].job.status == Scheduled
  }

  lemma {:induction false} RunHonest(stores: seq<Store>, calls: seq<Op>, m: nat, n: nat, node: string, offset: int)
    requires IsCodeRun(stores, calls, node, offset) && NewJobs(calls) && m <= n < |stores|
    ensures Filed(stores[n]) && Honest(stores[n]) && Goes(stores[m], stores[n])
    decreases n
  {
    hide Filed, Honest, Goes, After;
    if n == 0 {
      assert Filed(stores[0]) && Honest(stores[0]) && Goes(stores[0], stores[0]) by { EmptyHonest(stores[0]); }
    } else {
      RunHonest(stores, calls, if m < n then m else n - 1, n - 1, node, offset);
      CallKeepsFiled(stores[n - 1], calls[n - 1], node, offset);
      CallHonest(stores[n - 1], calls[n - 1], node, offset);
      if m < n { GoesOn(stores[m], stores[n - 1], stores[n]); } else { SameGoes(stores[n]); }
    }
  }

  lemma EmptyHonest(s: Store)
    requires s == Store(map[], map[], [], [])
    ensures Filed(s) && Honest(s) && Goes(s, s)
  {
  }

  /** However the calls of a run end, a job stored as COMPLETED was sent. */
  lemma CompletedWasSent(stores: seq<Store>, calls: seq<Op>, n: nat, id: Id, node: string, offset: int)
    requires IsCodeRun(stores, calls, node, offset) && NewJobs(calls) && n < |stores|
    requires id in stores[n].records && stores[n].records[id].status == Completed
    ensures SendCount(stores[n].sent, id) > 0
  {
    hide IsCodeRun, NewJobs, SendCount;
    RunHonest(stores, calls, 0, n, node, offset);
  }

  /** And whatever was sent under the id of a scheduled job went to that job's queue with that job's details. */
  lemma SentIsTheScheduledJob(stores: seq<Store>, calls: seq<Op>, p: nat, n: nat, i: nat, node: string, offset: int)
    requires IsCodeRun(stores, calls, node, offset) && NewJobs(calls) && p < n < |stores|
    requires calls[p].Schedule? && calls[p].create != Refused
    requires i < |stores[n].sent| && stores[n].sent[i].id == calls[p].job.id
    ensures stores[n].sent[i] == Sent(calls[p].job.id, calls[p].job.queue, calls[p].job.details)
  {
    hide SendCount, ScheduledIn;
    var c := calls[p];
    RunHonest(stores, calls, p, p, node, offset);
    RunHonest(stores, calls, p + 1, n, node, offset);
    ScheduledHonest(stores[p], c.job, c.now, c.create, c.push, node, offset);
    var before, after := stores[p + 1].records[c.job.id], stores[n].records[c.job.id];
    assert Lasting(before) == Lasting(after);
    assert before.queue == Lasting(before).queue && before.details == Lasting(before).details;
    assert IsOf(stores[n].records, stores[n].sent[i]);
  }
}
