/** What one scheduler call does to the Redis lists, the job table and the queue, as functions of how its remote
    calls end; and what the sweeps keep, whatever fails. */
module SchedulerStore {
  import opened RedisLists
  import opened Remote
  import opened Timing
  import opened Keys
  import opened Calendar

  datatype JobStatus = Scheduled | Running | Completed

  datatype Job = Job(
    id: Id, name: string, queue: string, details: string,
    executeAt: int, createdAt: int, updatedAt: int, status: JobStatus)

  /** A message handed to a queue, with the job it came from. */
  datatype Sent = Sent(id: Id, queue: string, details: string)

  datatype Store = Store(lists: Lists<string>, records: map<Id, Job>, sent: seq<Sent>, dropped: seq<Id>)

  /** How the remote calls of one processJob end, and the two clock readings it stamps. */
  datatype Attempt = Attempt(found: bool, running: Outcome, send: Outcome, completing: Outcome, removal: Outcome,
                             now: int, later: int)

  /** How the calls of one sweep end: the length query (and, for the cleanup, the range query), the Lua script,
      and each job's calls. */
  datatype Faults = Faults(queried: bool, transfer: Outcome, attempts: nat -> Attempt)

  predicate FlawlessAttempt(a: Attempt) {
    a.found && a.running == Done && a.send == Done && a.completing == Done && a.removal == Done
  }

  ghost predicate Flawless(f: Faults) {
    f.queried && f.transfer == Done && forall i: nat :: FlawlessAttempt(f.attempts(i))
  }

  // ---------- effects ----------

  function Put(s: Store, job: Job, outcome: Outcome): Store {
    if outcome == Refused then s else s.(records := s.records[job.id := job])
  }

  function Removed(s: Store, key: string, id: Id, outcome: Outcome): Store {
    if outcome == Refused then s else s.(lists := LRem(s.lists, key, id))
  }

  function Delivered(s: Store, job: Job, outcome: Outcome): Store {
    if outcome == Refused then s else s.(sent := s.sent + [Sent(job.id, job.queue, job.details)])
  }

  /** processJob: read, mark RUNNING, send, mark COMPLETED, remove from TEMP. Only the read and the send stop it. */
  function Processed(s: Store, id: Id, key: string, a: Attempt): Store {
    if id !in s.records || !a.found then
      var t := Removed(s, key, id, a.removal);
      t.(dropped := t.dropped + [id])
    else
      var job := s.records[id].(status := Running, updatedAt := a.now);
      var t := Delivered(Put(s, job, a.running), job, a.send);
      if a.send != Done then t
      else Removed(Put(t, job.(status := Completed, updatedAt := a.later), a.completing), key, id, a.removal)
  }

  /** The first n ids of a sweep, one after another. */
  function ProcessedAll(s: Store, ids: seq<Id>, key: string, attempts: nat -> Attempt, n: nat): Store
    requires n <= |ids|
  {
    if n == 0 then s else Processed(ProcessedAll(s, ids, key, attempts, n - 1), ids[n - 1], key, attempts(n - 1))
  }

  /** The main and the late sweep of one bucket. */
  function Swept(s: Store, bucket: string, temp: string, f: Faults): Store {
    var ids := Items(s.lists, bucket);
    if !f.queried || ids == [] || f.transfer == Refused then s
    else
      var t := s.(lists := Transfer(s.lists, bucket, temp));
      if f.transfer == Done then ProcessedAll(t, ids, temp, f.attempts, |ids|) else t
  }

  /** The cleanup sweep of one TEMP list. */
  function CleanedUp(s: Store, temp: string, f: Faults): Store {
    if !f.queried then s else ProcessedAll(s, Items(s.lists, temp), temp, f.attempts, |Items(s.lists, temp)|)
  }

  // ---------- counting ----------

  function Count(ids: seq<Id>, x: Id): nat { multiset(ids)[x] }

  function SendCount(sent: seq<Sent>, x: Id): nat {
    if sent == [] then 0 else SendCount(sent[..|sent| - 1], x) + if sent[|sent| - 1].id == x then 1 else 0
  }

  /** How often x was sent or dropped so far. */
  function Handled(s: Store, x: Id): nat { SendCount(s.sent, x) + Count(s.dropped, x) }

  /** Every record is filed under its own id. */
  ghost predicate Filed(s: Store) { forall id :: id in s.records ==> s.records[id].id == id }

  lemma CountRemoveFirst(list: seq<Id>, id: Id, x: Id)
    ensures Count(RemoveFirst(list, id), x) == Count(list, x) - if x == id && id in list then 1 else 0
    ensures x in list <==> Count(list, x) > 0
  {
    RemoveFirstTakesOne(list, id);
    assert id in list <==> id in multiset(list);
    assert x in list <==> x in multiset(list);
  }

  lemma SendCountAppend(sent: seq<Sent>, last: Sent, x: Id)
    ensures SendCount(sent + [last], x) == SendCount(sent, x) + if last.id == x then 1 else 0
  {
    assert (sent + [last])[..|sent|] == sent;
  }

  // ---------- one job, whatever fails ----------

  /** Nothing but the list at `key` and the job table's entries changes, and no record appears or vanishes. */
  ghost predicate TouchesOnly(s: Store, t: Store, key: string) {
    && Filed(t) && t.records.Keys == s.records.Keys
    && (forall k :: k != key ==> Items(t.lists, k) == Items(s.lists, k))
  }

  /** Every copy of x that left the list at `key` was sent or dropped, and at most `most` were. */
  predicate KeepsCopies(s: Store, t: Store, key: string, x: Id, most: nat) {
    && Count(Items(s.lists, key), x) <= Count(Items(t.lists, key), x) + Handled(t, x) - Handled(s, x)
    && 0 <= Handled(t, x) - Handled(s, x) <= most
  }

  lemma ProcessedTouchesOnly(s: Store, id: Id, key: string, a: Attempt)
    requires Filed(s)
    ensures TouchesOnly(s, Processed(s, id, key, a), key)
  {
  }

  lemma PutCounts(s: Store, job: Job, outcome: Outcome, x: Id)
    ensures var t := Put(s, job, outcome); t.lists == s.lists && Handled(t, x) == Handled(s, x)
  {
  }

  lemma DeliveredCounts(s: Store, job: Job, outcome: Outcome, x: Id)
    ensures var t := Delivered(s, job, outcome);
      t.lists == s.lists && Handled(t, x) == Handled(s, x) + if outcome != Refused && job.id == x then 1 else 0
  {
    SendCountAppend(s.sent, Sent(job.id, job.queue, job.details), x);
  }

  lemma RemovedCounts(s: Store, key: string, id: Id, outcome: Outcome, x: Id)
    ensures var t := Removed(s, key, id, outcome);
      && Handled(t, x) == Handled(s, x)
      && Count(Items(s.lists, key), x) <= Count(Items(t.lists, key), x) + if x == id then 1 else 0
  {
    CountRemoveFirst(Items(s.lists, key), id, x);
  }

  lemma DroppedCounts(s: Store, id: Id, x: Id)
    ensures Handled(s.(dropped := s.dropped + [id]), x) == Handled(s, x) + if x == id then 1 else 0
  {
  }

  lemma ProcessedKeepsCopies(s: Store, id: Id, key: string, a: Attempt, x: Id)
    requires Filed(s)
    ensures KeepsCopies(s, Processed(s, id, key, a), key, x, if x == id then 1 else 0)
  {
    hide Handled, Count, Put, Delivered, Removed, Items;
    if id in s.records && a.found {
      var job := s.records[id].(status := Running, updatedAt := a.now);
      var marked := Put(s, job, a.running);
      var t := Delivered(marked, job, a.send);
      var done := job.(status := Completed, updatedAt := a.later);
      PutCounts(s, job, a.running, x);
      DeliveredCounts(marked, job, a.send, x);
      PutCounts(t, done, a.completing, x);
      RemovedCounts(Put(t, done, a.completing), key, id, a.removal, x);
    } else {
      RemovedCounts(s, key, id, a.removal, x);
      DroppedCounts(Removed(s, key, id, a.removal), id, x);
    }
  }

  /** Any number of jobs, one after another: the same, each copy in `ids` being handled at most once. */
  lemma {:induction false} ProcessedAllConserves(s: Store, ids: seq<Id>, key: string, attempts: nat -> Attempt, n: nat,
      x: Id)
    requires Filed(s) && n <= |ids|
    ensures TouchesOnly(s, ProcessedAll(s, ids, key, attempts, n), key)
    ensures KeepsCopies(s, ProcessedAll(s, ids, key, attempts, n), key, x, Count(ids[..n], x))
  {
    hide Processed, Handled, Count, Filed, Items;
    if n > 0 {
      var before, id := ProcessedAll(s, ids, key, attempts, n - 1), ids[n - 1];
      ProcessedAllConserves(s, ids, key, attempts, n - 1, x);
      AppendCount(ids, n, x);
      ProcessedTouchesOnly(before, id, key, attempts(n - 1));
      ProcessedKeepsCopies(before, id, key, attempts(n - 1), x);
    }
  }

  lemma AppendCount(ids: seq<Id>, n: nat, x: Id)
    requires 0 < n <= |ids|
    ensures Count(ids[..n], x) == Count(ids[..n - 1], x) + if x == ids[n - 1] then 1 else 0
  {
    assert ids[..n] == ids[..n - 1] + [ids[n - 1]];
  }

  /** A sweep conserves occurrences: whatever fails, as many copies of an id as were in the bucket and in TEMP are
      still there or have been sent or dropped by this sweep; and it handles no id more often than its bucket held
      it. No other list is touched and no record appears or vanishes. */
  lemma SweepConserves(s: Store, bucket: string, temp: string, f: Faults, x: Id)
    requires bucket != temp && Filed(s)
    ensures var t := Swept(s, bucket, temp, f);
      && Filed(t) && t.records.Keys == s.records.Keys
      && (forall k :: k != bucket && k != temp ==> Items(t.lists, k) == Items(s.lists, k))
      && Count(Items(s.lists, bucket), x) + Count(Items(s.lists, temp), x)
         <= Count(Items(t.lists, bucket), x) + Count(Items(t.lists, temp), x) + Handled(t, x) - Handled(s, x)
      && 0 <= Handled(t, x) - Handled(s, x) <= Count(Items(s.lists, bucket), x)
  {
    hide Handled, ProcessedAll;
    var ids := Items(s.lists, bucket);
    if f.queried && ids != [] && f.transfer != Refused {
      var t := s.(lists := Transfer(s.lists, bucket, temp));
      TransferFrame(s.lists, bucket, temp);
      assert Handled(t, x) == Handled(s, x) by { HandledFrame(s, t, x); }
      if f.transfer == Done {
        ProcessedAllConserves(t, ids, temp, f.attempts, |ids|, x);
        assert ids[..|ids|] == ids;
      }
    }
  }

  lemma HandledFrame(s: Store, t: Store, x: Id)
    requires s.sent == t.sent && s.dropped == t.dropped
    ensures Handled(s, x) == Handled(t, x)
  {
  }

  lemma TransferFrame(lists: Lists<string>, bucket: string, temp: string)
    requires bucket != temp
    ensures Items(Transfer(lists, bucket, temp), bucket) == []
    ensures Items(Transfer(lists, bucket, temp), temp) == Items(lists, temp) + Items(lists, bucket)
    ensures forall k :: k != bucket && k != temp ==> Items(Transfer(lists, bucket, temp), k) == Items(lists, k)
  {
    var rest := lists - {bucket};
    assert forall k :: k != bucket ==> Items(rest, k) == Items(lists, k);
  }

  /** The cleanup sweep conserves likewise. */
  lemma CleanupConserves(s: Store, temp: string, f: Faults, x: Id)
    requires Filed(s)
    ensures var t := CleanedUp(s, temp, f);
      && (forall k :: k != temp ==> Items(t.lists, k) == Items(s.lists, k))
      && Count(Items(s.lists, temp), x) <= Count(Items(t.lists, temp), x) + Handled(t, x) - Handled(s, x)
      && 0 <= Handled(t, x) - Handled(s, x) <= Count(Items(s.lists, temp), x)
  {
    hide Handled, ProcessedAll;
    var ids := Items(s.lists, temp);
    ProcessedAllConserves(s, ids, temp, f.attempts, |ids|, x);
    assert ids[..|ids|] == ids;
  }
}
