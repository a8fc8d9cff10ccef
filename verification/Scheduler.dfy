/** internal/service/scheduler.go as code: each method makes its remote calls one by one and is tied to the effect
    functions of SchedulerStore and SchedulerRuns. How each call ends, and every clock reading, is a parameter. */
module Scheduler {
  import opened RedisLists
  import opened Remote
  import opened Timing
  import opened Keys
  import opened SchedulerStore
  import opened SchedulerRuns

  /** internal/domain/scheduled_job.go: the scheduler assigns the time, the status and the stamp. */
  class ScheduledJob {
    const id: Id
    const name: string
    const queue: string
    const details: string
    const createdAt: int
    var executeAt: int
    var updatedAt: int
    var status: JobStatus

    function View(): Job
      reads this
    {
      Job(id, name, queue, details, executeAt, createdAt, updatedAt, status)
    }

    constructor (id: Id, name: string, queue: string, executeAt: int, details: string, now: int)
      ensures View() == Job(id, name, queue, details, executeAt, now, now, JobStatus.Scheduled)
    {
      this.id, this.name, this.queue, this.details, this.executeAt := id, name, queue, details, executeAt;
      createdAt, updatedAt, status := now, now, JobStatus.Scheduled;
    }

    constructor Unmarshal(item: Job)
      ensures View() == item
    {
      id, name, queue, details, createdAt := item.id, item.name, item.queue, item.details, item.createdAt;
      executeAt, updatedAt, status := item.executeAt, item.updatedAt, item.status;
    }
  }

  class Scheduler {
    const node: string
    const offset: int
    var lists: Lists<string>
    var records: map<Id, Job>
    var sent: seq<Sent>
    var dropped: seq<Id>

    function View(): Store
      reads this
    {
      Store(lists, records, sent, dropped)
    }

    constructor (node: string, offset: int)
      ensures this.node == node && this.offset == offset && View() == Store(map[], map[], [], [])
    {
      this.node, this.offset := node, offset;
      lists, records, sent, dropped := map[], map[], [], [];
    }

    // ---------- remote calls ----------

    method PutJob(job: ScheduledJob, outcome: Outcome) returns (ok: bool)
      modifies this`records
      ensures View() == Put(old(View()), job.View(), outcome) && (ok <==> outcome == Done)
    {
      if outcome != Refused {
        records := records[job.id := job.View()];
      }
      ok := outcome == Done;
    }

    method LRemOne(key: string, id: Id, outcome: Outcome)
      modifies this`lists
      ensures View() == Removed(old(View()), key, id, outcome)
    {
      if outcome != Refused {
        lists := LRem(lists, key, id);
      }
    }

    method SendToQueue(job: ScheduledJob, outcome: Outcome) returns (ok: bool)
      modifies this`sent
      ensures View() == Delivered(old(View()), job.View(), outcome) && (ok <==> outcome == Done)
    {
      if outcome != Refused {
        sent := sent + [Sent(job.id, job.queue, job.details)];
      }
      ok := outcome == Done;
    }

    // ---------- scheduling ----------

    /** A current or past minute is moved to the next one, in the job object itself, before anything is stored. */
    method ScheduleJob(job: ScheduledJob, now: int, create: Outcome, push: Outcome) returns (ok: bool)
      modifies this`lists, this`records, job`executeAt
      ensures job.executeAt == ChosenTime(old(job.executeAt), now)
      ensures View() == ScheduledIn(old(View()), old(job.View()), now, create, push, node, offset)
      ensures ok <==> create == Done && push == Done
    {
      hide BucketKey;
      var executeTime := job.executeAt;
      var currentMinute := FloorMinute(now);
      var executeMinute := FloorMinute(executeTime);
      if executeMinute < currentMinute || executeMinute == currentMinute {
        executeTime := (currentMinute + 1) * MINUTE;
        job.executeAt := executeTime;
      }
      ok := PutJob(job, create);
      if !ok {
        return;
      }
      if push != Refused {
        lists := RPush(lists, BucketKey(executeTime, offset, node), job.id);
      }
      ok := push == Done;
    }

    /** The three clock readings: for the delay, for the record, and ScheduleJob's own. */
    method ScheduleWithDelay(id: Id, name: string, queue: string, delaySeconds: int, details: string,
                             clock: int, created: int, now: int, create: Outcome, push: Outcome)
      returns (job: ScheduledJob?)
      modifies this`lists, this`records
      ensures var asked := Job(id, name, queue, details, clock + delaySeconds * SECOND, created, created,
        JobStatus.Scheduled);
        && View() == ScheduledIn(old(View()), asked, now, create, push, node, offset)
        && (job != null <==> create == Done && push == Done)
        && (job != null ==> fresh(job) && job.View() == asked.(executeAt := ChosenTime(asked.executeAt, now)))
    {
      hide BucketKey, ChosenTime, ScheduledIn;
      var newJob := new ScheduledJob(id, name, queue, clock + delaySeconds * SECOND, details, created);
      var ok := ScheduleJob(newJob, now, create, push);
      job := if ok then newJob else null;
    }

    // ---------- sweeping ----------

    /** Only a failed read or a failed send stops it; errors of the status writes are logged and ignored. */
    method ProcessJob(id: Id, tempKey: string, a: Attempt)
      requires Filed(View())
      modifies this`lists, this`records, this`sent, this`dropped
      ensures View() == Processed(old(View()), id, tempKey, a)
      ensures records.Keys == old(records).Keys && forall x :: x in records && x != id ==> records[x] == old(records)[x]
      ensures id in records ==>
        var job := old(records)[id];
        records[id] == if a.found && a.send == Done && a.completing != Refused
          then job.(status := JobStatus.Completed, updatedAt := a.later)
          else if a.found && a.running != Refused then job.(status := JobStatus.Running, updatedAt := a.now)
          else job
      ensures var read := id in records && a.found;
        && dropped == old(dropped) + (if read then [] else [id])
        && (read && a.send != Refused ==> sent == old(sent) + [Sent(id, records[id].queue, records[id].details)])
        && (!read || a.send == Refused ==> sent == old(sent))
        && lists == if a.removal == Refused || (read && a.send != Done) then old(lists)
                    else old(lists)[tempKey := RemoveFirst(Items(old(lists), tempKey), id)]
    {
      if id !in records || !a.found {
        LRemOne(tempKey, id, a.removal);
        dropped := dropped + [id];
        return;
      }
      var job := new ScheduledJob.Unmarshal(records[id]);
      job.status := JobStatus.Running;
      job.updatedAt := a.now;
      var _ := PutJob(job, a.running);
      var ok := SendToQueue(job, a.send);
      if !ok {
        return;
      }
      job.status := JobStatus.Completed;
      job.updatedAt := a.later;
      var _ := PutJob(job, a.completing);
      LRemOne(tempKey, id, a.removal);
    }

    /** The loop of a sweep over the ids it was handed. */
    method ProcessJobs(ids: seq<Id>, tempKey: string, attempts: nat -> Attempt)
      requires Filed(View())
      modifies this`lists, this`records, this`sent, this`dropped
      ensures View() == ProcessedAll(old(View()), ids, tempKey, attempts, |ids|)
    {
      hide Processed, Filed;
      for i := 0 to |ids|
        invariant View() == ProcessedAll(old(View()), ids, tempKey, attempts, i)
        invariant Filed(View())
      {
        ProcessJob(ids[i], tempKey, attempts(i));
        ProcessedAllConserves(old(View()), ids, tempKey, attempts, i + 1, ids[i]);
      }
    }

    /** LLEN, then the script, then the jobs it returned. */
    method SweepBucket(bucketKey: string, tempKey: string, f: Faults)
      requires Filed(View()) && bucketKey != tempKey
      modifies this`lists, this`records, this`sent, this`dropped
      ensures View() == Swept(old(View()), bucketKey, tempKey, f)
    {
      if !f.queried || Items(lists, bucketKey) == [] {
        return;
      }
      var ids := Items(lists, bucketKey);
      if f.transfer != Refused {
        lists := Transfer(lists, bucketKey, tempKey);
      }
      if f.transfer != Done {
        return;
      }
      ProcessJobs(ids, tempKey, f.attempts);
    }

    method ProcessCurrentMinuteBucket(clock: int, f: Faults)
      requires Filed(View())
      modifies this`lists, this`records, this`sent, this`dropped
      ensures View() == MainSweep(old(View()), clock, f, node, offset)
      ensures var time := clock / 60_000 * 60_000;
        View() == Swept(old(View()), BucketKey(time, offset, node), TempKey(time, offset, node), f)
    {
      hide BucketKey, TempKey, Swept, Filed;
      var currentTime := FloorMinute(clock) * MINUTE;
      BucketIsNeverTemp(currentTime, currentTime, offset, offset, node, node);
      SweepBucket(BucketKey(currentTime, offset, node), TempKey(currentTime, offset, node), f);
    }

    method ProcessLateArrivals(clock: int, f: Faults)
      requires Filed(View())
      modifies this`lists, this`records, this`sent, this`dropped
      ensures View() == LateSweep(old(View()), clock, f, node, offset)
      ensures var time := (clock - 60_000) / 60_000 * 60_000;
        View() == Swept(old(View()), BucketKey(time, offset, node), TempKey(time, offset, node), f)
    {
      hide BucketKey, TempKey, Swept, Filed;
      var previousMinute := FloorMinute(clock - MINUTE) * MINUTE;
      BucketIsNeverTemp(previousMinute, previousMinute, offset, offset, node, node);
      SweepBucket(BucketKey(previousMinute, offset, node), TempKey(previousMinute, offset, node), f);
    }

    method CleanupMissedJobs(clock: int, f: Faults)
      requires Filed(View())
      modifies this`lists, this`records, this`sent, this`dropped
      ensures View() == CleanupSweep(old(View()), clock, f, node, offset)
      ensures View() == CleanedUp(old(View()), TempKey((clock - 300_000) / 60_000 * 60_000, offset, node), f)
    {
      hide BucketKey, TempKey, Filed;
      var tempKey := TempKey(FloorMinute(clock - 5 * MINUTE) * MINUTE, offset, node);
      if !f.queried {
        return;
      }
      ProcessJobs(Items(lists, tempKey), tempKey, f.attempts);
    }
  }
}
