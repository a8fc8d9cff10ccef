/** executeDelay of internal/service/action_executor.go over the scheduler: what becomes of a delay in nanoseconds, up
    to the minute whose bucket holds its job. */
module ActionExecutor {
  import opened Options
  import opened Keys
  import opened RedisLists
  import opened Remote
  import opened SchedulerStore
  import opened SchedulerRuns
  import opened Timing
  import E = Executor
  import S = Scheduler

  /** In milliseconds, the start of the bucket of a job scheduled for k seconds after `clock`, the whole seconds of a
      delay of d nanoseconds: behind the clock read last; never after the delay has passed, unless it is the very
      next minute; and 61 s before that moment at the earliest. */
  lemma BucketOfDelay(d: int, k: int, clock: int, now: int) returns (start: int)
    requires k * 1_000_000_000 <= d < (k + 1) * 1_000_000_000
    ensures start % 60_000 == 0 && start / 60_000 == ChosenTime(clock + k * 1000, now) / 60_000
    ensures now < start
    ensures start * 1_000_000 <= clock * 1_000_000 + d || start <= now + 60_000
    ensures clock * 1_000_000 + d < (start + 61_000) * 1_000_000
  {
    start := BucketMinute(clock + k * 1000, now) * MINUTE;
    BucketIsAhead(clock + k * 1000, now);
  }

  /** A delay under a minute sleeps here, for its whole seconds; a longer one is handed to the scheduler. The last
      three results and the environment's answers are those of ScheduleWithDelay. */
  method ExecuteDelay(scheduler: S.Scheduler, duration: Option<int>, runId: string, id: Id, details: string,
                      clock: int, created: int, now: int, create: Outcome, push: Outcome)
    returns (ok: bool, slept: int, ghost start: int)
    requires scheduler.offset % 60 == 0
    modifies scheduler`lists, scheduler`records
    ensures ok <==> duration.Some? && (duration.value < 60_000_000_000 || (create == Done && push == Done))
    ensures duration == None || duration.value < 60_000_000_000 ==> scheduler.View() == old(scheduler.View())
    ensures duration.Some? && 0 <= duration.value < 60_000_000_000 ==>
      slept * 1_000_000_000 <= duration.value < (slept + 1) * 1_000_000_000
    ensures duration == None || duration.value < 0 || duration.value >= 60_000_000_000 ==> slept <= 0
    ensures duration.Some? && duration.value >= 60_000_000_000 ==>
      && start % 60_000 == 0 && now < start
      && (start * 1_000_000 <= clock * 1_000_000 + duration.value || start <= now + 60_000)
      && clock * 1_000_000 + duration.value < (start + 61_000) * 1_000_000
    ensures duration.Some? && duration.value >= 60_000_000_000 && create != Refused ==>
      && id in scheduler.records
      && var job := scheduler.records[id];
         && job.name == "workflow-resume-" + runId && job.queue == "executor-queue" && job.details == details
         && job.status == JobStatus.Scheduled && job.createdAt == created
         && job.executeAt / 60_000 == start / 60_000 && scheduler.records == old(scheduler.records)[id := job]
    ensures duration.Some? && duration.value >= 60_000_000_000 && create == Done && push != Refused ==>
      var key := BucketKey(start, scheduler.offset, scheduler.node);
      scheduler.lists == old(scheduler.lists)[key := Items(old(scheduler.lists), key) + [id]]
    ensures create != Done || push == Refused ==> scheduler.lists == old(scheduler.lists)
  {
    hide BucketKey, ChosenTime, E.DelaySeconds;
    slept, start := 0, 0;
    if duration == None {
      return false, slept, start;
    }
    E.WholeSeconds(duration.value);
    var delaySeconds := E.DelaySeconds(duration.value);
    if delaySeconds < E.SHORTEST_SCHEDULED {
      return true, delaySeconds, start;
    }
    start := BucketOfDelay(duration.value, delaySeconds, clock, now);
    ghost var time := ChosenTime(clock + delaySeconds * SECOND, now);
    BucketKeyInjective(time, start, scheduler.offset, scheduler.node);
    var job := scheduler.ScheduleWithDelay(id, "workflow-resume-" + runId, "executor-queue", delaySeconds, details,
      clock, created, now, create, push);
    ok := job != null;
  }
}
