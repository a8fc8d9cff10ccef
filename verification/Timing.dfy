/** Clock arithmetic of ScheduleJob and of the three cron sweeps. Times are Unix milliseconds and may be
    negative; truncation to the minute floors, as Go's Truncate does for every time after year 1. */
module Timing {

  const MINUTE := 60_000
  const SECOND := 1_000

  function FloorMinute(time: int): int { time / MINUTE }

  /** The execution time ScheduleJob settles on: a current or past minute moves to the next minute. */
  function ChosenTime(executeAt: int, now: int): int {
    if FloorMinute(executeAt) <= FloorMinute(now) then (FloorMinute(now) + 1) * MINUTE else executeAt
  }

  /** The minute of the bucket the job id is pushed to. */
  function BucketMinute(executeAt: int, now: int): int { FloorMinute(ChosenTime(executeAt, now)) }

  /** The minutes the sweeps look at, from the clock they read. */
  function MainMinute(clock: int): int { FloorMinute(clock) }
  function LateMinute(clock: int): int { FloorMinute(clock - MINUTE) }
  function CleanupMinute(clock: int): int { FloorMinute(clock - 5 * MINUTE) }

  /** Whatever the requested time, the bucket is strictly after the minute of the clock read, it is never
      before the requested minute, and a job asked for a later minute keeps its time. */
  lemma BucketIsAhead(executeAt: int, now: int)
    ensures BucketMinute(executeAt, now) > FloorMinute(now)
    ensures BucketMinute(executeAt, now) >= FloorMinute(executeAt)
    ensures FloorMinute(executeAt) > FloorMinute(now) <==> ChosenTime(executeAt, now) == executeAt
    ensures FloorMinute(executeAt) <= FloorMinute(now) ==> BucketMinute(executeAt, now) == FloorMinute(now) + 1
  {
    assert ((FloorMinute(now) + 1) * MINUTE) / MINUTE == FloorMinute(now) + 1;
  }

  /** A delay with both clock reads equal starts its bucket within a minute of the due time, on either side. */
  lemma DelayWithinAMinute(now: int, delay: int)
    requires delay >= 0
    ensures now + delay - MINUTE < BucketMinute(now + delay, now) * MINUTE <= now + delay + MINUTE
    ensures delay >= MINUTE ==> ChosenTime(now + delay, now) == now + delay
    ensures delay >= MINUTE ==> BucketMinute(now + delay, now) * MINUTE <= now + delay
  {
    BucketIsAhead(now + delay, now);
  }

  /** Between them the sweeps visit a minute at the minute itself, one minute on and five minutes on. */
  lemma SweepMinutes(clock: int, minute: int)
    ensures MainMinute(clock) == minute <==> minute * MINUTE <= clock < (minute + 1) * MINUTE
    ensures LateMinute(clock) == minute <==> FloorMinute(clock) == minute + 1
    ensures CleanupMinute(clock) == minute <==> FloorMinute(clock) == minute + 5
  {
  }
}
