/** The scheduler's code refines the step system: whatever fails, the effect of each of its methods on textual lists is
    the effect of a sequence of steps on symbolic ones, so what holds of every interleaving of steps holds of the
    code. */
module SchedulerRefinement {
  import opened RedisLists
  import opened Remote
  import opened Timing
  import opened Keys
  import opened SchedulerStore
  import opened SchedulerRuns
  import Steps = SchedulerSteps

  /** The same lists under textual keys, the same records, the same ids sent and dropped. */
  ghost predicate Related(s: Steps.State, st: Store, node: string, offset: int) {
    && RelatedLists(s.lists, st.lists, node, offset)
    && s.records == st.records.Keys
    && RelatedLogs(s, st)
  }

  ghost predicate RelatedLists(lists: Lists<Steps.Key>, texts: Lists<string>, node: string, offset: int) {
    forall k :: Items(lists, k) == Items(texts, KeyText(k, node, offset))
  }

  ghost predicate RelatedLogs(s: Steps.State, st: Store) {
    forall id :: (id in s.sent <==> SendCount(st.sent, id) > 0) && (id in s.dropped <==> id in st.dropped)
  }

  /** The labels can be taken one after another from s and lead to t. */
  ghost predicate Leads(s: Steps.State, labels: seq<Steps.Label>, t: Steps.State)
    decreases |labels|
  {
    if labels == [] then s == t
    else Steps.Enabled(s, labels[0]) && Leads(Steps.Step(s, labels[0]), labels[1..], t)
  }

  lemma {:induction false} LeadsOn(s: Steps.State, first: seq<Steps.Label>, t: Steps.State, second: seq<Steps.Label>,
      u: Steps.State)
    requires Leads(s, first, t) && Leads(t, second, u)
    ensures Leads(s, first + second, u)
    decreases |first|
  {
    hide Steps.Step, Steps.Enabled;
    if first == [] {
      assert first + second == second;
    } else {
      LeadsOn(Steps.Step(s, first[0]), first[1..], t, second, u);
      assert (first + second)[1..] == first[1..] + second;
    }
  }

  lemma LeadsOne(s: Steps.State, l: Steps.Label)
    requires Steps.Enabled(s, l)
    ensures Leads(s, [l], Steps.Step(s, l))
  {
    hide Steps.Step, Steps.Enabled;
    assert [l][1..] == [];
  }

  // ---------- the effects on lists ----------

  lemma LRemRelated(lists: Lists<Steps.Key>, texts: Lists<string>, k: Steps.Key, id: Id, node: string, offset: int)
    requires RelatedLists(lists, texts, node, offset)
    ensures RelatedLists(LRem(lists, k, id), LRem(texts, KeyText(k, node, offset), id), node, offset)
  {
    hide KeyText, RemoveFirst;
    forall j ensures Items(LRem(lists, k, id), j) == Items(LRem(texts, KeyText(k, node, offset), id),
      KeyText(j, node, offset)) {
      KeyTextInjective(j, k, node, offset);
    }
  }

  lemma RPushRelated(lists: Lists<Steps.Key>, texts: Lists<string>, k: Steps.Key, id: Id, node: string, offset: int)
    requires RelatedLists(lists, texts, node, offset)
    ensures RelatedLists(RPush(lists, k, id), RPush(texts, KeyText(k, node, offset), id), node, offset)
  {
    hide KeyText;
    forall j ensures Items(RPush(lists, k, id), j) == Items(RPush(texts, KeyText(k, node, offset), id),
      KeyText(j, node, offset)) {
      KeyTextInjective(j, k, node, offset);
    }
  }

  lemma TransferRelated(lists: Lists<Steps.Key>, texts: Lists<string>, minute: int, node: string, offset: int)
    requires RelatedLists(lists, texts, node, offset)
    ensures RelatedLists(Transfer(lists, Steps.Bucket(minute), Steps.Temp(minute)),
                         Transfer(texts, KeyText(Steps.Bucket(minute), node, offset),
                           KeyText(Steps.Temp(minute), node, offset)), node, offset)
  {
    hide KeyText, Transfer;
    var b, t := Steps.Bucket(minute), Steps.Temp(minute);
    KeyTextInjective(b, t, node, offset);
    TransferFrame(texts, KeyText(b, node, offset), KeyText(t, node, offset));
    forall j ensures Items(Transfer(lists, b, t), j)
                  == Items(Transfer(texts, KeyText(b, node, offset), KeyText(t, node, offset)),
                    KeyText(j, node, offset)) {
      KeyTextInjective(j, b, node, offset);
      KeyTextInjective(j, t, node, offset);
      TransferMoves(lists, b, t, if j == b || j == t then Steps.Bucket(minute + 1) else j);
    }
  }

  // ---------- one job ----------

  /** The remote calls of processJob that touch a list or the queue. */
  function JobLabels(w: nat, found: bool, a: Attempt): seq<Steps.Label> {
    if !found then [Steps.Fetch(w, false, a.removal)]
    else if a.send != Done then [Steps.Fetch(w, true, Done), Steps.Send(w, a.send)]
    else [Steps.Fetch(w, true, Done), Steps.Send(w, Done), Steps.Remove(w, a.removal)]
  }

  ghost predicate AtJob(s: Steps.State, w: nat, id: Id) {
    w in s.sweeps && s.sweeps[w].todo != [] && s.sweeps[w].todo[0] == id && s.sweeps[w].pc == Steps.Fetching
  }

  /** processJob is its read, send and removal steps, for every way its calls may end. */
  lemma ProcessJobRefines(s: Steps.State, st: Store, w: nat, id: Id, a: Attempt, node: string, offset: int)
      returns (t: Steps.State)
    requires Related(s, st, node, offset) && Filed(st) && AtJob(s, w, id)
    ensures Leads(s, JobLabels(w, id in st.records && a.found, a), t)
    ensures Related(t, Processed(st, id, KeyText(Steps.Temp(s.sweeps[w].temp), node, offset), a), node, offset)
    ensures t.sweeps == s.sweeps[w := Steps.Next(s.sweeps[w])]
  {
    hide KeyText, Related, Processed, Leads;
    if id !in st.records || !a.found {
      t := DropRefines(s, st, w, id, a, node, offset);
    } else if a.send != Done {
      t := FailedSendRefines(s, st, w, id, a, node, offset);
    } else {
      t := SendRefines(s, st, w, id, a, node, offset);
    }
  }

  lemma DropRefines(s: Steps.State, st: Store, w: nat, id: Id, a: Attempt, node: string, offset: int)
      returns (t: Steps.State)
    requires Related(s, st, node, offset) && Filed(st) && AtJob(s, w, id) && (id !in st.records || !a.found)
    ensures Leads(s, [Steps.Fetch(w, false, a.removal)], t)
    ensures Related(t, Processed(st, id, KeyText(Steps.Temp(s.sweeps[w].temp), node, offset), a), node, offset)
    ensures t.sweeps == s.sweeps[w := Steps.Next(s.sweeps[w])]
  {
    hide KeyText, LRem, SendCount, RelatedLists;
    LeadsOne(s, Steps.Fetch(w, false, a.removal));
    t := Steps.Step(s, Steps.Fetch(w, false, a.removal));
    LRemRelated(s.lists, st.lists, Steps.Temp(s.sweeps[w].temp), id, node, offset);
  }

  /** Read, and an attempt to send. */
  lemma ReadAndSend(s: Steps.State, st: Store, w: nat, id: Id, a: Attempt, node: string, offset: int)
      returns (t: Steps.State)
    requires Related(s, st, node, offset) && Filed(st) && AtJob(s, w, id) && id in st.records && a.found
    ensures Leads(s, [Steps.Fetch(w, true, Done), Steps.Send(w, a.send)], t)
    ensures var job := st.records[id].(status := Running, updatedAt := a.now);
      Related(t, Delivered(Put(st, job, a.running), job, a.send), node, offset)
    ensures t.sweeps == s.sweeps[w := if a.send == Done
      then s.sweeps[w].(pc := Steps.Removing) else Steps.Next(s.sweeps[w])]
  {
    hide KeyText, RelatedLists, SendCount;
    var read := Steps.Step(s, Steps.Fetch(w, true, Done));
    LeadsOne(s, Steps.Fetch(w, true, Done));
    LeadsOne(read, Steps.Send(w, a.send));
    t := Steps.Step(read, Steps.Send(w, a.send));
    LeadsOn(s, [Steps.Fetch(w, true, Done)], read, [Steps.Send(w, a.send)], t);
    assert [Steps.Fetch(w, true, Done)] + [Steps.Send(w, a.send)]
      == [Steps.Fetch(w, true, Done), Steps.Send(w, a.send)];
    var job := st.records[id].(status := Running, updatedAt := a.now);
    forall x { SendCountAppend(st.sent, Sent(job.id, job.queue, job.details), x); }
  }

  lemma FailedSendRefines(s: Steps.State, st: Store, w: nat, id: Id, a: Attempt, node: string, offset: int)
      returns (t: Steps.State)
    requires Related(s, st, node, offset) && Filed(st) && AtJob(s, w, id) && id in st.records && a.found
      && a.send != Done
    ensures Leads(s, [Steps.Fetch(w, true, Done), Steps.Send(w, a.send)], t)
    ensures Related(t, Processed(st, id, KeyText(Steps.Temp(s.sweeps[w].temp), node, offset), a), node, offset)
    ensures t.sweeps == s.sweeps[w := Steps.Next(s.sweeps[w])]
  {
    hide KeyText, Related, Leads, Put, Delivered;
    t := ReadAndSend(s, st, w, id, a, node, offset);
  }

  lemma SendRefines(s: Steps.State, st: Store, w: nat, id: Id, a: Attempt, node: string, offset: int)
      returns (t: Steps.State)
    requires Related(s, st, node, offset) && Filed(st) && AtJob(s, w, id) && id in st.records && a.found
      && a.send == Done
    ensures Leads(s, [Steps.Fetch(w, true, Done), Steps.Send(w, Done), Steps.Remove(w, a.removal)], t)
    ensures Related(t, Processed(st, id, KeyText(Steps.Temp(s.sweeps[w].temp), node, offset), a), node, offset)
    ensures t.sweeps == s.sweeps[w := Steps.Next(s.sweeps[w])]
  {
    hide KeyText, Related, Leads, Delivered, Put, Removed;
    var u := ReadAndSend(s, st, w, id, a, node, offset);
    var job := st.records[id].(status := Running, updatedAt := a.now);
    var sent := Delivered(Put(st, job, a.running), job, a.send);
    KeepsRecordId(st, job, a);
    t := RemoveRefines(u, sent, w, job.(status := Completed, updatedAt := a.later), a, node, offset);
    LeadsOn(s, [Steps.Fetch(w, true, Done), Steps.Send(w, Done)], u, [Steps.Remove(w, a.removal)], t);
    assert [Steps.Fetch(w, true, Done), Steps.Send(w, Done)] + [Steps.Remove(w, a.removal)]
        == [Steps.Fetch(w, true, Done), Steps.Send(w, Done), Steps.Remove(w, a.removal)];
  }

  lemma KeepsRecordId(st: Store, job: Job, a: Attempt)
    requires Filed(st) && job.id in st.records
    ensures job.id in Delivered(Put(st, job, a.running), job, a.send).records
  {
  }

  /** The write of COMPLETED and the removal. */
  lemma RemoveRefines(u: Steps.State, st: Store, w: nat, done: Job, a: Attempt, node: string, offset: int)
      returns (t: Steps.State)
    requires Related(u, st, node, offset) && done.id in st.records
    requires w in u.sweeps && u.sweeps[w].todo != [] && u.sweeps[w].todo[0] == done.id
      && u.sweeps[w].pc == Steps.Removing
    ensures Leads(u, [Steps.Remove(w, a.removal)], t)
    ensures Related(t, Removed(Put(st, done, a.completing), KeyText(Steps.Temp(u.sweeps[w].temp), node, offset),
      done.id, a.removal), node, offset)
    ensures t.sweeps == u.sweeps[w := Steps.Next(u.sweeps[w])]
  {
    hide KeyText, LRem, SendCount, RelatedLists;
    LeadsOne(u, Steps.Remove(w, a.removal));
    t := Steps.Step(u, Steps.Remove(w, a.removal));
    LRemRelated(u.lists, st.lists, Steps.Temp(u.sweeps[w].temp), done.id, node, offset);
  }

  // ---------- whole calls ----------

  /** The sweep w has the ids still to do. */
  ghost predicate Sweeping(s: Steps.State, w: nat, temp: int, ids: seq<Id>) {
    w in s.sweeps && s.sweeps[w] == Steps.Sweep(temp, ids, Steps.Fetching)
  }

  lemma {:induction false} JobsRefine(s: Steps.State, st: Store, w: nat, temp: int, ids: seq<Id>,
      attempts: nat -> Attempt, n: nat, node: string, offset: int) returns (labels: seq<Steps.Label>, t: Steps.State)
    requires Related(s, st, node, offset) && Filed(st) && Sweeping(s, w, temp, ids) && n <= |ids|
    ensures Leads(s, labels, t)
    ensures Related(t, ProcessedAll(st, ids, KeyText(Steps.Temp(temp), node, offset), attempts, n), node, offset)
    ensures Sweeping(t, w, temp, ids[n..]) && t.sweeps.Keys == s.sweeps.Keys
  {
    hide KeyText, Related, Leads, Processed, Filed;
    if n == 0 {
      labels, t := [], s;
      NoSteps(s);
      assert ids[0..] == ids;
    } else {
      var key, id := KeyText(Steps.Temp(temp), node, offset), ids[n - 1];
      var front, u := JobsRefine(s, st, w, temp, ids, attempts, n - 1, node, offset);
      var before := ProcessedAll(st, ids, key, attempts, n - 1);
      ProcessedAllConserves(st, ids, key, attempts, n - 1, id);
      assert ids[n - 1..][1..] == ids[n..];
      t := ProcessJobRefines(u, before, w, id, attempts(n - 1), node, offset);
      var last := JobLabels(w, id in before.records && attempts(n - 1).found, attempts(n - 1));
      LeadsOn(s, front, u, last, t);
      labels := front + last;
    }
  }

  lemma NoSteps(s: Steps.State)
    ensures Leads(s, [], s)
  {
  }

  /** The main and the late sweep are a Move and the steps of the jobs it returned. */
  lemma SweepRefines(s: Steps.State, st: Store, w: nat, tick: Steps.Tick, clock: int, f: Faults, node: string,
      offset: int)
    returns (labels: seq<Steps.Label>, t: Steps.State)
    requires Related(s, st, node, offset) && Filed(st) && w !in s.sweeps
    ensures Leads(s, labels, t)
    ensures var minute := Steps.SweptMinute(tick, clock);
      Related(t, Swept(st, KeyText(Steps.Bucket(minute), node, offset), KeyText(Steps.Temp(minute), node, offset), f),
        node, offset)
    ensures t.sweeps.Keys <= s.sweeps.Keys + {w}
  {
    hide KeyText, Leads, ProcessedAll, Filed, SendCount, RelatedLogs, Transfer, RelatedLists;
    var minute := Steps.SweptMinute(tick, clock);
    var b, temp := KeyText(Steps.Bucket(minute), node, offset), KeyText(Steps.Temp(minute), node, offset);
    var ids := Items(st.lists, b);
    SameItems(s, st, Steps.Bucket(minute), node, offset);
    if !f.queried || ids == [] || f.transfer == Refused {
      labels, t := [], s;
      NoSteps(s);
    } else {
      var u := Steps.Step(s, Steps.Move(w, tick, clock, f.transfer));
      var moved := st.(lists := Transfer(st.lists, b, temp));
      LeadsOne(s, Steps.Move(w, tick, clock, f.transfer));
      TransferRelated(s.lists, st.lists, minute, node, offset);
      SameLogs(s, st, u, moved);
      if f.transfer == Done {
        FiledFrame(st, moved);
        var rest;
        rest, t := JobsRefine(u, moved, w, minute, ids, f.attempts, |ids|, node, offset);
        LeadsOn(s, [Steps.Move(w, tick, clock, f.transfer)], u, rest, t);
        labels := [Steps.Move(w, tick, clock, f.transfer)] + rest;
      } else {
        labels, t := [Steps.Move(w, tick, clock, f.transfer)], u;
      }
    }
  }

  lemma SameItems(s: Steps.State, st: Store, k: Steps.Key, node: string, offset: int)
    requires Related(s, st, node, offset)
    ensures Items(s.lists, k) == Items(st.lists, KeyText(k, node, offset))
  {
    hide KeyText;
  }

  lemma SameLogs(s: Steps.State, st: Store, t: Steps.State, u: Store)
    requires RelatedLogs(s, st) && t.sent == s.sent && t.dropped == s.dropped && u.sent == st.sent
      && u.dropped == st.dropped
    ensures RelatedLogs(t, u)
  {
    hide SendCount;
  }

  lemma FiledFrame(st: Store, u: Store)
    requires Filed(st) && u.records == st.records
    ensures Filed(u)
  {
  }

  /** The cleanup sweep is a Cleanup and the steps of the jobs it read. */
  lemma CleanupRefines(s: Steps.State, st: Store, w: nat, clock: int, f: Faults, node: string, offset: int)
    returns (labels: seq<Steps.Label>, t: Steps.State)
    requires Related(s, st, node, offset) && Filed(st) && w !in s.sweeps
    ensures Leads(s, labels, t)
    ensures Related(t, CleanedUp(st, KeyText(Steps.Temp(CleanupMinute(clock)), node, offset), f), node, offset)
    ensures t.sweeps.Keys <= s.sweeps.Keys + {w}
  {
    hide KeyText, Leads, ProcessedAll, Filed, SendCount, RelatedLogs, RelatedLists;
    var minute := CleanupMinute(clock);
    SameItems(s, st, Steps.Temp(minute), node, offset);
    if !f.queried {
      labels, t := [], s;
      NoSteps(s);
    } else {
      var u := Steps.Step(s, Steps.Cleanup(w, clock));
      LeadsOne(s, Steps.Cleanup(w, clock));
      SameLogs(s, st, u, st);
      var ids := Items(st.lists, KeyText(Steps.Temp(minute), node, offset));
      var rest;
      rest, t := JobsRefine(u, st, w, minute, ids, f.attempts, |ids|, node, offset);
      LeadsOn(s, [Steps.Cleanup(w, clock)], u, rest, t);
      labels := [Steps.Cleanup(w, clock)] + rest;
    }
  }

  function ScheduleLabels(job: Job, now: int, create: Outcome, push: Outcome): seq<Steps.Label> {
    match create
    case Refused => []
    case Unclear => [Steps.Create(job.id)]
    case Done => [Steps.Create(job.id), Steps.Push(job.id, job.executeAt, now, push)]
  }

  /** ScheduleJob is the creation of the record and the push. */
  lemma ScheduleRefines(s: Steps.State, st: Store, job: Job, now: int, create: Outcome, push: Outcome, node: string,
      offset: int)
    returns (t: Steps.State)
    requires Related(s, st, node, offset) && job.id !in st.records && job.id !in s.pushed && offset % 60 == 0
    ensures Leads(s, ScheduleLabels(job, now, create, push), t)
    ensures Related(t, ScheduledIn(st, job, now, create, push, node, offset), node, offset)
    ensures t.sweeps == s.sweeps
    ensures create == Done && push != Refused ==>
      job.id in t.pushed && t.pushed[job.id] == BucketMinute(job.executeAt, now)
  {
    hide KeyText, BucketKey, RPush, SendCount, RelatedLists, ChosenTime;
    if create == Refused {
      t := s;
    } else {
      LeadsOne(s, Steps.Create(job.id));
      t := Steps.Step(s, Steps.Create(job.id));
      if create == Done {
        var l := Steps.Push(job.id, job.executeAt, now, push);
        var u := Steps.Step(t, l);
        LeadsOne(t, l);
        LeadsOn(s, [Steps.Create(job.id)], t, [l], u);
        assert [Steps.Create(job.id)] + [l] == [Steps.Create(job.id), l];
        PushKey(job, now, node, offset);
        RPushRelated(s.lists, st.lists, Steps.Bucket(BucketMinute(job.executeAt, now)), job.id, node, offset);
        t := u;
      }
    }
  }

  /** The bucket of the exact time is the bucket of its minute. */
  lemma PushKey(job: Job, now: int, node: string, offset: int)
    requires offset % 60 == 0
    ensures BucketKey(ChosenTime(job.executeAt, now), offset, node)
      == KeyText(Steps.Bucket(BucketMinute(job.executeAt, now)), node, offset)
  {
    hide BucketKey;
    var time := ChosenTime(job.executeAt, now);
    BucketKeyInjective(time, FloorMinute(time) * MINUTE, offset, node);
  }

  // ---------- runs of the code ----------

  /** Calls one after another, their remote calls ending in any way; new jobs have new ids. */
  ghost predicate IsCodeRun(stores: seq<Store>, calls: seq<Op>, node: string, offset: int) {
    && |stores| == |calls| + 1 && stores[0] == Store(map[], map[], [], [])
    && forall k :: 0 <= k < |calls| ==>
         (calls[k].Schedule? ==> calls[k].job.id !in stores[k].records)
           && stores[k + 1] == After(stores[k], calls[k], node, offset)
  }

  /** The call whose push takes effect, reported or not. */
  predicate Pushes(c: Op) { c.Schedule? && c.create == Done && c.push != Refused }

  lemma CallRefines(s: Steps.State, st: Store, c: Op, w: nat, node: string, offset: int)
      returns (labels: seq<Steps.Label>, t: Steps.State)
    requires Related(s, st, node, offset) && Filed(st) && offset % 60 == 0 && w !in s.sweeps
      && s.pushed.Keys <= s.records
    requires c.Schedule? ==> c.job.id !in st.records
    ensures Leads(s, labels, t) && Related(t, After(st, c, node, offset), node, offset)
    ensures t.sweeps.Keys <= s.sweeps.Keys + {w}
    ensures Pushes(c) ==> c.job.id in t.pushed && t.pushed[c.job.id] == BucketMinute(c.job.executeAt, c.now)
  {
    hide Leads, ScheduledIn, Swept, CleanedUp, BucketKey, TempKey;
    match c
    case Schedule(job, now, create, push) =>
      t := ScheduleRefines(s, st, job, now, create, push, node, offset);
      labels := ScheduleLabels(job, now, create, push);
    case Main(clock, f) => labels, t := SweepRefines(s, st, w, Steps.Main, clock, f, node, offset);
    case Late(clock, f) => labels, t := SweepRefines(s, st, w, Steps.Late, clock, f, node, offset);
    case Cleanup(clock, f) => labels, t := CleanupRefines(s, st, w, clock, f, node, offset);
  }

  lemma {:induction false} LeadsKeepsInv(s: Steps.State, labels: seq<Steps.Label>, t: Steps.State)
    requires Leads(s, labels, t) && Steps.Inv(s) && Steps.Accounted(s)
    ensures Steps.Inv(t) && Steps.Accounted(t)
    decreases |labels|
  {
    hide Steps.Step, Steps.Enabled, Steps.Inv, Steps.Accounted;
    if labels != [] {
      Steps.StepKeepsInv(s, labels[0]);
      Steps.StepKeepsAccounted(s, labels[0]);
      LeadsKeepsInv(Steps.Step(s, labels[0]), labels[1..], t);
    }
  }

  lemma CallKeepsFiled(st: Store, c: Op, node: string, offset: int)
    requires Filed(st)
    ensures Filed(After(st, c, node, offset))
  {
    hide BucketKey, TempKey, Filed, Swept, CleanedUp;
    match c
    case Schedule(job, now, create, push) => ScheduledFiled(st, job, now, create, push, node, offset);
    case Main(clock, f) =>
      var time := MainMinute(clock) * MINUTE;
      BucketIsNeverTemp(time, time, offset, offset, node, node);
      SweepConserves(st, BucketKey(time, offset, node), TempKey(time, offset, node), f, "");
    case Late(clock, f) =>
      var time := LateMinute(clock) * MINUTE;
      BucketIsNeverTemp(time, time, offset, offset, node, node);
      SweepConserves(st, BucketKey(time, offset, node), TempKey(time, offset, node), f, "");
    case Cleanup(clock, f) => CleanupFiled(st, TempKey(CleanupMinute(clock) * MINUTE, offset, node), f);
  }

  lemma ScheduledFiled(st: Store, job: Job, now: int, create: Outcome, push: Outcome, node: string, offset: int)
    requires Filed(st)
    ensures Filed(ScheduledIn(st, job, now, create, push, node, offset))
  {
    hide BucketKey, ChosenTime;
  }

  lemma CleanupFiled(st: Store, temp: string, f: Faults)
    requires Filed(st)
    ensures Filed(CleanedUp(st, temp, f))
  {
    hide Filed, ProcessedAll;
    ProcessedAllConserves(st, Items(st.lists, temp), temp, f.attempts, |Items(st.lists, temp)|, "");
  }

  lemma NothingYet(node: string, offset: int)
    ensures Related(Steps.INITIAL, Store(map[], map[], [], []), node, offset) && Steps.Inv(Steps.INITIAL)
      && Steps.Accounted(Steps.INITIAL)
    ensures Filed(Store(map[], map[], [], []))
  {
    hide KeyText;
  }

  lemma {:induction false} LeadsKeepsPushed(s: Steps.State, labels: seq<Steps.Label>, t: Steps.State)
    requires Leads(s, labels, t)
    ensures forall id :: id in s.pushed ==> id in t.pushed && t.pushed[id] == s.pushed[id]
    decreases |labels|
  {
    hide Steps.Enabled, Steps.Step;
    if labels != [] {
      StepKeepsPushed(s, labels[0]);
      LeadsKeepsPushed(Steps.Step(s, labels[0]), labels[1..], t);
    }
  }

  lemma StepKeepsPushed(s: Steps.State, l: Steps.Label)
    requires Steps.Enabled(s, l)
    ensures forall id :: id in s.pushed ==> id in Steps.Step(s, l).pushed && Steps.Step(s, l).pushed[id] == s.pushed[id]
  {
  }

  /** Every run of the code is matched by a run of the step system that has pushed what the code has. */
  lemma {:induction false} CodeRunRefines(stores: seq<Store>, calls: seq<Op>, n: nat, node: string, offset: int)
    returns (s: Steps.State)
    requires IsCodeRun(stores, calls, node, offset) && n < |stores| && offset % 60 == 0
    ensures Related(s, stores[n], node, offset) && Steps.Inv(s) && Steps.Accounted(s) && Filed(stores[n])
    ensures forall w :: w in s.sweeps ==> w < n
    ensures forall p :: 0 <= p < n && Pushes(calls[p])
              ==> calls[p].job.id in s.pushed
                  && s.pushed[calls[p].job.id] == BucketMinute(calls[p].job.executeAt, calls[p].now)
  {
    hide KeyText, Leads, After, Steps.Accounted, Filed, Steps.Inv;
    if n == 0 {
      NothingYet(node, offset);
      s := Steps.INITIAL;
    } else {
      var before := CodeRunRefines(stores, calls, n - 1, node, offset);
      PushedHaveRecords(before);
      var labels;
      labels, s := CallRefines(before, stores[n - 1], calls[n - 1], n - 1, node, offset);
      LeadsKeepsInv(before, labels, s);
      LeadsKeepsPushed(before, labels, s);
      CallKeepsFiled(stores[n - 1], calls[n - 1], node, offset);
    }
  }

  /** So the code conserves jobs: after any calls ending in any way, an id whose push took effect is in the textual
      bucket or TEMP list of its minute, or it was sent, or its record read failed. */
  lemma CodeConservesJobs(stores: seq<Store>, calls: seq<Op>, p: nat, n: nat, node: string, offset: int)
    requires IsCodeRun(stores, calls, node, offset) && p < n < |stores| && offset % 60 == 0 && Pushes(calls[p])
    ensures var id, time := calls[p].job.id, BucketMinute(calls[p].job.executeAt, calls[p].now) * MINUTE;
      || id in Items(stores[n].lists, BucketKey(time, offset, node))
      || id in Items(stores[n].lists, TempKey(time, offset, node))
      || SendCount(stores[n].sent, id) > 0 || id in stores[n].dropped
  {
    hide BucketKey, TempKey, After, Steps.Accounted, Filed;
    var s := CodeRunRefines(stores, calls, n, node, offset);
    var id, minute := calls[p].job.id, BucketMinute(calls[p].job.executeAt, calls[p].now);
    SameItems(s, stores[n], Steps.Bucket(minute), node, offset);
    SameItems(s, stores[n], Steps.Temp(minute), node, offset);
    assert Steps.Waiting(s, id) || id in s.sent || id in s.dropped;
  }

  lemma PushedHaveRecords(s: Steps.State)
    requires Steps.Accounted(s)
    ensures s.pushed.Keys <= s.records
  {
  }
}
