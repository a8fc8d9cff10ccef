/** internal/handler/signal_handler.go: a signal is answered by queueing one message per matching workflow, for its
    latest version, and only then saved. */
module SignalHandler {
  import opened Options
  import opened Remote
  import opened WorkflowCache
  import opened Signals
  import WM = WorkflowManager

  // ---------- the latest versions ----------

  predicate IsTop(workflows: seq<Workflow>, w: Workflow) {
    w in workflows && forall v :: v in workflows && v.id == w.id ==> v.version <= w.version
  }

  ghost predicate HasId(ws: seq<Workflow>, id: string) { exists w :: w in ws && w.id == id }

  /** Each workflow id that occurs, once, at its highest version. */
  ghost predicate IsLatest(workflows: seq<Workflow>, result: seq<Workflow>) {
    && (forall w :: w in result ==> IsTop(workflows, w))
    && (forall v :: v in workflows ==> HasId(result, v.id))
    && (forall i, j :: 0 <= i < j < |result| ==> result[i].id != result[j].id)
  }

  /** What the map holds after some of the workflows. */
  ghost predicate TopOfEach(workflows: seq<Workflow>, latest: map<string, Workflow>) {
    && (forall id :: id in latest ==> latest[id].id == id && IsTop(workflows, latest[id]))
    && (forall v :: v in workflows ==> v.id in latest)
  }

  lemma TopOfOneMore(front: seq<Workflow>, w: Workflow, latest: map<string, Workflow>)
    requires TopOfEach(front, latest)
    ensures TopOfEach(front + [w], if w.id !in latest || w.version > latest[w.id].version
      then latest[w.id := w] else latest)
  {
    var after := if w.id !in latest || w.version > latest[w.id].version then latest[w.id := w] else latest;
    forall id | id in after ensures after[id].id == id && IsTop(front + [w], after[id]) {
      assert id in latest ==> IsTop(front, latest[id]);
    }
  }

  /** A map from id to the best version so far, then the values of the map in any order. */
  method FilterLatestVersions(workflows: seq<Workflow>) returns (result: seq<Workflow>)
    ensures IsLatest(workflows, result)
  {
    var latestVersionMap: map<string, Workflow> := map[];
    for i := 0 to |workflows|
      invariant TopOfEach(workflows[..i], latestVersionMap)
    {
      var w := workflows[i];
      TopOfOneMore(workflows[..i], w, latestVersionMap);
      assert workflows[..i + 1] == workflows[..i] + [w];
      if w.id !in latestVersionMap || w.version > latestVersionMap[w.id].version {
        latestVersionMap := latestVersionMap[w.id := w];
      }
    }
    assert workflows[..|workflows|] == workflows;
    result := [];
    var rest := latestVersionMap.Keys;
    while rest != {}
      invariant rest <= latestVersionMap.Keys
      invariant forall w :: w in result <==> w.id in latestVersionMap && w.id !in rest && latestVersionMap[w.id] == w
      invariant forall i, j :: 0 <= i < j < |result| ==> result[i].id != result[j].id
      decreases |rest|
    {
      var id :| id in rest;
      rest := rest - {id};
      result := result + [latestVersionMap[id]];
    }
    forall v | v in workflows ensures HasId(result, v.id) {
      assert latestVersionMap[v.id] in result;
    }
  }

  ghost predicate Chooses(result: seq<Workflow>, id: string, version: int) {
    exists w :: w in result && w.id == id && w.version == version
  }

  /** The chosen ids and versions depend only on which workflows there are, not on their order or repetition, nor on
      the order the map is walked in. */
  lemma ChoiceIsOrderFree(a: seq<Workflow>, b: seq<Workflow>, r: seq<Workflow>, t: seq<Workflow>, id: string,
      version: int)
    requires IsLatest(a, r) && IsLatest(b, t) && forall w :: w in a <==> w in b
    ensures Chooses(r, id, version) <==> Chooses(t, id, version)
  {
    if Chooses(r, id, version) { ChosenToo(a, b, r, t, id, version); }
    if Chooses(t, id, version) { ChosenToo(b, a, t, r, id, version); }
  }

  lemma ChosenToo(a: seq<Workflow>, b: seq<Workflow>, r: seq<Workflow>, t: seq<Workflow>, id: string, version: int)
    requires IsLatest(a, r) && IsLatest(b, t) && (forall w :: w in a <==> w in b) && Chooses(r, id, version)
    ensures Chooses(t, id, version)
  {
    var w :| w in r && w.id == id && w.version == version;
    assert IsTop(a, w) && HasId(t, w.id);
    var v :| v in t && v.id == w.id;
    assert IsTop(b, v);
  }

  /** The result has a workflow of an id at a version exactly if that is the highest version of the id. */
  lemma ChoosesTheMaximum(a: seq<Workflow>, r: seq<Workflow>, id: string, version: int)
    requires IsLatest(a, r)
    ensures Chooses(r, id, version)
            <==> && (exists w :: w in a && w.id == id && w.version == version)
                 && (forall w :: w in a && w.id == id ==> w.version <= version)
  {
    if Chooses(r, id, version) {
      var w :| w in r && w.id == id && w.version == version;
      assert IsTop(a, w);
    }
    if w :| w in a && w.id == id && w.version == version && forall v :: v in a && v.id == id ==> v.version <= version {
      assert HasId(r, w.id);
      var v :| v in r && v.id == w.id;
      assert IsTop(a, v);
    }
  }

  // ---------- queueing ----------

  datatype Message = Message(signalId: string, workflowId: string, version: int)

  /** The messages that reach the queue, in order; `sends` says how each call ends. */
  function Queued(signalId: string, latest: seq<Workflow>, sends: nat -> Outcome, n: nat): seq<Message>
    requires n <= |latest|
  {
    if n == 0 then []
    else
      Queued(signalId, latest, sends, n - 1)
      + if sends(n - 1) == Refused then [] else [Message(signalId, latest[n - 1].id, latest[n - 1].version)]
  }

  /** How many sends were reported done. */
  function Reported(sends: nat -> Outcome, n: nat): nat {
    if n == 0 then 0 else Reported(sends, n - 1) + if sends(n - 1) == Done then 1 else 0
  }

  /** The counter is the number of sends reported done, wherever they are among the others. */
  lemma {:induction false} ReportedCounts(sends: nat -> Outcome, n: nat)
    ensures Reported(sends, n) == |set k: nat | k < n && sends(k) == Done|
  {
    if n > 0 {
      ReportedCounts(sends, n - 1);
      var front, all := set k: nat | k < n - 1 && sends(k) == Done, set k: nat | k < n && sends(k) == Done;
      assert all == if sends(n - 1) == Done then front + {n - 1} else front;
    }
  }

  /** What reaches the queue is a message for exactly those workflows whose send was not refused. */
  lemma {:induction false} QueuedExactly(signalId: string, latest: seq<Workflow>, sends: nat -> Outcome, n: nat,
      m: Message)
    requires n <= |latest|
    ensures m in Queued(signalId, latest, sends, n) <==>
      exists k: nat :: k < n && sends(k) != Refused && m == Message(signalId, latest[k].id, latest[k].version)
  {
    if n > 0 { QueuedExactly(signalId, latest, sends, n - 1, m); }
  }

  datatype Response = Accepted(signalId: string, queued: nat) | ServerError

  datatype Store = Store(queue: seq<Message>, items: map<string, Signal>)

  /** Queue first, save then; a signal that is there already is answered like a new one. */
  function Handled(s: Store, signal: Signal, latest: seq<Workflow>, sends: nat -> Outcome,
      save: Outcome): (Store, Response)
  {
    var queue := s.queue + Queued(signal.id, latest, sends, |latest|);
    var accepted := Accepted(signal.id, Reported(sends, |latest|));
    if signal.id in s.items then (Store(queue, s.items), if save == Done then accepted else ServerError)
    else (Store(queue, if save == Refused then s.items else s.items[signal.id := signal]),
          if save == Done then accepted else ServerError)
  }

  class Handler {
    const signalRepo: SignalRepository
    const workflowMgr: WM.WorkflowManager
    var queue: seq<Message>

    constructor (signalRepo: SignalRepository, workflowMgr: WM.WorkflowManager)
      ensures this.signalRepo == signalRepo && this.workflowMgr == workflowMgr && queue == []
    {
      this.signalRepo, this.workflowMgr := signalRepo, workflowMgr;
      queue := [];
    }

    function View(): Store
      reads this, signalRepo
    {
      Store(queue, signalRepo.items)
    }

    /** One message is attempted per workflow id served for the signal's type, at its highest served version; a failed
        send does not stop the others. Only a failed lookup of the workflows queues nothing. */
    method CreateSignalService(signal: Signal, lookupFails: bool, sends: nat -> Outcome, save: Outcome)
      returns (r: Response, ghost served: Answer, ghost latest: seq<Workflow>)
      requires signalRepo.Valid() && RepoOk(workflowMgr.workflowRepo.items)
      modifies this, signalRepo, workflowMgr
      ensures signalRepo.Valid()
      ensures (workflowMgr.View(), served) == FetchedType(old(workflowMgr.View()), signal.signalType, served)
      ensures served == None ==> r == ServerError && View() == old(View())
      ensures served.Some? ==>
        IsLatest(served.value, latest) && (View(), r) == Handled(old(View()), signal, latest, sends, save)
      ensures served.Some? ==>
        && (r == ServerError <==> save != Done)
        && (save == Done ==> r == Accepted(signal.id, Reported(sends, |latest|)))
        && queue == old(queue) + Queued(signal.id, latest, sends, |latest|)
        && signalRepo.items == if save == Refused || signal.id in old(signalRepo.items) then old(signalRepo.items)
                               else old(signalRepo.items)[signal.id := signal]
    {
      hide IsLatest, FetchedType, Complete, Inv, Lookup, Inserted;
      latest := [];
      var workflows := workflowMgr.GetWorkflowsBySignalType(signal.signalType, lookupFails);
      served := workflows;
      if workflows == None {
        return ServerError, served, latest;
      }
      var latestWorkflows := FilterLatestVersions(workflows.value);
      latest := latestWorkflows;
      var queuedCount := 0;
      for i := 0 to |latestWorkflows|
        invariant queue == old(queue) + Queued(signal.id, latest, sends, i)
        invariant queuedCount == Reported(sends, i)
        invariant signalRepo.items == old(signalRepo.items)
        invariant (workflowMgr.View(), served) == FetchedType(old(workflowMgr.View()), signal.signalType, served)
      {
        var w := latestWorkflows[i];
        if sends(i) != Refused {
          queue := queue + [Message(signal.id, w.id, w.version)];
        }
        if sends(i) == Done {
          queuedCount := queuedCount + 1;
        }
      }
      if save == Refused {
        return ServerError, served, latest;
      }
      var duplicate := signalRepo.Create(signal);
      r := if save == Done then Accepted(signal.id, queuedCount) else ServerError;
    }
  }

  // ---------- what reaches the queue ----------

  /** With sends that succeed, the queue gets exactly one message per workflow of the answer: each id once, and each
      at its highest version. */
  lemma {:induction false} OneMessagePerWorkflow(signalId: string, workflows: seq<Workflow>, latest: seq<Workflow>,
      sends: nat -> Outcome)
    requires IsLatest(workflows, latest) && forall n: nat :: sends(n) == Done
    ensures var queued := Queued(signalId, latest, sends, |latest|);
      && (forall i, j :: 0 <= i < j < |queued| ==> queued[i].workflowId != queued[j].workflowId)
      && (forall m :: m in queued <==> m.signalId == signalId && Chooses(latest, m.workflowId, m.version))
      && |queued| == |latest| == Reported(sends, |latest|)
  {
    AllQueued(signalId, latest, sends, |latest|);
    var queued := Queued(signalId, latest, sends, |latest|);
    forall m | m in queued ensures m.signalId == signalId && Chooses(latest, m.workflowId, m.version) {
      var i :| 0 <= i < |queued| && queued[i] == m;
      assert latest[i] in latest;
    }
    forall m: Message | m.signalId == signalId && Chooses(latest, m.workflowId, m.version) ensures m in queued {
      var w :| w in latest && w.id == m.workflowId && w.version == m.version;
      var i :| 0 <= i < |latest| && latest[i] == w;
      assert queued[i] == m;
    }
  }

  lemma {:induction false} AllQueued(signalId: string, latest: seq<Workflow>, sends: nat -> Outcome, n: nat)
    requires n <= |latest| && forall n: nat :: sends(n) == Done
    ensures var queued := Queued(signalId, latest, sends, n);
      && |queued| == n == Reported(sends, n)
      && forall i :: 0 <= i < n ==> queued[i] == Message(signalId, latest[i].id, latest[i].version)
  {
    if n > 0 { AllQueued(signalId, latest, sends, n - 1); }
  }

  lemma {:induction false} NothingQueued(signalId: string, latest: seq<Workflow>, sends: nat -> Outcome, n: nat)
    requires n <= |latest|
    ensures Queued(signalId, latest, sends, n) == [] <==> forall i: nat :: i < n ==> sends(i) == Refused
  {
    if n > 0 { NothingQueued(signalId, latest, sends, n - 1); }
  }

  /** Saving a signal is idempotent, answering it is not. Once a call has saved a signal, a second call with the same
      signal, whatever workflows it is served and however its sends and its save end, leaves the stored signals alone
      and answers as if the signal were new; and it queues again, unless each of its sends is refused. */
  lemma RepeatedSignalIsQueuedAgain(s: Store, signal: Signal, first: seq<Workflow>, sends: nat -> Outcome,
      save: Outcome, second: seq<Workflow>, sends': nat -> Outcome, save': Outcome)
    requires save != Refused
    ensures var t := Handled(s, signal, first, sends, save).0;
      var (u, again) := Handled(t, signal, second, sends', save');
      && u.items == t.items && signal.id in u.items
      && again == (if save' == Done then Accepted(signal.id, Reported(sends', |second|)) else ServerError)
      && u.queue == t.queue + Queued(signal.id, second, sends', |second|)
      && (u.queue == t.queue <==> forall i: nat :: i < |second| ==> sends'(i) == Refused)
  {
    NothingQueued(signal.id, second, sends', |second|);
  }
}
