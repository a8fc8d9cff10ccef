/** The workflow repository and the workflow manager as code: loops over an in-memory table and over the two maps,
    each method tied to the functions of WorkflowCache. */
module WorkflowManager {
  import opened Options
  import opened Keys
  import opened WorkflowCache

  /** internal/repository/dynamodb/workflow_repo.go. `fails` says whether the remote call is refused. */
  class WorkflowRepository {
    var items: map<RecordKey, Workflow>

    constructor ()
      ensures items == map[]
    {
      items := map[];
    }

    /** The insert is conditional: a version, once there, is never replaced. */
    method Create(w: Workflow, fails: bool) returns (ok: bool)
      requires RepoOk(items)
      modifies this
      ensures RepoOk(items)
      ensures ok <==> !fails && (w.id, w.version) !in old(items)
      ensures items == if ok then old(items)[(w.id, w.version) := w] else old(items)
    {
      ok := !fails && (w.id, w.version) !in items;
      if ok {
        items := items[(w.id, w.version) := w];
      }
    }

    method GetByID(id: string, version: int, fails: bool) returns (r: Option<Workflow>)
      ensures r == if fails || (id, version) !in items then None else Some(items[(id, version)])
    {
      r := if fails || (id, version) !in items then None else Some(items[(id, version)]);
    }

    /** Every workflow of the type once, in the order of the index. */
    method GetBySignalType(signalType: string, fails: bool) returns (r: Answer)
      requires RepoOk(items)
      ensures r == None <==> fails
      ensures r.Some? ==> Complete(items, signalType, r.value)
    {
      if fails {
        return None;
      }
      var workflows: seq<Workflow> := [];
      var rest := items.Keys;
      while rest != {}
        invariant rest <= items.Keys
        invariant FromRepo(items, workflows)
        invariant forall w :: w in workflows <==> OfType(items, signalType, w) && (w.id, w.version) !in rest
        decreases |rest|
      {
        var k :| k in rest;
        rest := rest - {k};
        if items[k].signalType == signalType {
          workflows := workflows + [items[k]];
        }
      }
      return Some(workflows);
    }

    /** The first page of a scan: as many workflows as the limit and the table allow. */
    method List(limit: nat, fails: bool) returns (r: Answer)
      requires RepoOk(items)
      ensures r == None <==> fails
      ensures r.Some? ==> FromRepo(items, r.value) && |r.value| == if |items| < limit then |items| else limit
    {
      if fails {
        return None;
      }
      var workflows: seq<Workflow> := [];
      var rest := items.Keys;
      assert |rest| == |items|;
      while rest != {} && |workflows| < limit
        invariant rest <= items.Keys && |workflows| + |rest| == |items| && |workflows| <= limit
        invariant FromRepo(items, workflows)
        invariant forall w :: w in workflows ==> (w.id, w.version) !in rest
        decreases |rest|
      {
        var k :| k in rest;
        rest := rest - {k};
        workflows := workflows + [items[k]];
      }
      return Some(workflows);
    }
  }

  class WorkflowManager {
    const workflowRepo: WorkflowRepository
    var workflowCache: map<string, Workflow>
    var signalTypeIndex: map<string, seq<string>>

    constructor (workflowRepo: WorkflowRepository)
      ensures this.workflowRepo == workflowRepo && View() == State(workflowRepo.items, map[], map[])
    {
      this.workflowRepo := workflowRepo;
      workflowCache, signalTypeIndex := map[], map[];
    }

    function View(): State
      reads this, workflowRepo
    {
      State(workflowRepo.items, workflowCache, signalTypeIndex)
    }

    /** The loop that both sections of GetWorkflowsBySignalType start with. */
    method CachedWorkflows(signalType: string) returns (r: Answer)
      ensures r == Lookup(View(), signalType)
    {
      if signalType !in signalTypeIndex {
        return None;
      }
      var workflowKeys := signalTypeIndex[signalType];
      var workflows: seq<Workflow> := [];
      for i := 0 to |workflowKeys|
        invariant Cached(workflowCache, workflowKeys[..i]) == Some(workflows)
      {
        assert workflowKeys[..i + 1][..i] == workflowKeys[..i];
        if workflowKeys[i] !in workflowCache {
          MissStays(workflowCache, workflowKeys, i + 1, |workflowKeys|);
          assert workflowKeys[..|workflowKeys|] == workflowKeys;
          return None;
        }
        workflows := workflows + [workflowCache[workflowKeys[i]]];
      }
      assert workflowKeys[..|workflowKeys|] == workflowKeys;
      return Some(workflows);
    }

    /** The read section; on a miss the write section, which looks again, asks the repository and remembers. */
    method GetWorkflowsBySignalType(signalType: string, fails: bool) returns (r: Answer)
      requires RepoOk(workflowRepo.items)
      modifies this
      ensures (View(), r) == FetchedType(old(View()), signalType, r)
      ensures Lookup(old(View()), signalType) == None ==>
        (r == None <==> fails) && (r.Some? ==> Complete(workflowRepo.items, signalType, r.value))
      ensures Lookup(old(View()), signalType).Some? ==> r == Lookup(old(View()), signalType)
      ensures r == None || Lookup(old(View()), signalType).Some? ==> View() == old(View())
      ensures old(Inv(View())) && r.Some? ==> Lookup(View(), signalType) == r
    {
      hide Complete, KeyOf, Inv, CacheOk, IndexOk;
      r := CachedWorkflows(signalType);
      if r.Some? {
        return;
      }
      r := CachedWorkflows(signalType);
      if r.Some? {
        return;
      }
      r := workflowRepo.GetBySignalType(signalType, fails);
      if r == None {
        return;
      }
      var workflows := r.value;
      var workflowKeys: seq<string> := [];
      for i := 0 to |workflows|
        invariant signalTypeIndex == old(signalTypeIndex)
        invariant workflowCache == Filled(old(workflowCache), workflows[..i])
        invariant workflowKeys == KeysOf(workflows[..i])
      {
        assert workflows[..i + 1][..i] == workflows[..i];
        workflowCache := workflowCache[KeyOf(workflows[i]) := workflows[i]];
        workflowKeys := workflowKeys + [KeyOf(workflows[i])];
      }
      assert workflows[..|workflows|] == workflows;
      signalTypeIndex := signalTypeIndex[signalType := workflowKeys];
      if old(Inv(View())) { Remembered(old(View()), signalType, workflows); }
    }

    /** Cache first; then the repository under the write lock, and the record found is remembered. */
    method GetWorkflow(id: string, version: int, fails: bool) returns (r: Option<Workflow>)
      modifies this`workflowCache
      ensures (View(), r) == Fetched(old(View()), id, version, !fails)
      ensures var key := WorkflowKey(id, version);
        && (r.Some? <==> key in old(workflowCache) || (!fails && (id, version) in workflowRepo.items))
        && workflowCache == if r.Some? then old(workflowCache)[key := r.value] else old(workflowCache)
      ensures old(Inv(View())) ==>
        && (!fails ==> (r.Some? <==> (id, version) in workflowRepo.items))
        && (fails ==> (r.Some? <==> WorkflowKey(id, version) in old(workflowCache)))
        && (r.Some? ==> (id, version) in workflowRepo.items && r.value == workflowRepo.items[(id, version)])
    {
      hide WorkflowKey, Inv;
      var key := WorkflowKey(id, version);
      if Inv(View()) && key in workflowCache { CachedIsStored(View(), id, version); }
      if key in workflowCache {
        return Some(workflowCache[key]);
      }
      r := workflowRepo.GetByID(id, version, fails);
      if r.Some? {
        workflowCache := workflowCache[key := r.value];
      }
    }

    /** Reloads both maps from one page of fifty; an error leaves them alone. */
    method RefreshCache(fails: bool) returns (ok: bool, ghost page: seq<Workflow>)
      requires RepoOk(workflowRepo.items)
      modifies this
      ensures ok <==> !fails
      ensures View() == Refreshed(old(View()), if ok then Some(page) else None)
      ensures ok ==> FromRepo(workflowRepo.items, page)
      ensures ok ==> |page| == if |workflowRepo.items| < 50 then |workflowRepo.items| else 50
    {
      hide KeyOf, FromRepo;
      var result := workflowRepo.List(PAGE, fails);
      page := [];
      if result == None {
        return false, page;
      }
      page := result.value;
      var workflows := result.value;
      workflowCache := map[];
      var signalTypeMap: map<string, seq<string>> := map[];
      for i := 0 to |workflows|
        invariant workflowCache == Filled(map[], workflows[..i])
        invariant signalTypeMap == WorkflowCache.IndexOf(workflows[..i])
      {
        var key, signalType := KeyOf(workflows[i]), workflows[i].signalType;
        assert workflows[..i + 1][..i] == workflows[..i];
        workflowCache := workflowCache[key := workflows[i]];
        signalTypeMap := signalTypeMap[signalType := Listed(signalTypeMap, signalType) + [key]];
      }
      assert workflows[..|workflows|] == workflows;
      signalTypeIndex := signalTypeMap;
      ok := true;
    }
  }

  lemma Remembered(s: State, t: string, ws: seq<Workflow>)
    requires Inv(s) && Lookup(s, t) == None && Complete(s.repo, t, ws)
    ensures Lookup(FetchedType(s, t, Some(ws)).0, t) == Some(ws)
  {
    hide KeyOf, Cached, Inv;
    LookupIsSound(s, t);
    AnswerIsRemembered(s, t, ws);
  }

  lemma {:induction false} MissStays(cache: map<string, Workflow>, keys: seq<string>, i: nat, n: nat)
    requires i <= n <= |keys| && Cached(cache, keys[..i]) == None
    ensures Cached(cache, keys[..n]) == None
  {
    if i < n {
      MissStays(cache, keys, i, n - 1);
      assert keys[..n][..n - 1] == keys[..n - 1];
    }
  }
}
