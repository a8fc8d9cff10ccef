/** internal/service/workflow_manager.go over the insert-only internal/repository/dynamodb/workflow_repo.go. Every
    locked section of a getter is one step; between the read section and the write section anything may happen. */
module WorkflowCache {
  import opened Options
  import opened Keys

  datatype Workflow = Workflow(id: string, version: int, signalType: string, definition: string)

  type RecordKey = (string, int)

  datatype State = State(
    repo: map<RecordKey, Workflow>,
    cache: map<string, Workflow>,         // workflowCache
    index: map<string, seq<string>>)      // signalTypeIndex

  const PAGE := 50

  function KeyOf(w: Workflow): string { WorkflowKey(w.id, w.version) }

  // ---------- what the sections do ----------

  /** The loop over the indexed keys: all of them cached, or a miss. */
  function Cached(cache: map<string, Workflow>, keys: seq<string>): Option<seq<Workflow>> {
    if keys == [] then Some([])
    else
      var front :- Cached(cache, keys[..|keys| - 1]);
      if keys[|keys| - 1] in cache then Some(front + [cache[keys[|keys| - 1]]]) else None
  }

  function Lookup(s: State, signalType: string): Option<seq<Workflow>> {
    if signalType in s.index then Cached(s.cache, s.index[signalType]) else None
  }

  function Filled(cache: map<string, Workflow>, ws: seq<Workflow>): map<string, Workflow> {
    if ws == [] then cache else Filled(cache, ws[..|ws| - 1])[KeyOf(ws[|ws| - 1]) := ws[|ws| - 1]]
  }

  function KeysOf(ws: seq<Workflow>): (keys: seq<string>)
    ensures |keys| == |ws| && forall i :: 0 <= i < |ws| ==> keys[i] == KeyOf(ws[i])
  {
    if ws == [] then [] else KeysOf(ws[..|ws| - 1]) + [KeyOf(ws[|ws| - 1])]
  }

  function Listed(index: map<string, seq<string>>, t: string): seq<string> { if t in index then index[t] else [] }

  function IndexOf(ws: seq<Workflow>): map<string, seq<string>> {
    if ws == [] then map[]
    else
      var front, last := IndexOf(ws[..|ws| - 1]), ws[|ws| - 1];
      front[last.signalType := Listed(front, last.signalType) + [KeyOf(last)]]
  }

  /** How the repository answers a query or a listing: the workflows, or an error. */
  type Answer = Option<seq<Workflow>>

  /** The write section of GetWorkflowsBySignalType. */
  function FetchedType(s: State, signalType: string, answer: Answer): (State, Answer) {
    if Lookup(s, signalType) != None then (s, Lookup(s, signalType))
    else match answer
      case None => (s, None)
      case Some(ws) => (s.(cache := Filled(s.cache, ws), index := s.index[signalType := KeysOf(ws)]), Some(ws))
  }

  /** The write section of GetWorkflow; `found` is whether the read of the record succeeds. */
  function Fetched(s: State, id: string, version: int, found: bool): (State, Option<Workflow>) {
    var key := WorkflowKey(id, version);
    if key in s.cache then (s, Some(s.cache[key]))
    else if !found || (id, version) !in s.repo then (s, None)
    else (s.(cache := s.cache[key := s.repo[(id, version)]]), Some(s.repo[(id, version)]))
  }

  function Refreshed(s: State, answer: Answer): State {
    match answer
    case None => s
    case Some(page) => s.(cache := Filled(map[], page), index := IndexOf(page))
  }

  // ---------- the step system ----------

  datatype Label =
    | Create(w: Workflow)
    | ReadWorkflow(id: string, version: int)
    | FetchWorkflow(id: string, version: int, found: bool)
    | ReadType(signalType: string)
    | FetchType(signalType: string, answer: Answer)
    | Refresh(answer: Answer)

  /** Records of the repository, each at most once; possibly not all, since index reads may lag. */
  ghost predicate FromRepo(repo: map<RecordKey, Workflow>, ws: seq<Workflow>) {
    && (forall i :: 0 <= i < |ws| ==> (ws[i].id, ws[i].version) in repo && repo[(ws[i].id, ws[i].version)] == ws[i])
    && (forall i, j :: 0 <= i < j < |ws| ==> ws[i] != ws[j])
  }

  ghost predicate Enabled(s: State, l: Label) {
    match l
    case Create(w) => (w.id, w.version) !in s.repo
    case FetchType(t, Some(ws)) => FromRepo(s.repo, ws) && forall w :: w in ws ==> w.signalType == t
    case Refresh(Some(page)) => FromRepo(s.repo, page) && |page| <= PAGE
    case _ => true
  }

  function Step(s: State, l: Label): State {
    match l
    case Create(w) => s.(repo := s.repo[(w.id, w.version) := w])
    case ReadWorkflow(_, _) => s
    case FetchWorkflow(id, version, found) => Fetched(s, id, version, found).0
    case ReadType(_) => s
    case FetchType(t, answer) => FetchedType(s, t, answer).0
    case Refresh(answer) => Refreshed(s, answer)
  }

  // ---------- invariants ----------

  /** Every cached workflow is the stored record its key names. */
  ghost predicate CacheOk(s: State) {
    forall k :: k in s.cache ==>
      var w := s.cache[k];
      k == KeyOf(w) && (w.id, w.version) in s.repo && s.repo[(w.id, w.version)] == w
  }

  /** Every indexed key is cached, under the type it is indexed by, and listed once. */
  ghost predicate ListOk(cache: map<string, Workflow>, t: string, keys: seq<string>) {
    && (forall i :: 0 <= i < |keys| ==> keys[i] in cache && cache[keys[i]].signalType == t)
    && (forall i, j :: 0 <= i < j < |keys| ==> keys[i] != keys[j])
  }

  ghost predicate IndexOk(s: State) { forall t :: t in s.index ==> ListOk(s.cache, t, s.index[t]) }

  ghost predicate RepoOk(repo: map<RecordKey, Workflow>) {
    forall k :: k in repo ==> (repo[k].id, repo[k].version) == k
  }

  ghost predicate Inv(s: State) { RepoOk(s.repo) && CacheOk(s) && IndexOk(s) }

  lemma SameKey(a: Workflow, b: Workflow)
    ensures KeyOf(a) == KeyOf(b) <==> a.id == b.id && a.version == b.version
  {
    WorkflowKeyInjective(a.id, a.version, b.id, b.version);
  }

  /** Filling adds the listed workflows under their keys and keeps the rest. */
  lemma {:induction false} FilledOk(s: State, cache: map<string, Workflow>, ws: seq<Workflow>)
    requires CacheOk(s.(cache := cache)) && FromRepo(s.repo, ws)
    ensures CacheOk(s.(cache := Filled(cache, ws)))
    ensures forall k :: k in cache ==> k in Filled(cache, ws) && Filled(cache, ws)[k] == cache[k]
    ensures forall i :: 0 <= i < |ws| ==> KeyOf(ws[i]) in Filled(cache, ws) && Filled(cache, ws)[KeyOf(ws[i])] == ws[i]
    ensures forall k :: k in Filled(cache, ws) ==> k in cache || exists i :: 0 <= i < |ws| && k == KeyOf(ws[i])
  {
    hide KeyOf;
    if ws != [] {
      var n := |ws| - 1;
      var front, last := ws[..n], ws[n];
      FilledOk(s, cache, front);
      var before := Filled(cache, front);
      var after := before[KeyOf(last) := last];
      assert Filled(cache, ws) == after;
      forall k | k in before ensures after[k] == before[k] {
        if k == KeyOf(last) { SameKey(before[k], last); }
      }
      forall i | 0 <= i < |ws| ensures KeyOf(ws[i]) in after && after[KeyOf(ws[i])] == ws[i] {
        if i < n { assert front[i] == ws[i]; }
      }
      forall k | k in after ensures k in cache || exists i :: 0 <= i < |ws| && k == KeyOf(ws[i]) {
        if k != KeyOf(last) && k !in cache {
          var i :| 0 <= i < |front| && k == KeyOf(front[i]);
          assert ws[i] == front[i];
        } else if k == KeyOf(last) {
          assert k == KeyOf(ws[n]);
        }
      }
    }
  }

  lemma DistinctKeys(repo: map<RecordKey, Workflow>, ws: seq<Workflow>, i: nat, j: nat)
    requires FromRepo(repo, ws) && i < j < |ws|
    ensures KeyOf(ws[i]) != KeyOf(ws[j])
  {
    hide KeyOf;
    SameKey(ws[i], ws[j]);
  }

  /** Larger caches keep lists in order. */
  lemma ListStays(cache: map<string, Workflow>, larger: map<string, Workflow>, t: string, keys: seq<string>)
    requires ListOk(cache, t, keys) && forall k :: k in cache ==> k in larger && larger[k] == cache[k]
    ensures ListOk(larger, t, keys)
  {
  }

  lemma FetchTypeKeepsInv(s: State, t: string, answer: Answer)
    requires Inv(s) && Enabled(s, FetchType(t, answer))
    ensures Inv(FetchedType(s, t, answer).0)
  {
    hide KeyOf, Cached;
    if Lookup(s, t) == None && answer.Some? {
      var ws := answer.value;
      FilledOk(s, s.cache, ws);
      forall i, j | 0 <= i < j < |ws| ensures KeysOf(ws)[i] != KeysOf(ws)[j] { DistinctKeys(s.repo, ws, i, j); }
      assert ListOk(Filled(s.cache, ws), t, KeysOf(ws));
      forall u | u in s.index ensures ListOk(Filled(s.cache, ws), u, s.index[u]) {
        ListStays(s.cache, Filled(s.cache, ws), u, s.index[u]);
      }
    }
  }

  /** The workflow of type t that key k of the index stands for. */
  ghost predicate Lists(ws: seq<Workflow>, t: string, k: string) {
    exists w :: w in ws && w.signalType == t && KeyOf(w) == k
  }

  lemma IndexStep(ws: seq<Workflow>, t: string)
    requires ws != []
    ensures var front, last := IndexOf(ws[..|ws| - 1]), ws[|ws| - 1];
      && Listed(IndexOf(ws), t) == Listed(front, t) + (if last.signalType == t then [KeyOf(last)] else [])
      && (t in IndexOf(ws) <==> t in front || last.signalType == t)
  {
    hide KeyOf;
  }

  lemma ListsMore(front: seq<Workflow>, last: Workflow, t: string, k: string)
    ensures Lists(front + [last], t, k) <==> Lists(front, t, k) || (last.signalType == t && k == KeyOf(last))
  {
    hide KeyOf;
    var ws := front + [last];
    assert last in ws;
    if w :| w in front && w.signalType == t && KeyOf(w) == k { assert w in ws; }
  }

  /** Under each type the index built by a refresh lists the keys of the page's workflows of that type, once each,
      in page order; a type is indexed exactly if the page has a workflow of it. */
  lemma {:induction false} IndexLists(repo: map<RecordKey, Workflow>, ws: seq<Workflow>, t: string)
    requires FromRepo(repo, ws)
    ensures t in IndexOf(ws) <==> Listed(IndexOf(ws), t) != []
    ensures forall k :: k in Listed(IndexOf(ws), t) <==> Lists(ws, t, k)
    ensures var keys := Listed(IndexOf(ws), t); forall i, j :: 0 <= i < j < |keys| ==> keys[i] != keys[j]
  {
    hide KeyOf, IndexOf, Listed, Lists;
    if ws == [] {
      NothingListed(t);
    } else {
      var front, last := ws[..|ws| - 1], ws[|ws| - 1];
      assert ws == front + [last];
      IndexLists(repo, front, t);
      IndexStep(ws, t);
      forall k ensures Lists(ws, t, k) <==> Lists(front, t, k) || (last.signalType == t && k == KeyOf(last)) {
        ListsMore(front, last, t, k);
      }
      NotListedBefore(repo, front, last, t);
    }
  }

  lemma NothingListed(t: string)
    ensures t !in IndexOf([]) && Listed(IndexOf([]), t) == [] && forall k :: !Lists([], t, k)
  {
  }

  lemma NotListedBefore(repo: map<RecordKey, Workflow>, front: seq<Workflow>, last: Workflow, t: string)
    requires FromRepo(repo, front + [last])
    ensures !Lists(front, t, KeyOf(last))
  {
    hide KeyOf;
    var ws := front + [last];
    forall w | w in front ensures KeyOf(w) != KeyOf(last) {
      var i :| 0 <= i < |front| && front[i] == w;
      assert ws[i] == w && ws[|front|] == last;
      DistinctKeys(repo, ws, i, |front|);
    }
  }

  lemma RefreshKeepsInv(s: State, page: seq<Workflow>)
    requires RepoOk(s.repo) && FromRepo(s.repo, page)
    ensures Inv(Refreshed(s, Some(page)))
  {
    hide KeyOf;
    FilledOk(s, map[], page);
    var cache, index := Filled(map[], page), IndexOf(page);
    forall t | t in index ensures ListOk(cache, t, index[t]) {
      IndexLists(s.repo, page, t);
      forall i | 0 <= i < |index[t]| ensures index[t][i] in cache && cache[index[t][i]].signalType == t {
        assert index[t][i] in Listed(index, t) && Lists(page, t, index[t][i]);
        var w :| w in page && w.signalType == t && KeyOf(w) == index[t][i];
      }
    }
  }

  lemma FetchKeepsInv(s: State, id: string, version: int, found: bool)
    requires Inv(s)
    ensures Inv(Fetched(s, id, version, found).0)
  {
    hide WorkflowKey;
    var t := Fetched(s, id, version, found).0;
    forall u | u in t.index ensures ListOk(t.cache, u, t.index[u]) { ListStays(s.cache, t.cache, u, s.index[u]); }
  }

  lemma StepKeepsInv(s: State, l: Label)
    requires Inv(s) && Enabled(s, l)
    ensures Inv(Step(s, l))
  {
    match l
    case Create(w) => assert IndexOk(Step(s, l));
    case FetchWorkflow(id, version, found) => FetchKeepsInv(s, id, version, found);
    case FetchType(t, answer) => FetchTypeKeepsInv(s, t, answer);
    case Refresh(Some(page)) => RefreshKeepsInv(s, page);
    case _ =>
  }

  ghost predicate IsRun(states: seq<State>, labels: seq<Label>) {
    && |states| == |labels| + 1
    && RepoOk(states[0].repo) && states[0].cache == map[] && states[0].index == map[]
    && forall k :: 0 <= k < |labels| ==> Enabled(states[k], labels[k]) && states[k + 1] == Step(states[k], labels[k])
  }

  lemma {:induction false} RunInv(states: seq<State>, labels: seq<Label>, n: nat)
    requires IsRun(states, labels) && n < |states|
    ensures Inv(states[n])
  {
    hide Step, Enabled, Inv;
    if n > 0 {
      RunInv(states, labels, n - 1);
      StepKeepsInv(states[n - 1], labels[n - 1]);
    } else {
      EmptyCacheInv(states[0]);
    }
  }

  lemma EmptyCacheInv(s: State)
    requires RepoOk(s.repo) && s.cache == map[] && s.index == map[]
    ensures Inv(s)
  {
  }

  // ---------- the cache is transparent ----------

  /** What GetWorkflow returns from one of its sections, None being a miss or an error. */
  function WorkflowAnswer(s: State, l: Label): Option<Workflow>
    requires l.ReadWorkflow? || l.FetchWorkflow?
  {
    if l.ReadWorkflow? then (if WorkflowKey(l.id, l.version) in s.cache
      then Some(s.cache[WorkflowKey(l.id, l.version)]) else None)
    else Fetched(s, l.id, l.version, l.found).1
  }

  lemma {:induction false} RecordsStay(states: seq<State>, labels: seq<Label>, m: nat, n: nat, k: RecordKey)
    requires IsRun(states, labels) && m <= n < |states| && k in states[m].repo
    ensures k in states[n].repo && states[n].repo[k] == states[m].repo[k]
  {
    hide Lookup, Filled, IndexOf;
    if m < n { RecordsStay(states, labels, m, n - 1, k); }
  }

  /** Cache transparency: in every interleaving of creation, refresh and the sections of all getters, a workflow that
      GetWorkflow returns is the repository's record of that id and version, then and ever after. */
  lemma GetWorkflowIsTransparent(states: seq<State>, labels: seq<Label>, m: nat, n: nat)
    requires IsRun(states, labels) && m < |labels| && m <= n < |states|
    requires labels[m].ReadWorkflow? || labels[m].FetchWorkflow?
    ensures var l := labels[m];
      WorkflowAnswer(states[m], l).Some? ==>
        (l.id, l.version) in states[n].repo && states[n].repo[(l.id, l.version)] == WorkflowAnswer(states[m], l).value
  {
    hide WorkflowKey, Lookup, Filled, IndexOf;
    var s, l := states[m], labels[m];
    RunInv(states, labels, m);
    if WorkflowKey(l.id, l.version) in s.cache { CachedIsStored(s, l.id, l.version); }
    if WorkflowAnswer(s, l).Some? {
      RecordsStay(states, labels, m, n, (l.id, l.version));
    }
  }

  /** A record is in the cache under its key only if it is the repository's. */
  lemma CachedIsStored(s: State, id: string, version: int)
    requires Inv(s) && WorkflowKey(id, version) in s.cache
    ensures (id, version) in s.repo && s.cache[WorkflowKey(id, version)] == s.repo[(id, version)]
  {
    hide WorkflowKey, IndexOk, RepoOk;
    var w := s.cache[WorkflowKey(id, version)];
    WorkflowKeyInjective(id, version, w.id, w.version);
  }

  /** The other half: when GetWorkflow finds a workflow. In every reachable state its write section, if the read of the
      repository succeeds, answers exactly the records of the repository and remembers them; if the read fails, and in
      the read section, exactly the cached ones. */
  lemma GetWorkflowFinds(states: seq<State>, labels: seq<Label>, m: nat)
    requires IsRun(states, labels) && m < |labels| && (labels[m].ReadWorkflow? || labels[m].FetchWorkflow?)
    ensures var s, t, l := states[m], states[m + 1], labels[m];
      var r, key := WorkflowAnswer(s, l), WorkflowKey(l.id, l.version);
      && (l.FetchWorkflow? && l.found ==> (r.Some? <==> (l.id, l.version) in s.repo))
      && (l.ReadWorkflow? || !l.found ==> (r.Some? <==> key in s.cache))
      && (r.Some? ==> (l.id, l.version) in s.repo && r.value == s.repo[(l.id, l.version)])
      && t == if l.FetchWorkflow? && r.Some? then s.(cache := s.cache[key := r.value]) else s
  {
    hide WorkflowKey, Lookup, Filled, IndexOf, Inv;
    RunInv(states, labels, m);
    var s, l := states[m], labels[m];
    if WorkflowKey(l.id, l.version) in s.cache {
      CachedIsStored(s, l.id, l.version);
      assert s.cache[WorkflowKey(l.id, l.version) := s.cache[WorkflowKey(l.id, l.version)]] == s.cache;
    }
  }

  // ---------- the index ----------

  lemma {:induction false} CachedAll(cache: map<string, Workflow>, t: string, keys: seq<string>)
    requires ListOk(cache, t, keys)
    ensures Cached(cache, keys).Some? && |Cached(cache, keys).value| == |keys|
    ensures forall i :: 0 <= i < |keys| ==> Cached(cache, keys).value[i] == cache[keys[i]]
  {
    if keys != [] { CachedAll(cache, t, keys[..|keys| - 1]); }
  }

  /** The branch for a partial hit is never taken: in every reachable state a type is answered from memory exactly if
      it is indexed. What is answered is stored workflows of that type, each once. */
  lemma NoPartialHit(states: seq<State>, labels: seq<Label>, n: nat, t: string)
    requires IsRun(states, labels) && n < |states|
    ensures Lookup(states[n], t).Some? <==> t in states[n].index
    ensures Lookup(states[n], t).Some? ==>
      && FromRepo(states[n].repo, Lookup(states[n], t).value)
      && forall w :: w in Lookup(states[n], t).value ==> w.signalType == t
  {
    hide KeyOf, Step;
    RunInv(states, labels, n);
    LookupIsSound(states[n], t);
  }

  lemma LookupIsSound(s: State, t: string)
    requires Inv(s)
    ensures Lookup(s, t).Some? <==> t in s.index
    ensures Lookup(s, t).Some? ==>
      FromRepo(s.repo, Lookup(s, t).value) && forall w :: w in Lookup(s, t).value ==> w.signalType == t
  {
    hide KeyOf;
    if t in s.index {
      var keys := s.index[t];
      CachedAll(s.cache, t, keys);
      var ws := Cached(s.cache, keys).value;
      forall i, j | 0 <= i < j < |ws| ensures ws[i] != ws[j] {
        assert KeyOf(ws[i]) == keys[i] && KeyOf(ws[j]) == keys[j];
      }
    }
  }

  /** The answer of a query is remembered: the type is served from memory from then on, with that very answer. Nothing
      else is forgotten, and other types are as before. */
  lemma AnswerIsRemembered(s: State, t: string, ws: seq<Workflow>)
    requires Inv(s) && Enabled(s, FetchType(t, Some(ws))) && t !in s.index
    ensures var (u, r) := FetchedType(s, t, Some(ws));
      && r == Some(ws) && Lookup(u, t) == Some(ws)
      && u.repo == s.repo && u.index == s.index[t := u.index[t]]
      && (forall k :: k in s.cache ==> k in u.cache && u.cache[k] == s.cache[k])
  {
    hide KeyOf, Cached, CacheOk, IndexOk, ListOk;
    FetchTypeKeepsInv(s, t, Some(ws));
    assert CacheOk(s);
    FilledOk(s, s.cache, ws);
    var u := FetchedType(s, t, Some(ws)).0;
    assert ListOk(u.cache, t, u.index[t]) by { IndexedIsListed(u, t); }
    CachedAll(u.cache, t, u.index[t]);
    assert u.index[t] == KeysOf(ws);
    assert Cached(u.cache, u.index[t]).value == ws;
  }

  lemma IndexedIsListed(s: State, t: string)
    requires Inv(s) && t in s.index
    ensures ListOk(s.cache, t, s.index[t])
  {
  }

  // ---------- what a refresh serves ----------

  ghost predicate OfType(repo: map<RecordKey, Workflow>, t: string, w: Workflow) {
    (w.id, w.version) in repo && repo[(w.id, w.version)] == w && w.signalType == t
  }

  /** The repository's own answer for a type: all its workflows. */
  ghost predicate Complete(repo: map<RecordKey, Workflow>, t: string, ws: seq<Workflow>) {
    FromRepo(repo, ws) && forall w :: w in ws <==> OfType(repo, t, w)
  }

  /** Right after a refresh the indexed answer is the page's part of the type. */
  lemma RefreshServesPage(s: State, page: seq<Workflow>, t: string)
    requires RepoOk(s.repo) && FromRepo(s.repo, page)
    ensures var r := Lookup(Refreshed(s, Some(page)), t);
      && (r.Some? <==> exists w :: w in page && w.signalType == t)
      && (r.Some? ==> forall w :: w in r.value <==> w in page && w.signalType == t)
  {
    hide KeyOf, Filled, IndexOf;
    var u := Refreshed(s, Some(page));
    RefreshKeepsInv(s, page);
    IndexLists(s.repo, page, t);
    FilledOk(s, map[], page);
    LookupIsSound(u, t);
    PageTypes(s.repo, page, t);
    if t in u.index {
      CachedAll(u.cache, t, u.index[t]);
      IndexedMembers(u.cache, u.index[t], page, t, Lookup(u, t).value);
    }
  }

  /** And a workflow is in memory exactly if the page has it. */
  lemma RefreshCachesPage(s: State, page: seq<Workflow>, id: string, version: int)
    requires RepoOk(s.repo) && FromRepo(s.repo, page)
    ensures WorkflowKey(id, version) in Refreshed(s, Some(page)).cache
            <==> exists w :: w in page && w.id == id && w.version == version
  {
    hide WorkflowKey;
    FilledOk(s, map[], page);
    forall w | w in page
      ensures KeyOf(w) == WorkflowKey(id, version) <==> w.id == id && w.version == version
    {
      WorkflowKeyInjective(w.id, w.version, id, version);
    }
    if w :| w in page && w.id == id && w.version == version {
      var i :| 0 <= i < |page| && page[i] == w;
    }
  }

  lemma PageTypes(repo: map<RecordKey, Workflow>, page: seq<Workflow>, t: string)
    requires FromRepo(repo, page)
    ensures t in IndexOf(page) <==> exists w :: w in page && w.signalType == t
  {
    hide KeyOf, IndexOf;
    IndexLists(repo, page, t);
    if t in IndexOf(page) { assert Listed(IndexOf(page), t)[0] in Listed(IndexOf(page), t); }
    if w :| w in page && w.signalType == t { assert Lists(page, t, KeyOf(w)); }
  }

  lemma IndexedMembers(cache: map<string, Workflow>, keys: seq<string>, page: seq<Workflow>, t: string,
      ws: seq<Workflow>)
    requires forall w :: w in page ==> KeyOf(w) in cache && cache[KeyOf(w)] == w
    requires forall k :: k in keys <==> Lists(page, t, k)
    requires |ws| == |keys| && forall i :: 0 <= i < |keys| ==> keys[i] in cache && ws[i] == cache[keys[i]]
    ensures forall w :: w in ws <==> w in page && w.signalType == t
  {
    hide KeyOf;
    forall w | w in ws ensures w in page && w.signalType == t {
      var i :| 0 <= i < |ws| && ws[i] == w;
      assert Lists(page, t, keys[i]);
      var v :| v in page && v.signalType == t && KeyOf(v) == keys[i];
    }
    forall w | w in page && w.signalType == t ensures w in ws {
      assert Lists(page, t, KeyOf(w));
      var i :| 0 <= i < |keys| && keys[i] == KeyOf(w);
      assert ws[i] == w;
    }
  }

  /** The answer for a type right after a refresh, the repository being asked only on a miss, is the repository's own
      if and only if the page took all workflows of the type or none of them. */
  lemma RefreshIsExactIff(s: State, page: seq<Workflow>, t: string, all: seq<Workflow>)
    requires RepoOk(s.repo) && FromRepo(s.repo, page) && Complete(s.repo, t, all)
    ensures var r := FetchedType(Refreshed(s, Some(page)), t, Some(all)).1;
      r.Some? && ((forall w :: w in r.value <==> OfType(s.repo, t, w))
                  <==> (|| (forall w :: OfType(s.repo, t, w) ==> w in page)
                        || (forall w :: OfType(s.repo, t, w) ==> w !in page)))
  {
    hide Refreshed, Lookup, KeyOf;
    RefreshServesPage(s, page, t);
    var r := Lookup(Refreshed(s, Some(page)), t);
    if r.Some? {
      var w :| w in page && w.signalType == t;
      InPage(s.repo, page, w);
      assert OfType(s.repo, t, w);
      forall v | v in page && v.signalType == t ensures OfType(s.repo, t, v) { InPage(s.repo, page, v); }
    }
  }

  lemma InPage(repo: map<RecordKey, Workflow>, page: seq<Workflow>, w: Workflow)
    requires FromRepo(repo, page) && w in page
    ensures OfType(repo, w.signalType, w)
  {
  }

  /** A page as long as the repository is the whole of it, so up to fifty workflows every answer is exact. */
  lemma UpToFiftyIsExact(s: State, page: seq<Workflow>, t: string, all: seq<Workflow>)
    requires RepoOk(s.repo) && FromRepo(s.repo, page) && Complete(s.repo, t, all)
    requires |s.repo| <= PAGE && |page| == |s.repo|
    ensures var r := FetchedType(Refreshed(s, Some(page)), t, Some(all)).1;
      r.Some? && forall w :: w in r.value <==> OfType(s.repo, t, w)
  {
    hide FetchedType, Refreshed;
    RefreshIsExactIff(s, page, t, all);
    WholePage(s.repo, page);
  }

  lemma WholePage(repo: map<RecordKey, Workflow>, page: seq<Workflow>)
    requires RepoOk(repo) && FromRepo(repo, page) && |page| == |repo|
    ensures forall k :: k in repo ==> repo[k] in page
  {
    var keys := RecordKeys(repo, page);
    if k :| k in repo && repo[k] !in page {
      assert k !in keys && |repo.Keys| == |repo|;
      SmallerSet(keys, repo.Keys, k);
      assert false;
    }
  }

  lemma SmallerSet<T>(a: set<T>, b: set<T>, x: T)
    requires a <= b && x in b && x !in a
    ensures |a| < |b|
  {
    Subset(a, b - {x});
  }

  lemma {:induction false} Subset<T>(a: set<T>, b: set<T>)
    requires a <= b
    ensures |a| <= |b|
  {
    if a != {} {
      var x :| x in a;
      Subset(a - {x}, b - {x});
    }
  }

  /** The record keys of distinct records: as many as there are records. */
  ghost function RecordKeys(repo: map<RecordKey, Workflow>, ws: seq<Workflow>): (keys: set<RecordKey>)
    requires FromRepo(repo, ws)
    ensures |keys| == |ws| && keys <= repo.Keys
    ensures forall k :: k in keys <==> exists i :: 0 <= i < |ws| && (ws[i].id, ws[i].version) == k
  {
    if ws == [] then {}
    else
      var n := |ws| - 1;
      assert ws == ws[..n] + [ws[n]];
      RecordKeys(repo, ws[..n]) + {(ws[n].id, ws[n].version)}
  }

  /** Without a refresh an indexed type keeps its answer, the empty one included: a workflow created after its type
      was first asked for is not served until the next refresh. */
  lemma {:induction false} IndexedAnswerIsFrozen(states: seq<State>, labels: seq<Label>, m: nat, n: nat, t: string)
    requires IsRun(states, labels) && m <= n < |states| && t in states[m].index
    requires forall k :: m <= k < n ==> !(labels[k].Refresh? && labels[k].answer.Some?)
    ensures t in states[n].index && Lookup(states[n], t) == Lookup(states[m], t)
  {
    hide Step, Enabled, Lookup;
    if m < n {
      IndexedAnswerIsFrozen(states, labels, m, n - 1, t);
      RunInv(states, labels, n - 1);
      StepKeepsAnswer(states[n - 1], labels[n - 1], t);
    }
  }

  lemma {:induction false} CachedGrows(cache: map<string, Workflow>, larger: map<string, Workflow>, keys: seq<string>)
    requires Cached(cache, keys).Some? && forall k :: k in cache ==> k in larger && larger[k] == cache[k]
    ensures Cached(larger, keys) == Cached(cache, keys)
  {
    if keys != [] { CachedGrows(cache, larger, keys[..|keys| - 1]); }
  }

  lemma StepKeepsAnswer(s: State, l: Label, t: string)
    requires Inv(s) && Enabled(s, l) && t in s.index && !(l.Refresh? && l.answer.Some?)
    ensures t in Step(s, l).index && Lookup(Step(s, l), t) == Lookup(s, t)
  {
    hide KeyOf, Cached, WorkflowKey;
    LookupIsSound(s, t);
    if l.FetchType? && l.answer.Some? { FilledOk(s, s.cache, l.answer.value); }
    var u := Step(s, l);
    assert u.index[t] == s.index[t];
    CachedGrows(s.cache, u.cache, s.index[t]);
  }
}
