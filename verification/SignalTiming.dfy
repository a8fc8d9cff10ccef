/** The signal service beside the executors, step by step: a signal's messages are queued before the signal is saved,
    while Execute begins by reading it. */
module SignalTiming {
  import opened Options
  import opened Remote
  import opened WorkflowCache
  import opened Signals
  import opened SignalHandler

  /** A request being handled: the signal, and the workflows whose message is still to be sent. */
  datatype Request = Request(signal: Signal, left: seq<Workflow>)

  datatype State = State(queue: seq<Message>, items: map<string, Signal>, requests: map<nat, Request>)

  datatype Label =
    | Arrive(request: nat, signal: Signal, latest: seq<Workflow>)
    | Send(request: nat, outcome: Outcome)
    | Save(request: nat, outcome: Outcome)
    | Crash(request: nat)

  const NO_SIGNALS := State.State([], map[], map[])

  predicate Enabled(s: State, l: Label) {
    match l
    case Arrive(h, _, _) => h !in s.requests
    case Send(h, _) => h in s.requests && s.requests[h].left != []
    case Save(h, _) => h in s.requests && s.requests[h].left == []
    case Crash(h) => h in s.requests
  }

  function Step(s: State, l: Label): State
    requires Enabled(s, l)
  {
    match l
    case Arrive(h, signal, latest) => s.(requests := s.requests[h := Request(signal, latest)])
    case Send(h, outcome) =>
      var r := s.requests[h];
      s.(queue := if outcome == Refused then s.queue
                  else s.queue + [Message(r.signal.id, r.left[0].id, r.left[0].version)],
         requests := s.requests[h := r.(left := r.left[1..])])
    case Save(h, outcome) =>
      s.(items := if outcome == Refused then s.items else Inserted(s.items, s.requests[h].signal),
         requests := s.requests - {h})
    case Crash(h) => s.(requests := s.requests - {h})
  }

  ghost predicate IsRun(states: seq<State>, labels: seq<Label>) {
    && |states| == |labels| + 1
    && states[0] == NO_SIGNALS
    && forall k :: 0 <= k < |labels| ==> Enabled(states[k], labels[k]) && states[k + 1] == Step(states[k], labels[k])
  }

  /** The read at the start of Execute for the m-th message sent: its signal, or an error. */
  function SignalRead(s: State, m: nat): Option<Signal>
    requires m < |s.queue|
  {
    if s.queue[m].signalId in s.items then Some(s.items[s.queue[m].signalId]) else None
  }

  // ---------- the steps of one request are its handler ----------

  /** The rest of a request, with no other step in between. */
  function Served(s: State, h: nat, sends: nat -> Outcome, k: nat, save: Outcome): State
    requires h in s.requests
    decreases |s.requests[h].left|
  {
    if s.requests[h].left == [] then Step(s, Save(h, save))
    else Served(Step(s, Send(h, sends(k))), h, sends, k + 1, save)
  }

  lemma {:induction false} ServedFrom(s: State, h: nat, sends: nat -> Outcome, k: nat, save: Outcome, signal: Signal,
      latest: seq<Workflow>, base: seq<Message>)
    requires h in s.requests && k <= |latest| && s.requests[h] == Request(signal, latest[k..])
    requires s.queue == base + Queued(signal.id, latest, sends, k)
    ensures var t := Served(s, h, sends, k, save);
      && t.queue == base + Queued(signal.id, latest, sends, |latest|)
      && t.items == (if save == Refused then s.items else Inserted(s.items, signal))
    decreases |latest| - k
  {
    if k < |latest| {
      var t := Step(s, Send(h, sends(k)));
      assert latest[k..][1..] == latest[k + 1..];
      assert t.queue == base + Queued(signal.id, latest, sends, k + 1);
      ServedFrom(t, h, sends, k + 1, save, signal, latest, base);
    }
  }

  /** A request that is handled without interference does to queue and table what CreateSignalService does. */
  lemma HandlerIsItsSteps(s: State, h: nat, signal: Signal, latest: seq<Workflow>, sends: nat -> Outcome, save: Outcome)
    requires h !in s.requests
    ensures var t := Served(Step(s, Arrive(h, signal, latest)), h, sends, 0, save);
      Store(t.queue, t.items) == Handled(Store(s.queue, s.items), signal, latest, sends, save).0
  {
    var a := Step(s, Arrive(h, signal, latest));
    assert latest[0..] == latest && s.queue + [] == s.queue;
    ServedFrom(a, h, sends, 0, save, signal, latest, s.queue);
  }

  // ---------- when a message finds its signal ----------

  /** Step k saves a signal with this id. */
  predicate SavesAt(states: seq<State>, labels: seq<Label>, k: nat, id: string) {
    && k < |labels| && k < |states| && labels[k].Save? && labels[k].outcome != Refused
    && labels[k].request in states[k].requests && states[k].requests[labels[k].request].signal.id == id
  }

  lemma {:induction false} StoredIffSaved(states: seq<State>, labels: seq<Label>, n: nat, id: string)
    requires IsRun(states, labels) && n < |states|
    ensures id in states[n].items <==> exists k :: 0 <= k < n && SavesAt(states, labels, k, id)
    ensures id in states[n].items ==> states[n].items[id].id == id
  {
    if n > 0 {
      StoredIffSaved(states, labels, n - 1, id);
      assert SavesAt(states, labels, n - 1, id) ==> id in states[n].items;
    }
  }

  /** A message finds its signal if and only if some request with that signal's id has saved it by the time the message
      is handled; one that crashes or whose save is refused leaves messages that only another request can help. */
  lemma FoundIffSavedBefore(states: seq<State>, labels: seq<Label>, n: nat, m: nat)
    requires IsRun(states, labels) && n < |states| && m < |states[n].queue|
    ensures SignalRead(states[n], m).Some?
            <==> exists k :: 0 <= k < n && SavesAt(states, labels, k, states[n].queue[m].signalId)
    ensures SignalRead(states[n], m).Some? ==> SignalRead(states[n], m).value.id == states[n].queue[m].signalId
  {
    hide IsRun, SavesAt;
    StoredIffSaved(states, labels, n, states[n].queue[m].signalId);
  }

  /** The order is the risky one: when a message is sent, its own request has not saved the signal yet. Handled at once,
      it misses its signal exactly if no other request has saved a signal with that id before. */
  lemma SentBeforeSaved(states: seq<State>, labels: seq<Label>, j: nat)
    requires IsRun(states, labels) && j < |labels| && labels[j].Send? && labels[j].outcome != Refused
    ensures labels[j].request in states[j].requests
    ensures var id, t := states[j].requests[labels[j].request].signal.id, states[j + 1];
      && |t.queue| == |states[j].queue| + 1 && t.queue[|t.queue| - 1].signalId == id
      && (SignalRead(t, |t.queue| - 1) == None <==> forall k :: 0 <= k < j ==> !SavesAt(states, labels, k, id))
  {
    hide SavesAt;
    StoredIffSaved(states, labels, j, states[j].requests[labels[j].request].signal.id);
  }

  /** A stored signal is found by every later handling, unchanged. */
  lemma {:induction false} FoundForGood(states: seq<State>, labels: seq<Label>, m: nat, n: nat, id: string)
    requires IsRun(states, labels) && m <= n < |states| && id in states[m].items
    ensures id in states[n].items && states[n].items[id] == states[m].items[id]
    decreases n
  {
    if m < n { FoundForGood(states, labels, m, n - 1, id); }
  }
}
