/** internal/queue/sqs/sqs_queue.go with the consumer of internal/consumer/executor_queue/impl: a received message is
    deleted only once it was handled, or cannot be read at all; everything else stays and is delivered again. */
module MessageQueue {
  import opened Remote

  /** How Execute ends: no error, a write of the run rejected by the lock, or any other error. */
  datatype Ending = Executed | LockLost | OtherError

  /** What happens to one received message: the consumer was told to stop before it, its body does not parse, how
      Execute ends, and how the delete call ends. */
  datatype Delivery = Delivery(message: nat, stopping: bool, parses: bool, ending: Ending, deletion: Outcome)

  /** The delivery takes the message off the queue. */
  predicate Deletes(d: Delivery) { (!d.parses || d.ending == Executed) && d.deletion != Refused }

  /** How many deliveries of the batch are looked at: all before the first one that finds the consumer stopping. */
  function Reached(batch: seq<Delivery>): (n: nat)
    ensures n <= |batch|
    ensures forall k :: 0 <= k < n ==> !batch[k].stopping
    ensures n < |batch| ==> batch[n].stopping
  {
    if batch == [] || batch[0].stopping then 0 else 1 + Reached(batch[1..])
  }

  /** The messages left after the first n deliveries. */
  function Left(messages: map<nat, string>, batch: seq<Delivery>, n: nat): map<nat, string>
    requires n <= |batch|
  {
    if n == 0 then messages
    else if Deletes(batch[n - 1]) then Left(messages, batch, n - 1) - {batch[n - 1].message}
    else Left(messages, batch, n - 1)
  }

  class Queue {
    var messages: map<nat, string>   // sent and not deleted

    constructor ()
      ensures messages == map[]
    {
      messages := map[];
    }

    /** ProcessMessage of the executor's consumer. */
    method Handle(d: Delivery) returns (success: bool)
      ensures success <==> d.ending == Executed
    {
      match d.ending
      case LockLost =>
        return false;
      case OtherError =>
        return false;
      case Executed =>
        return true;
    }

    method DeleteMessage(d: Delivery)
      modifies this
      ensures messages == if d.deletion == Refused then old(messages) else old(messages) - {d.message}
    {
      if d.deletion != Refused {
        messages := messages - {d.message};
      }
    }

    method ProcessMessage(d: Delivery)
      modifies this
      ensures (!d.parses || d.ending == Executed) && d.deletion != Refused ==> messages == old(messages) - {d.message}
      ensures (d.parses && d.ending != Executed) || d.deletion == Refused ==> messages == old(messages)
      ensures messages == if Deletes(d) then old(messages) - {d.message} else old(messages)
    {
      if !d.parses {
        DeleteMessage(d);
        return;
      }
      var success := Handle(d);
      if success {
        DeleteMessage(d);
      }
    }

    /** One batch of a worker; it is left as soon as the consumer is stopping. */
    method ProcessMessages(batch: seq<Delivery>)
      modifies this
      ensures messages == Left(old(messages), batch, Reached(batch))
    {
      for i := 0 to |batch|
        invariant i <= Reached(batch) && messages == Left(old(messages), batch, i)
      {
        if batch[i].stopping {
          return;
        }
        ReachedBeyond(batch, i);
        ProcessMessage(batch[i]);
      }
    }
  }

  lemma ReachedBeyond(batch: seq<Delivery>, i: nat)
    requires i < |batch| && i <= Reached(batch) && !batch[i].stopping
    ensures i < Reached(batch)
  {
  }

  /** At-least-once: a message is gone after a batch exactly if one of its deliveries that were reached was handled, or
      could not be read, and its delete took effect. */
  lemma {:induction false} GoneIffHandled(messages: map<nat, string>, batch: seq<Delivery>, n: nat, m: nat)
    requires n <= |batch| && m in messages
    ensures m !in Left(messages, batch, n) <==>
      exists k :: 0 <= k < n && batch[k].message == m
        && (!batch[k].parses || batch[k].ending == Executed) && batch[k].deletion != Refused
    ensures m in Left(messages, batch, n) ==> Left(messages, batch, n)[m] == messages[m]
  {
    if n > 0 { GoneIffHandled(messages, batch, n - 1, m); }
  }

  /** A lost lock is retried: as long as every delivery of a readable message ended with its write rejected or with
      another error, the message is there, whatever deliveries of other messages did, and is delivered again. */
  lemma {:induction false} FailuresAreRetried(messages: map<nat, string>, batch: seq<Delivery>, n: nat, m: nat)
    requires n <= |batch| && m in messages
    requires forall k :: 0 <= k < n && batch[k].message == m ==> batch[k].parses && batch[k].ending != Executed
    ensures m in Left(messages, batch, n) && Left(messages, batch, n)[m] == messages[m]
  {
    GoneIffHandled(messages, batch, n, m);
  }
}
