/** infrastructure/events/relay.py: the relay and the idempotent consumer it drives, over the three
    tables they share, updated in place. */
module OutboxRelayModule {
  import opened Relay
  import opened RelayProofs

  class OutboxRelay {
    const handler: Handler      // the outcome of the n-th handler call
    const max: nat              // max_attempts
    const limit: nat            // batch_size
    var outbox: seq<Row>
    var inbox: map<EventId, Consumption>
    var dead: seq<EventId>
    var calls: nat
    ghost var succeeded: seq<EventId>
    ghost var failed: seq<EventId>
    ghost var relays: seq<Pc>

    ghost function Now(): World reads this {
      World(outbox, inbox, dead, succeeded, failed, relays)
    }

    ghost predicate Valid() reads this {
      calls == Calls(Now())
    }

    constructor (handler: Handler, max: nat, limit: nat, events: nat)
      ensures Valid() && Now() == World(seq(events, _ => Row(false, 0)), map[], [], [], [], [])
      ensures this.handler == handler && this.max == max && this.limit == limit
    {
      this.handler, this.max, this.limit := handler, max, limit;
      outbox, inbox, dead, calls := seq(events, _ => Row(false, 0)), map[], [], 0;
      succeeded, failed, relays := [], [], [];
    }

    /** IdempotentConsumer.__call__; false when the handler's exception reaches the relay. */
    method Consume(e: EventId) returns (ok: bool)
      requires Valid() && e < |outbox|
      modifies this`inbox, this`dead, this`calls, this`succeeded, this`failed
      ensures Valid()
      ensures var w := old(Now());
              if e in w.inbox then ok && Now() == w
              else if handler(Calls(w)) then
                ok && Now() == w.(succeeded := w.succeeded + [e], inbox := w.inbox[e := Processed])
              else !ok && Now() == Failed(w.(failed := w.failed + [e]), e, max)
    {
      if e in inbox {
        return true;
      }
      ok := handler(calls);
      calls := calls + 1;
      if ok {
        succeeded := succeeded + [e];
        inbox := inbox[e := Processed];
      } else {
        failed := failed + [e];
        inbox := inbox - {e};
        if outbox[e].attempts >= max {
          dead := dead + [e];
          inbox := inbox[e := DeadLettered];
        }
      }
    }

    method FetchBatch() returns (batch: seq<EventId>)
      ensures batch == Unpublished(outbox, 0, limit)
    {
      batch := [];
      var e := 0;
      while e < |outbox| && |batch| < limit
        invariant e <= |outbox| && |batch| <= limit
        invariant batch + Unpublished(outbox, e, limit - |batch|) == Unpublished(outbox, 0, limit)
      {
        if !outbox[e].published {
          assert batch + Unpublished(outbox, e, limit - |batch|)
              == batch + [e] + Unpublished(outbox, e + 1, limit - |batch| - 1);
          batch := batch + [e];
        }
        e := e + 1;
      }
    }

    /** Count the attempt, hand the event to the consumer, mark it published if nothing was raised. */
    method Dispatch(e: EventId) returns (ok: bool)
      requires Valid() && e < |outbox|
      modifies this`outbox, this`inbox, this`dead, this`calls, this`succeeded, this`failed
      ensures Valid() && |outbox| == |old(outbox)|
      ensures (Now(), ok) == Delivered(old(Now()), e, handler(Calls(old(Now()))), max)
      ensures outbox[e].published == (ok || old(outbox)[e].published)
      ensures forall x | 0 <= x < |outbox| && x != e :: outbox[x] == old(outbox)[x]
    {
      outbox := outbox[e := outbox[e].(attempts := outbox[e].attempts + 1)];
      ok := Consume(e);
      if ok {
        outbox := outbox[e := outbox[e].(published := true)];
      }
    }

    /** One relay pass; returns the number of events dispatched. */
    method Tick() returns (dispatched: nat)
      requires Valid()
      modifies this`outbox, this`inbox, this`dead, this`calls, this`succeeded, this`failed
      ensures Valid()
      ensures Now() == Ticked(old(Now()), handler, max, limit)
      ensures dispatched == CountUnpublished(old(outbox)) - CountUnpublished(outbox)
    {
      var batch := FetchBatch();
      dispatched := 0;
      var i := 0;
      while i < |batch|
        invariant i <= |batch| && Valid() && |outbox| == |old(outbox)|
        invariant DeliveredAll(Now(), batch[i..], handler, max) == DeliveredAll(old(Now()), batch, handler, max)
        invariant dispatched == CountUnpublished(old(outbox)) - CountUnpublished(outbox)
        invariant forall j | i <= j < |batch| :: !outbox[batch[j]].published
      {
        ghost var before := outbox;
        var ok := Dispatch(batch[i]);
        CountAfterPublish(before, outbox, batch[i]);
        if ok {
          dispatched := dispatched + 1;
        }
        i := i + 1;
      }
    }
  }

  lemma {:induction false} CountAfterPublish(before: seq<Row>, after: seq<Row>, e: EventId)
    requires e < |before| == |after| && !before[e].published
    requires forall x | 0 <= x < |before| && x != e :: after[x] == before[x]
    ensures CountUnpublished(before) == CountUnpublished(after) + (if after[e].published then 1 else 0)
  {
    var n := |before| - 1;
    if e == n {
      assert before[..n] == after[..n];
    } else {
      CountAfterPublish(before[..n], after[..n], e);
    }
  }
}
