/** infrastructure/events/relay.py as values: any number of relays, each in the middle of delivering
    some event, over the outbox, one consumer's inbox rows and the dead letters. One `Act` is one
    database transaction, one handler call, or a crash. Events are numbered in created order. */
module Relay {
  type EventId = nat

  datatype Consumption = Processed | DeadLettered

  datatype Row = Row(published: bool, attempts: nat)

  /** Where a relay is: between events; attempt counted; inbox found empty; handler returned, or
      raised; inbox row found or written, about to mark the event published. */
  datatype Pc =
    | Idle
    | Counted(e: EventId)
    | Looked(e: EventId)
    | Returned(e: EventId)
    | Raised(e: EventId)
    | Consumed(e: EventId)

  /** `succeeded` and `failed` list the handler calls so far, by event; they are history only. */
  datatype World = World(
    outbox: seq<Row>,
    inbox: map<EventId, Consumption>,
    dead: seq<EventId>,
    succeeded: seq<EventId>,
    failed: seq<EventId>,
    relays: seq<Pc>)

  datatype Act =
    | Count(r: nat, e: EventId)
    | Look(r: nat)
    | Handle(r: nat, ok: bool)
    | Insert(r: nat)
    | OnFailure(r: nat)
    | Publish(r: nat)
    | Crash(r: nat)

  function At(w: World, r: nat, pc: Pc): World
    requires r < |w.relays|
  {
    w.(relays := w.relays[r := pc])
  }

  /** `_on_failure`: delete the inbox row, and after `max` attempts dead-letter the event. */
  function Failed(w: World, e: EventId, max: nat): World
    requires e < |w.outbox|
  {
    if w.outbox[e].attempts >= max
    then w.(dead := w.dead + [e], inbox := (w.inbox - {e})[e := DeadLettered])
    else w.(inbox := w.inbox - {e})
  }

  function Attempted(w: World, e: EventId): World
    requires e < |w.outbox|
  {
    w.(outbox := w.outbox[e := w.outbox[e].(attempts := w.outbox[e].attempts + 1)])
  }

  function Published(w: World, e: EventId): World
    requires e < |w.outbox|
  {
    w.(outbox := w.outbox[e := w.outbox[e].(published := true)])
  }

  predicate Enabled(w: World, act: Act) {
    act.r < |w.relays| && InOutbox(w, w.relays[act.r]) &&
    var pc := w.relays[act.r];
    match act
    case Count(_, e) => pc.Idle? && e < |w.outbox|
    case Look(_) => pc.Counted?
    case Handle(_, _) => pc.Looked?
    case Insert(_) => pc.Returned?
    case OnFailure(_) => pc.Raised?
    case Publish(_) => pc.Consumed?
    case Crash(_) => true
  }

  predicate InOutbox(w: World, pc: Pc) {
    pc.Idle? || pc.e < |w.outbox|
  }

  /** An INSERT over an existing inbox row violates its primary key: the consumer raises, and the relay
      goes on to the next event without publishing. */
  function Inserted(w: World, r: nat, e: EventId): World
    requires r < |w.relays|
  {
    if e in w.inbox then At(w, r, Idle) else At(w.(inbox := w.inbox[e := Processed]), r, Consumed(e))
  }

  function Step(w: World, act: Act, max: nat): World
  {
    if !Enabled(w, act) then w
    else
      var r := act.r;
      var pc := w.relays[r];
      match act
      case Count(_, e) => At(Attempted(w, e), r, Counted(e))
      case Look(_) => At(w, r, if pc.e in w.inbox then Consumed(pc.e) else Looked(pc.e))
      case Handle(_, ok) =>
        if ok then At(w.(succeeded := w.succeeded + [pc.e]), r, Returned(pc.e))
        else At(w.(failed := w.failed + [pc.e]), r, Raised(pc.e))
      case Insert(_) => Inserted(w, r, pc.e)
      case OnFailure(_) => At(Failed(w, pc.e, max), r, Idle)
      case Publish(_) => At(Published(w, pc.e), r, Idle)
      case Crash(_) => At(w, r, Idle)
  }

  /** Any interleaving of the relays, handler outcomes and crashes. */
  function Run(w: World, acts: seq<Act>, max: nat): World {
    if acts == [] then w else Step(Run(w, acts[..|acts| - 1], max), acts[|acts| - 1], max)
  }

  // ---------------------------------------------------------------- delivery without a crash

  /** One delivery of event `e` from start to end; the result says whether it was dispatched. */
  function Delivered(w: World, e: EventId, ok: bool, max: nat): (World, bool)
    requires e < |w.outbox|
  {
    var w1 := Attempted(w, e);
    if e in w.inbox then (Published(w1, e), true)
    else if ok then
      (Published(w1.(succeeded := w.succeeded + [e], inbox := w.inbox[e := Processed]), e), true)
    else (Failed(w1.(failed := w.failed + [e]), e, max), false)
  }

  /** How the handler behaves: the outcome of its n-th call ever. */
  type Handler = nat -> bool

  function Calls(w: World): nat { |w.succeeded| + |w.failed| }

  /** The events of a fetched batch, one after the other. */
  function DeliveredAll(w: World, batch: seq<EventId>, handler: Handler, max: nat): (w': World)
    requires forall i | 0 <= i < |batch| :: batch[i] < |w.outbox|
    ensures |w'.outbox| == |w.outbox|
    decreases |batch|
  {
    if batch == [] then w
    else DeliveredAll(Delivered(w, batch[0], handler(Calls(w)), max).0, batch[1..], handler, max)
  }

  /** SELECT ... WHERE published_at IS NULL ORDER BY created_at LIMIT `limit`, from row `from` on. */
  function Unpublished(outbox: seq<Row>, from: nat, limit: nat): (batch: seq<EventId>)
    requires from <= |outbox|
    ensures forall i | 0 <= i < |batch| :: from <= batch[i] < |outbox| && !outbox[batch[i]].published
    ensures forall i, j | 0 <= i < j < |batch| :: batch[i] < batch[j]
    ensures |batch| <= limit
    ensures limit > 0 && (exists e | from <= e < |outbox| :: !outbox[e].published) ==> batch != []
    decreases |outbox| - from
  {
    if from == |outbox| || limit == 0 then []
    else if outbox[from].published then Unpublished(outbox, from + 1, limit)
    else [from] + Unpublished(outbox, from + 1, limit - 1)
  }

  function Ticked(w: World, handler: Handler, max: nat, limit: nat): (w': World)
    ensures |w'.outbox| == |w.outbox|
  {
    DeliveredAll(w, Unpublished(w.outbox, 0, limit), handler, max)
  }

  function Ticks(w: World, handler: Handler, max: nat, limit: nat, n: nat): (w': World)
    ensures |w'.outbox| == |w.outbox|
    decreases n
  {
    if n == 0 then w else Ticks(Ticked(w, handler, max, limit), handler, max, limit, n - 1)
  }
}
