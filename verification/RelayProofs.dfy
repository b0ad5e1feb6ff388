/** Delivery guarantees: safety under crashes, and the bound within which an outbox drains. */
module RelayProofs {
  import opened Relay

  // ---------------------------------------------------------------- safety, crashes anywhere

  ghost predicate PcOk(w: World, pc: Pc) {
    && InOutbox(w, pc)
    && (pc.Looked? || pc.Returned? || pc.Raised? ==> pc.e !in w.inbox)
    && (pc.Returned? ==> pc.e in w.succeeded)
    && (pc.Consumed? ==> pc.e in w.inbox)
  }

  /** published implies an inbox row; an 'ok' row means the handler returned normally; an event has a
      dead letter exactly if its row says so, and then just one, after at least `max` attempts. */
  ghost predicate EventOk(w: World, e: EventId, max: nat)
    requires e < |w.outbox|
  {
    && (w.outbox[e].published ==> e in w.inbox)
    && (e in w.inbox && w.inbox[e] == Processed ==> e in w.succeeded)
    && multiset(w.dead)[e] == (if e in w.inbox && w.inbox[e] == DeadLettered then 1 else 0)
    && (e in w.inbox && w.inbox[e] == DeadLettered ==> w.outbox[e].attempts >= max)
  }

  /** No two relays are on the same event. */
  ghost predicate Exclusive(relays: seq<Pc>) {
    forall r, q | 0 <= r < q < |relays| :: relays[r].Idle? || relays[q].Idle? || relays[r].e != relays[q].e
  }

  ghost predicate Inv(w: World, max: nat) {
    && (forall r | 0 <= r < |w.relays| :: PcOk(w, w.relays[r]))
    && (forall e | 0 <= e < |w.outbox| :: EventOk(w, e, max))
    && Exclusive(w.relays)
  }

  /** A relay takes up an event only while no other relay is on it. */
  ghost predicate Alone(w: World, act: Act) {
    act.Count? ==> forall q | 0 <= q < |w.relays| && q != act.r :: w.relays[q].Idle? || w.relays[q].e != act.e
  }

  lemma DeadAppend(dead: seq<EventId>, e: EventId, x: EventId)
    ensures multiset(dead + [e])[x] == multiset(dead)[x] + (if x == e then 1 else 0)
  {
    assert multiset(dead + [e]) == multiset(dead) + multiset{e};
  }

  lemma FailureKeepsInv(w: World, r: nat, max: nat)
    requires Inv(w, max) && r < |w.relays| && w.relays[r].Raised?
    ensures Inv(Step(w, OnFailure(r), max), max)
  {
    var e := w.relays[r].e;
    forall x { DeadAppend(w.dead, e, x); }
    assert PcOk(w, w.relays[r]);
    assert EventOk(w, e, max);
    var w' := Step(w, OnFailure(r), max);
    forall q | 0 <= q < |w'.relays| ensures PcOk(w', w'.relays[q]) {
      assert PcOk(w, w.relays[q]);
    }
    forall x | 0 <= x < |w'.outbox| ensures EventOk(w', x, max) {
      assert EventOk(w, x, max);
    }
  }

  lemma StepKeepsInv(w: World, act: Act, max: nat)
    requires Inv(w, max) && Alone(w, act)
    ensures Inv(Step(w, act, max), max)
  {
    if Enabled(w, act) {
      if act.OnFailure? {
        FailureKeepsInv(w, act.r, max);
      } else {
        var w' := Step(w, act, max);
        assert PcOk(w, w.relays[act.r]);
        forall q | 0 <= q < |w'.relays| ensures PcOk(w', w'.relays[q]) {
          assert PcOk(w, w.relays[q]);
        }
        forall x | 0 <= x < |w'.outbox| ensures EventOk(w', x, max) {
          assert EventOk(w, x, max);
        }
      }
    }
  }

  ghost predicate AloneRun(w: World, acts: seq<Act>, max: nat) {
    acts == [] ||
    (AloneRun(w, acts[..|acts| - 1], max) && Alone(Run(w, acts[..|acts| - 1], max), acts[|acts| - 1]))
  }

  /** With crashes anywhere and events redelivered at will, as long as no two relays are on one event. */
  lemma {:induction false} RunKeepsInv(w: World, acts: seq<Act>, max: nat)
    requires Inv(w, max) && AloneRun(w, acts, max)
    ensures Inv(Run(w, acts, max), max)
  {
    if acts != [] {
      RunKeepsInv(w, acts[..|acts| - 1], max);
      StepKeepsInv(Run(w, acts[..|acts| - 1], max), acts[|acts| - 1], max);
    }
  }

  lemma AtMostOneDeadLetter(w: World, acts: seq<Act>, max: nat, e: EventId)
    requires Inv(w, max) && AloneRun(w, acts, max) && e < |w.outbox|
    ensures var w' := Run(w, acts, max);
            && |w'.outbox| == |w.outbox|
            && multiset(w'.dead)[e] <= 1
            && (multiset(w'.dead)[e] == 1 <==> e in w'.inbox && w'.inbox[e] == DeadLettered)
            && (w'.outbox[e].published ==> e in w'.inbox)
  {
    RunKeepsInv(w, acts, max);
    RunKeepsLength(w, acts, max);
    assert EventOk(Run(w, acts, max), e, max);
  }

  lemma {:induction false} RunKeepsLength(w: World, acts: seq<Act>, max: nat)
    ensures |Run(w, acts, max).outbox| == |w.outbox| && |Run(w, acts, max).relays| == |w.relays|
  {
    if acts != [] {
      RunKeepsLength(w, acts[..|acts| - 1], max);
    }
  }

  /** How often the handler has been called for an event. */
  function HandlerCalls(w: World, e: EventId): nat {
    multiset(w.succeeded)[e] + multiset(w.failed)[e]
  }

  lemma ConsumedInStep(w: World, act: Act, max: nat, e: EventId)
    requires Inv(w, max) && e in w.inbox
    ensures var w' := Step(w, act, max);
            e in w'.inbox && w'.inbox[e] == w.inbox[e] && HandlerCalls(w', e) == HandlerCalls(w, e)
  {
    if Enabled(w, act) {
      var pc := w.relays[act.r];
      assert PcOk(w, pc);
      if act.Handle? {
        DeadAppend(w.succeeded, pc.e, e);
        DeadAppend(w.failed, pc.e, e);
      }
    }
  }

  /** Once an event has its inbox row, the row stays as it is and the handler is never called for the
      event again, however it is redelivered and whoever crashes. */
  lemma {:induction false} ConsumedIsNotHandledAgain(w: World, acts: seq<Act>, max: nat, e: EventId)
    requires Inv(w, max) && AloneRun(w, acts, max) && e in w.inbox
    ensures var w' := Run(w, acts, max);
            e in w'.inbox && w'.inbox[e] == w.inbox[e] && HandlerCalls(w', e) == HandlerCalls(w, e)
  {
    if acts != [] {
      var before := acts[..|acts| - 1];
      ConsumedIsNotHandledAgain(w, before, max, e);
      RunKeepsInv(w, before, max);
      ConsumedInStep(Run(w, before, max), acts[|acts| - 1], max, e);
    }
  }

  // ---------------------------------------------------------------- any number of relays on one event

  /** What a relay's place implies however many relays are on its event. */
  ghost predicate PcSane(w: World, pc: Pc) {
    && InOutbox(w, pc)
    && (pc.Returned? ==> pc.e in w.succeeded)
    && (pc.Consumed? ==> pc.e in w.inbox)
  }

  /** Every event's guarantees, without any assumption on who is on which event. */
  ghost predicate Guaranteed(w: World, max: nat) {
    && (forall r | 0 <= r < |w.relays| :: PcSane(w, w.relays[r]))
    && (forall e | 0 <= e < |w.outbox| :: EventOk(w, e, max))
  }

  /** Nobody else has finished with the event: it is not dead-lettered already, and if its row is only
      deleted, it is not published and no relay is about to publish it. */
  ghost predicate FailureInTime(w: World, r: nat, max: nat)
    requires r < |w.relays| && w.relays[r].Raised? && w.relays[r].e < |w.outbox|
  {
    var e := w.relays[r].e;
    && !(e in w.inbox && w.inbox[e] == DeadLettered)
    && (w.outbox[e].attempts < max ==>
          !w.outbox[e].published && forall q | 0 <= q < |w.relays| :: w.relays[q] != Consumed(e))
  }

  ghost predicate InTime(w: World, act: Act, max: nat) {
    act.OnFailure? && Enabled(w, act) ==> FailureInTime(w, act.r, max)
  }

  lemma FailureKeepsEvents(w: World, r: nat, max: nat)
    requires Guaranteed(w, max) && r < |w.relays| && w.relays[r].Raised?
    ensures var w' := Step(w, OnFailure(r), max);
            (forall x | 0 <= x < |w'.outbox| :: EventOk(w', x, max)) <==>
            var e := w.relays[r].e;
            && !(e in w.inbox && w.inbox[e] == DeadLettered)
            && (w.outbox[e].attempts < max ==> !w.outbox[e].published)
  {
    assert PcSane(w, w.relays[r]);
    var e := w.relays[r].e;
    var w' := Step(w, OnFailure(r), max);
    assert EventOk(w, e, max);
    forall x | 0 <= x < |w.outbox| && x != e ensures EventOk(w', x, max) {
      DeadAppend(w.dead, e, x);
      assert EventOk(w, x, max);
    }
    DeadAppend(w.dead, e, e);
    assert EventOk(w', e, max) <==>
           && !(e in w.inbox && w.inbox[e] == DeadLettered)
           && (w.outbox[e].attempts < max ==> !w.outbox[e].published);
  }

  lemma FailureKeepsIff(w: World, r: nat, max: nat)
    requires Guaranteed(w, max) && r < |w.relays| && w.relays[r].Raised?
    ensures w.relays[r].e < |w.outbox|
    ensures Guaranteed(Step(w, OnFailure(r), max), max) <==> FailureInTime(w, r, max)
  {
    assert PcSane(w, w.relays[r]);
    var e := w.relays[r].e;
    var w' := Step(w, OnFailure(r), max);
    FailureKeepsEvents(w, r, max);
    if FailureInTime(w, r, max) {
      forall q | 0 <= q < |w'.relays| ensures PcSane(w', w'.relays[q]) {
        assert PcSane(w, w.relays[q]);
      }
    }
    if Guaranteed(w', max) {
      forall q | 0 <= q < |w.relays| && w.outbox[e].attempts < max ensures w.relays[q] != Consumed(e) {
        assert PcSane(w', w'.relays[q]);
      }
    }
  }

  lemma OtherStepsKeepGuarantees(w: World, act: Act, max: nat)
    requires Guaranteed(w, max) && !act.OnFailure?
    ensures Guaranteed(Step(w, act, max), max)
  {
    if Enabled(w, act) {
      var w' := Step(w, act, max);
      assert PcSane(w, w.relays[act.r]);
      forall q | 0 <= q < |w'.relays| ensures PcSane(w', w'.relays[q]) {
        assert PcSane(w, w.relays[q]);
      }
      forall x | 0 <= x < |w'.outbox| ensures EventOk(w', x, max) {
        assert EventOk(w, x, max);
      }
    }
  }

  /** With any number of relays on any events, the one step that can break a guarantee is a handler's
      failure recorded late, and it breaks one exactly then. */
  lemma StepKeepsGuaranteesIff(w: World, act: Act, max: nat)
    requires Guaranteed(w, max)
    ensures Guaranteed(Step(w, act, max), max) <==> InTime(w, act, max)
  {
    if act.OnFailure? {
      if Enabled(w, act) {
        FailureKeepsIff(w, act.r, max);
      }
    } else {
      OtherStepsKeepGuarantees(w, act, max);
    }
  }

  /** At the end and at every point before it. */
  ghost predicate AlwaysGuaranteed(w: World, acts: seq<Act>, max: nat) {
    Guaranteed(Run(w, acts, max), max) && (acts != [] ==> AlwaysGuaranteed(w, acts[..|acts| - 1], max))
  }

  ghost predicate InTimeRun(w: World, acts: seq<Act>, max: nat) {
    acts == [] ||
    (InTimeRun(w, acts[..|acts| - 1], max) && InTime(Run(w, acts[..|acts| - 1], max), acts[|acts| - 1], max))
  }

  /** The guarantees hold all along a run, whoever overlaps and wherever anybody crashes, exactly if
      every failure in it is recorded in time. */
  lemma {:induction false} RunKeepsGuaranteesIff(w: World, acts: seq<Act>, max: nat)
    requires Guaranteed(w, max)
    ensures AlwaysGuaranteed(w, acts, max) <==> InTimeRun(w, acts, max)
  {
    if acts != [] {
      var before := acts[..|acts| - 1];
      RunKeepsGuaranteesIff(w, before, max);
      if AlwaysGuaranteed(w, before, max) {
        StepKeepsGuaranteesIff(Run(w, before, max), acts[|acts| - 1], max);
      }
    }
  }

  /** One relay per event at a time is enough. */
  lemma AloneIsInTime(w: World, act: Act, max: nat)
    requires Inv(w, max)
    ensures Guaranteed(w, max) && InTime(w, act, max)
  {
    forall q | 0 <= q < |w.relays| ensures PcSane(w, w.relays[q]) {
      assert PcOk(w, w.relays[q]);
    }
    if act.OnFailure? && Enabled(w, act) {
      assert PcOk(w, w.relays[act.r]);
      assert EventOk(w, w.relays[act.r].e, max);
      forall q | 0 <= q < |w.relays| ensures w.relays[q] != Consumed(w.relays[act.r].e) {
        assert PcOk(w, w.relays[q]);
      }
    }
  }

  lemma {:induction false} AloneRunIsInTime(w: World, acts: seq<Act>, max: nat)
    requires Inv(w, max) && AloneRun(w, acts, max)
    ensures InTimeRun(w, acts, max)
  {
    if acts != [] {
      var before := acts[..|acts| - 1];
      AloneRunIsInTime(w, before, max);
      RunKeepsInv(w, before, max);
      AloneIsInTime(Run(w, before, max), acts[|acts| - 1], max);
    }
  }

  function OneEvent(): World { World([Row(false, 0)], map[], [], [], [], [Idle, Idle]) }

  /** The rows are no longer locked while they are delivered, so two relays can be on one event, and a
      failure can be recorded late: here the slower relay's `_on_failure` deletes the inbox row of the faster
      one, and the event ends published with no inbox row at all. */
  lemma TwoRelaysLoseTheRow(max: nat)
    requires max >= 3
    ensures var counted := Step(Step(OneEvent(), Count(0, 0), max), Count(1, 0), max);
            var both := Step(Step(counted, Look(0), max), Look(1), max);
            var first := Step(Step(Step(both, Handle(0, true), max), Insert(0), max), Publish(0), max);
            var w := Step(Step(first, Handle(1, false), max), OnFailure(1), max);
            w.outbox[0].published && 0 !in w.inbox
  {
    var w2 := Step(Step(OneEvent(), Count(0, 0), max), Count(1, 0), max);
    assert w2.relays == [Counted(0), Counted(0)] && w2.outbox == [Row(false, 2)];
    var both := Step(Step(w2, Look(0), max), Look(1), max);
    assert both.relays == [Looked(0), Looked(0)];
    var first := Step(Step(Step(both, Handle(0, true), max), Insert(0), max), Publish(0), max);
    assert first.relays == [Idle, Looked(0)] && first.outbox == [Row(true, 2)];
    var w := Step(first, Handle(1, false), max);
    assert w.relays == [Idle, Raised(0)];
  }

  /** ... and here the same event is dead-lettered twice. */
  lemma TwoRelaysDeadLetterTwice(max: nat)
    requires max <= 2
    ensures var counted := Step(Step(OneEvent(), Count(0, 0), max), Count(1, 0), max);
            var both := Step(Step(counted, Look(0), max), Look(1), max);
            var raised := Step(Step(both, Handle(0, false), max), Handle(1, false), max);
            Step(Step(raised, OnFailure(0), max), OnFailure(1), max).dead == [0, 0]
  {
    var w2 := Step(Step(OneEvent(), Count(0, 0), max), Count(1, 0), max);
    assert w2.relays == [Counted(0), Counted(0)] && w2.outbox == [Row(false, 2)];
    var both := Step(Step(w2, Look(0), max), Look(1), max);
    assert both.relays == [Looked(0), Looked(0)];
    var raised := Step(Step(both, Handle(0, false), max), Handle(1, false), max);
    assert raised.relays == [Raised(0), Raised(0)];
    var last := Step(raised, OnFailure(0), max);
    assert last.relays == [Idle, Raised(0)] && last.dead == [0];
  }

  // ---------------------------------------------------------------- one delivery is one run

  /** A crash-free delivery is the run count, look, handle, insert or fail, publish. */
  lemma DeliveryIsARun(w: World, r: nat, e: EventId, ok: bool, max: nat)
    requires r < |w.relays| && w.relays[r].Idle? && e < |w.outbox|
    ensures var looked := Step(Step(w, Count(r, e), max), Look(r), max);
            Delivered(w, e, ok, max).0 ==
            if e in w.inbox then Step(looked, Publish(r), max)
            else if ok then Step(Step(Step(looked, Handle(r, true), max), Insert(r), max), Publish(r), max)
            else Step(Step(looked, Handle(r, false), max), OnFailure(r), max)
  {
    var looked := Step(Step(w, Count(r, e), max), Look(r), max);
    assert looked == At(Attempted(w, e), r, if e in w.inbox then Consumed(e) else Looked(e));
    assert w.relays[r := Idle] == w.relays;
  }

  // ---------------------------------------------------------------- the drain bound

  function Larger(a: int, b: int): int { if a >= b then a else b }

  /** How often the handler may still fail on `e` before it is dead-lettered. */
  function FailuresLeft(w: World, e: EventId, max: nat): nat
    requires e < |w.outbox|
  {
    if w.outbox[e].published || e in w.inbox then 0 else Larger(1, max - w.outbox[e].attempts)
  }

  /** How many deliveries `e` may still need. */
  function Need(w: World, e: EventId, max: nat): nat
    requires e < |w.outbox|
  {
    if w.outbox[e].published then 0 else 1 + FailuresLeft(w, e, max)
  }

  function TotalNeed(w: World, n: nat, max: nat): nat
    requires n <= |w.outbox|
  {
    if n == 0 then 0 else TotalNeed(w, n - 1, max) + Need(w, n - 1, max)
  }

  function Failures(w: World, e: EventId): nat { multiset(w.failed)[e] }

  /** A delivery of an unpublished event needs one delivery less afterwards; other events are not
      touched; every failed call is paid for out of `FailuresLeft`. */
  lemma DeliveredProgress(w: World, e: EventId, ok: bool, max: nat, x: EventId)
    requires e < |w.outbox| && x < |w.outbox| && !w.outbox[e].published
    ensures var w' := Delivered(w, e, ok, max).0;
            && |w'.outbox| == |w.outbox|
            && (x == e ==> Need(w', x, max) < Need(w, x, max))
            && (x != e ==> w'.outbox[x] == w.outbox[x] && Need(w', x, max) == Need(w, x, max))
            && Failures(w', x) + FailuresLeft(w', x, max) <= Failures(w, x) + FailuresLeft(w, x, max)
  {
    DeadAppend(w.failed, e, x);
  }

  lemma {:induction false} TotalAfterDelivery(w: World, e: EventId, ok: bool, max: nat, n: nat)
    requires e < |w.outbox| && !w.outbox[e].published && n <= |w.outbox|
    ensures var w' := Delivered(w, e, ok, max).0;
            TotalNeed(w', n, max) + (if e < n then 1 else 0) <= TotalNeed(w, n, max)
  {
    if n > 0 {
      TotalAfterDelivery(w, e, ok, max, n - 1);
      DeliveredProgress(w, e, ok, max, n - 1);
    }
  }

  lemma {:induction false} BatchProgress(w: World, batch: seq<EventId>, handler: Handler, max: nat, x: EventId)
    requires x < |w.outbox|
    requires forall i | 0 <= i < |batch| :: batch[i] < |w.outbox| && !w.outbox[batch[i]].published
    requires forall i, j | 0 <= i < j < |batch| :: batch[i] < batch[j]
    ensures var w' := DeliveredAll(w, batch, handler, max);
            && TotalNeed(w', |w.outbox|, max) + |batch| <= TotalNeed(w, |w.outbox|, max)
            && Failures(w', x) + FailuresLeft(w', x, max) <= Failures(w, x) + FailuresLeft(w, x, max)
    decreases |batch|
  {
    if batch != [] {
      var ok := handler(Calls(w));
      var w1 := Delivered(w, batch[0], ok, max).0;
      DeliveredProgress(w, batch[0], ok, max, x);
      TotalAfterDelivery(w, batch[0], ok, max, |w.outbox|);
      forall i | 0 <= i < |batch[1..]| ensures !w1.outbox[batch[1..][i]].published {
        DeliveredProgress(w, batch[0], ok, max, batch[1..][i]);
      }
      BatchProgress(w1, batch[1..], handler, max, x);
    }
  }

  ghost predicate AllPublished(w: World) {
    forall e | 0 <= e < |w.outbox| :: w.outbox[e].published
  }

  lemma {:induction false} NoNeedIffPublished(w: World, n: nat, max: nat)
    requires n <= |w.outbox|
    ensures TotalNeed(w, n, max) == 0 <==> forall e | 0 <= e < n :: w.outbox[e].published
  {
    if n > 0 {
      NoNeedIffPublished(w, n - 1, max);
    }
  }

  lemma {:induction false} TicksDrain(w: World, handler: Handler, max: nat, limit: nat, n: nat, x: EventId)
    requires limit > 0 && x < |w.outbox|
    ensures var w' := Ticks(w, handler, max, limit, n);
            && TotalNeed(w', |w.outbox|, max) <= Larger(0, TotalNeed(w, |w.outbox|, max) - n)
            && Failures(w', x) + FailuresLeft(w', x, max) <= Failures(w, x) + FailuresLeft(w, x, max)
    decreases n
  {
    if n > 0 {
      BatchProgress(w, Unpublished(w.outbox, 0, limit), handler, max, x);
      TicksDrain(Ticked(w, handler, max, limit), handler, max, limit, n - 1, x);
      NoNeedIffPublished(w, |w.outbox|, max);
    }
  }

  function CountUnpublished(outbox: seq<Row>): nat {
    if outbox == [] then 0
    else CountUnpublished(outbox[..|outbox| - 1]) + (if outbox[|outbox| - 1].published then 0 else 1)
  }

  lemma {:induction false} NeedBound(w: World, n: nat, max: nat)
    requires n <= |w.outbox| && max >= 1
    ensures TotalNeed(w, n, max) <= (max + 1) * CountUnpublished(w.outbox[..n])
  {
    if n > 0 {
      NeedBound(w, n - 1, max);
      assert w.outbox[..n][..n - 1] == w.outbox[..n - 1];
      var c := CountUnpublished(w.outbox[..n - 1]);
      assert (max + 1) * (c + 1) == (max + 1) * c + (max + 1);
    }
  }

  /** Without crashes, N unpublished events are all published within (max + 1) * N ticks, whatever the
      handler does, and none of them costs more than `max` further failing handler calls. */
  lemma OutboxDrains(w: World, handler: Handler, max: nat, limit: nat, n: nat)
    requires limit > 0 && max >= 1 && n >= (max + 1) * CountUnpublished(w.outbox)
    ensures var w' := Ticks(w, handler, max, limit, n);
            && AllPublished(w')
            && forall e | 0 <= e < |w.outbox| :: Failures(w', e) <= Failures(w, e) + max
  {
    var w' := Ticks(w, handler, max, limit, n);
    assert w.outbox[..|w.outbox|] == w.outbox;
    NeedBound(w, |w.outbox|, max);
    forall e | 0 <= e < |w.outbox| ensures Failures(w', e) <= Failures(w, e) + max {
      TicksDrain(w, handler, max, limit, n, e);
    }
    if |w.outbox| > 0 {
      TicksDrain(w, handler, max, limit, n, 0);
      NoNeedIffPublished(w', |w.outbox|, max);
    }
  }
}
