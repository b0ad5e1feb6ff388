/** Which events a relay takes, and how often it tries one that keeps failing. */
module RelayLaws {
  import opened Relay
  import opened RelayProofs

  /** A batch is made of the first unpublished events: exactly those with fewer than `limit` unpublished
      ones before them. */
  lemma {:induction false} BatchIsTheFirst(outbox: seq<Row>, from: nat, limit: nat, e: nat)
    requires from <= e < |outbox|
    ensures e in Unpublished(outbox, from, limit) <==>
              !outbox[e].published && CountUnpublished(outbox[from..e]) < limit
    decreases |outbox| - from
  {
    if from < e {
      CountFromFront(outbox[from..e]);
      assert outbox[from..e][1..] == outbox[from + 1..e];
    }
    if limit > 0 && from < e {
      BatchIsTheFirst(outbox, from + 1, if outbox[from].published then limit else limit - 1, e);
    }
  }

  lemma {:induction false} CountFromFront(rows: seq<Row>)
    requires rows != []
    ensures CountUnpublished(rows) == (if rows[0].published then 0 else 1) + CountUnpublished(rows[1..])
  {
    if |rows| > 1 {
      CountFromFront(rows[..|rows| - 1]);
      assert rows[..|rows| - 1][1..] == rows[1..][..|rows[1..]| - 1];
    } else {
      assert rows[1..] == [] && rows[..|rows| - 1] == [];
    }
  }

  /** `n` deliveries of event `e`, the handler raising whenever it is called. */
  function Tried(w: World, e: EventId, n: nat, max: nat): (w': World)
    requires e < |w.outbox|
    ensures |w'.outbox| == |w.outbox|
  {
    if n == 0 then w else Delivered(Tried(w, e, n - 1, max), e, false, max).0
  }

  /** An event that keeps failing is given to the handler exactly `max` times, once at least; then, and not
      before, it is a dead letter; and the next delivery marks it published without calling the handler. */
  lemma {:induction false} TriedMaxTimes(w: World, e: EventId, n: nat, max: nat)
    requires e < |w.outbox| && w.outbox[e] == Row(false, 0) && e !in w.inbox && e !in w.dead
    ensures var w', tries := Tried(w, e, n, max), if max == 0 then 1 else max;
            && w'.outbox[e].attempts == n
            && Failures(w', e) == Failures(w, e) + (if n < tries then n else tries)
            && w'.succeeded == w.succeeded
            && (e in w'.dead <==> n >= tries)
            && (if n >= tries then e in w'.inbox && w'.inbox[e] == DeadLettered else e !in w'.inbox)
            && (w'.outbox[e].published <==> n > tries)
  {
    if n > 0 {
      TriedMaxTimes(w, e, n - 1, max);
      var w1 := Tried(w, e, n - 1, max);
      assert (w1.failed + [e])[..|w1.failed|] == w1.failed;
    }
  }
}
