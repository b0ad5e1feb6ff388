/** What a worker may rely on while it holds a lease, whatever everybody else does. */
module Ownership {
  import opened Checkpoints
  import opened Leasing
  import opened LeasingRuns

  /** A statement of somebody who does not know this token. */
  predicate Foreign(op: Op, token: Token) {
    (op.Fenced? ==> op.token != token) && (op.Heartbeat? ==> op.token != token)
  }

  ghost predicate AllForeign(ops: seq<Op>, token: Token) {
    forall i | 0 <= i < |ops| :: Foreign(ops[i], token)
  }

  /** The two rows differ at most in that a cancellation was asked for. */
  predicate OnlyAsked(a: Job, b: Job) {
    b == a.(cancelRequested := b.cancelRequested, updatedAt := b.updatedAt) && (a.cancelRequested ==> b.cancelRequested)
  }

  ghost predicate LeaseOf(w: World, j: JobId, token: Token, version: nat, seen: Checkpoint) {
    j in w.jobs && token < |w.issued| && w.issued[token] == Lease(j, version, seen)
  }

  lemma ForeignLease(w: World, op: Op, j: JobId, token: Token, version: nat, seen: Checkpoint)
    requires Foreign(op, token) && LeaseOf(w, j, token, version, seen)
    ensures LeaseOf(Step(w, op), j, token, version, seen)
  {
  }

  lemma ForeignRow(w: World, op: Op, j: JobId, token: Token, version: nat)
    requires Foreign(op, token) && j in w.jobs && token < |w.issued| && RowInv(w.issued, w.jobs[j], j)
    ensures var after := RowAfter(w, op, j);
            Holds(after, token, version) ==> Holds(w.jobs[j], token, version) && OnlyAsked(w.jobs[j], after)
    ensures w.jobs[j].cancelRequested ==> RowAfter(w, op, j).cancelRequested
  {
  }

  lemma ForeignStep(w: World, op: Op, j: JobId, token: Token, version: nat, seen: Checkpoint)
    requires Inv(w) && Foreign(op, token) && LeaseOf(w, j, token, version, seen)
    ensures Inv(Step(w, op)) && LeaseOf(Step(w, op), j, token, version, seen)
    ensures var after := Step(w, op).jobs[j];
            Holds(after, token, version) ==> Holds(w.jobs[j], token, version) && OnlyAsked(w.jobs[j], after)
    ensures w.jobs[j].cancelRequested ==> Step(w, op).jobs[j].cancelRequested
  {
    StepKeepsInv(w, op);
    ForeignLease(w, op, j, token, version, seen);
    ForeignRow(w, op, j, token, version);
    assert Step(w, op).jobs[j] == RowAfter(w, op, j);
  }

  /** While a lease lasts nobody else changes the row, except to ask for cancellation; and a lease that
      is still held at the end was held all along. */
  lemma {:induction false} HeldAlone(w: World, ops: seq<Op>, j: JobId, token: Token, version: nat, seen: Checkpoint)
    requires Inv(w) && AllForeign(ops, token) && LeaseOf(w, j, token, version, seen)
    ensures Inv(Run(w, ops)) && LeaseOf(Run(w, ops), j, token, version, seen)
    ensures var after := Run(w, ops).jobs[j];
            Holds(after, token, version) ==> Holds(w.jobs[j], token, version) && OnlyAsked(w.jobs[j], after)
    ensures w.jobs[j].cancelRequested ==> Run(w, ops).jobs[j].cancelRequested
  {
    if ops != [] {
      var before := ops[..|ops| - 1];
      HeldAlone(w, before, j, token, version, seen);
      ForeignStep(Run(w, before), ops[|ops| - 1], j, token, version, seen);
    }
  }

  /** A statement of the holder itself. */
  lemma OwnStep(w: World, j: JobId, token: Token, version: nat, seen: Checkpoint, write: Write, now: int)
    requires Inv(w) && LeaseOf(w, j, token, version, seen)
    ensures var op := Fenced(j, token, version, write, now);
            var ok := Accepts(w.jobs[j], token, version, write);
            && Inv(Step(w, op))
            && Step(w, op).jobs[j] == (if ok then Written(w.jobs[j], write, now) else w.jobs[j])
            && LeaseOf(Step(w, op), j, token, version, if ok && write.Save? then write.checkpoint else seen)
  {
    var op := Fenced(j, token, version, write, now);
    StepKeepsInv(w, op);
    assert Step(w, op).jobs[j] == RowAfter(w, op, j);
  }

  lemma OwnBeat(w: World, j: JobId, token: Token, version: nat, seen: Checkpoint, secs: int, now: int)
    requires Inv(w) && LeaseOf(w, j, token, version, seen)
    ensures var op := Op.Heartbeat(j, token, secs, now);
            && Inv(Step(w, op)) && LeaseOf(Step(w, op), j, token, version, seen)
            && Step(w, op).jobs[j].state == w.jobs[j].state
            && Step(w, op).jobs[j].cancelRequested == w.jobs[j].cancelRequested
            && (Holds(Step(w, op).jobs[j], token, version) <==> Holds(w.jobs[j], token, version))
  {
    var op := Op.Heartbeat(j, token, secs, now);
    StepKeepsInv(w, op);
    assert Step(w, op).jobs[j] == RowAfter(w, op, j);
  }
}
