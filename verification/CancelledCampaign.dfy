/** An attempt at which a job ends CANCELLED and its campaign READY_FOR_REVIEW. */
module CancelledCampaign {
  import opened Common
  import opened Checkpoints
  import opened Leasing
  import opened Ownership
  import opened Pipeline
  import opened PipelineHandlerModule
  import opened WorkerModule

  /** One company found, not enriched yet. */
  const FOUND_ONE := Checkpoint(InEnrichment, 0, [7], [], 0, 0, 0, 0)

  /** Nothing raises. */
  function Smooth(): Outside {
    Outside(Planned(false, 1), Polled([], true, true), (_: nat) => Some([]), (_: Unit) => true, None, true)
  }

  /** Any attempt that starts with a company on record, where nobody interferes and nothing raises: if
      the cancellation was asked for before the claim, the job ends CANCELLED and the campaign is
      closed all the same. */
  method CancelledButClosed(worker: Worker, id: JobId) returns (closed: bool)
    requires worker.Sane() && worker.knows(id)
    requires id in worker.db.jobs && worker.db.minted > 0
    requires Holds(worker.db.jobs[id], worker.db.minted - 1, worker.db.jobs[id].version)
    requires worker.db.jobs[id].state == Planning && worker.db.jobs[id].cancelRequested
    requires worker.db.jobs[id].checkpoint == FOUND_ONE
    modifies worker.db
    ensures closed && id in worker.db.jobs && worker.db.jobs[id].state == Cancelled
  {
    var nobody := (t: Token, n: nat) => [];
    assert forall t: Token, n: nat :: AllForeign(nobody(t, n), t) && AllSound(nobody(t, n));
    ghost var cancelled;
    var ending, ops;
    ending, ops, closed, cancelled := worker.Work(id, Smooth(), nobody, (n: nat) => 0);
    ReplayGrows(ops.given, ops.events);
  }

  // ---------------------------------------------------------------- a run that leads there

  const CREATE := Create(0, 0, "q", 3, 0, 0)
  const CLAIM := Claim(Some(0), {"q"}, {}, 10, 0)
  const SAVE := Fenced(0, 0, 1, Save(FOUND_ONE, Some(Enriching), 10), 0)
  const CRASH := Fenced(0, 0, 1, Fail("crash"), 0)
  const CANCEL := RequestCancel(0, 0, 0)

  function Only(row: Job, issued: seq<Lease>): World {
    World(map[0 := row], issued)
  }

  /** One job, one operation on it. */
  lemma OnOnly(row: Job, issued: seq<Lease>, op: Op)
    requires !op.Create?
    ensures Step(Only(row, issued), op) == Only(RowAfter(Only(row, issued), op, 0), IssuedAfter(Only(row, issued), op))
  {
  }

  lemma ClaimOnly(row: Job, issued: seq<Lease>)
    requires Claimable(row, {"q"})
    ensures Step(Only(row, issued), CLAIM)
            == Only(Claimed(row, |issued|, 10, 0), issued + [Lease(0, row.version + 1, row.checkpoint)])
  {
    OnOnly(row, issued, CLAIM);
  }

  lemma RunOneMore(ops: seq<Op>, op: Op)
    ensures Run(START, ops + [op]) == Step(Run(START, ops), op)
  {
    assert (ops + [op])[..|ops|] == ops;
  }

  function Queued1(): Job { NewJob(0, "q", 3, 0, 0) }
  function Leased1(): Job { Claimed(Queued1(), 0, 10, 0) }
  function Saved1(): Job { Written(Leased1(), SAVE.write, 0) }
  function Crashed1(): Job { Written(Saved1(), CRASH.write, 0) }
  function Asked1(): Job { Crashed1().(cancelRequested := true, updatedAt := 0) }

  lemma Leased()
    ensures Run(START, [CREATE] + [CLAIM]) == Only(Leased1(), [Lease(0, 1, EMPTY)])
  {
    RunOneMore([], CREATE);
    assert [] + [CREATE] == [CREATE];
    assert Step(START, CREATE).jobs == map[0 := Queued1()];
    RunOneMore([CREATE], CLAIM);
    ClaimOnly(Queued1(), []);
  }

  lemma FirstAttempt()
    ensures Run(START, [CREATE] + [CLAIM] + [SAVE] + [CRASH]) == Only(Crashed1(), [Lease(0, 1, FOUND_ONE)])
  {
    Leased();
    RunOneMore([CREATE] + [CLAIM], SAVE);
    OnOnly(Leased1(), [Lease(0, 1, EMPTY)], SAVE);
    RunOneMore([CREATE] + [CLAIM] + [SAVE], CRASH);
    OnOnly(Saved1(), [Lease(0, 1, FOUND_ONE)], CRASH);
  }

  /** A job that comes to such an attempt: it found its company, crashed, and was cancelled in the queue. */
  lemma ReachesSuchAnAttempt()
    ensures var w := Run(START, [CREATE] + [CLAIM] + [SAVE] + [CRASH] + [CANCEL] + [CLAIM]);
            && 0 in w.jobs && |w.issued| == 2 && Holds(w.jobs[0], 1, w.jobs[0].version)
            && w.jobs[0].state == Planning && w.jobs[0].cancelRequested && w.jobs[0].checkpoint == FOUND_ONE
  {
    FirstAttempt();
    RunOneMore([CREATE] + [CLAIM] + [SAVE] + [CRASH], CANCEL);
    OnOnly(Crashed1(), [Lease(0, 1, FOUND_ONE)], CANCEL);
    RunOneMore([CREATE] + [CLAIM] + [SAVE] + [CRASH] + [CANCEL], CLAIM);
    ClaimOnly(Asked1(), [Lease(0, 1, FOUND_ONE)]);
  }
}
