/** An attempt that LeaseLostError makes `run_once` raise: a job without a handler whose lease is reaped
    before the failure is recorded. */
module EscapedLease {
  import opened Common
  import opened Checkpoints
  import opened Leasing
  import opened Ownership
  import opened Pipeline
  import opened PipelineHandlerModule
  import opened WorkerModule
  import CancelledCampaign

  /** The only job, its lease lapsed and an attempt left, is reaped before the attempt's first statement. */
  method ReapedThenEscapes(worker: Worker, id: JobId, now: int) returns (ending: Ending)
    requires worker.Sane() && !worker.knows(id)
    requires worker.db.jobs.Keys == {id} && worker.db.minted > 0
    requires Holds(worker.db.jobs[id], worker.db.minted - 1, worker.db.jobs[id].version)
    requires worker.db.jobs[id].state == Planning
    requires Expired(worker.db.jobs[id], now) && !Spent(worker.db.jobs[id])
    modifies worker.db
    ensures ending.Escaped?
  {
    ghost var w := worker.db.Now();
    var reap := Reclaim(REAPER_BATCH, {}, {id}, now);
    var reaper := (t: Token, n: nat) => if n == 0 then [reap] else [];
    assert forall t: Token, n: nat :: AllForeign(reaper(t, n), t) && AllSound(reaper(t, n));
    Reaped(w, id, now);
    var ops, closed;
    ghost var cancelled;
    ending, ops, closed, cancelled := worker.Work(id, CancelledCampaign.Smooth(), reaper, (n: nat) => 0);
    assert ops.Found(w, 0) == Run(w, [reap]);
  }

  lemma Reaped(w: World, id: JobId, now: int)
    requires w.jobs.Keys == {id} && Expired(w.jobs[id], now) && !Spent(w.jobs[id])
    ensures var w' := Run(w, [Reclaim(REAPER_BATCH, {}, {id}, now)]); id in w'.jobs && w'.jobs[id].token == None
  {
    var reap := Reclaim(REAPER_BATCH, {}, {id}, now);
    assert [reap][..0] == [] && Run(w, []) == w;
    assert id in w.jobs && Run(w, [reap]) == Step(w, reap);
    assert ExpiredSpent(w.jobs, now) == {} && ExpiredLeft(w.jobs, {}, now) == {id};
    assert LegalReclaim(w.jobs, REAPER_BATCH, {}, {id}, now);
    assert Run(w, [reap]).jobs[id] == RowAfter(w, reap, id);
  }

  /** Creating a job and claiming it for ten seconds leads there, eleven seconds later. */
  lemma ReachesSuchALease()
    ensures var w := Run(START, [CancelledCampaign.CREATE] + [CancelledCampaign.CLAIM]);
            && w.jobs.Keys == {0} && |w.issued| == 1 && Holds(w.jobs[0], 0, w.jobs[0].version)
            && w.jobs[0].state == Planning && Expired(w.jobs[0], 11) && !Spent(w.jobs[0])
  {
    CancelledCampaign.Leased();
  }
}
