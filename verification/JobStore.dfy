/** runtime/leasing.py: the job table, updated in place, one method per function.

    Every method is one transaction, and each is proved to be the step of `Leasing` that the
    properties in `LeasingRuns` are about. A fenced method returns false where the source raises
    LeaseLostError. */
module JobStoreModule {
  import opened Common
  import opened Checkpoints
  import opened Leasing
  import opened LeasingRuns
  import opened LeasingLaws

  /** One row of the table is rewritten: the step that changes just that row. */
  lemma OneRow(w: World, op: Op, id: JobId, row: Job)
    requires id in w.jobs && !op.Create?
    requires RowAfter(w, op, id) == row
    requires forall k | k in w.jobs && k != id :: RowAfter(w, op, k) == w.jobs[k]
    ensures w.jobs[id := row] == Step(w, op).jobs
  {
  }

  lemma NoRow(w: World, op: Op)
    requires !op.Create?
    requires forall k | k in w.jobs :: RowAfter(w, op, k) == w.jobs[k]
    ensures w.jobs == Step(w, op).jobs
  {
  }

  function WakeRows(rows: map<JobId, Job>, only: Option<set<string>>, minAge: int, now: int): map<JobId, Job> {
    map j | j in rows ::
      if Wakes(rows[j], only, minAge, now) then rows[j].(state := Queued, updatedAt := now) else rows[j]
  }

  lemma WakeRowsIsWake(w: World, only: Option<set<string>>, minAge: int, now: int)
    ensures World(WakeRows(w.jobs, only, minAge, now), w.issued) == Step(w, Wake(only, minAge, now))
  {
  }

  function FailRows(rows: map<JobId, Job>, failed: set<JobId>, now: int): map<JobId, Job> {
    map j | j in rows ::
      if j in failed
      then Released(rows[j], Failed, now).(finishedAt := Some(now), lastError := REAPED_SPENT)
      else rows[j]
  }

  function RequeueRows(rows: map<JobId, Job>, requeued: set<JobId>, now: int): map<JobId, Job> {
    map j | j in rows ::
      if j in requeued then Released(rows[j], Queued, now).(lastError := REAPED) else rows[j]
  }

  /** The second statement sees the rows the first one has already failed. */
  lemma SecondStatementSees(rows: map<JobId, Job>, failed: set<JobId>, now: int)
    ensures (set j | j in FailRows(rows, failed, now) && Expired(FailRows(rows, failed, now)[j], now))
            == ExpiredLeft(rows, failed, now)
  {
  }

  lemma TwoUpdatesAreReclaim(w: World, batch: nat, failed: set<JobId>, requeued: set<JobId>, now: int)
    requires LegalReclaim(w.jobs, batch, failed, requeued, now)
    ensures RequeueRows(FailRows(w.jobs, failed, now), requeued, now)
            == Step(w, Reclaim(batch, failed, requeued, now)).jobs
  {
    RequeuedHaveBudget(w.jobs, batch, failed, requeued, now);
  }

  predicate RunsAt(row: Job, now: int) {
    row.expires.None? || row.expires.value >= now
  }

  lemma ReapedOnColumns(w: World, op: Op)
    requires Inv(w) && op.Reclaim? && LegalReclaim(w.jobs, op.batch, op.failed, op.requeued, op.now)
    ensures |op.failed| + |op.requeued| <= op.batch && Step(w, op).jobs.Keys == w.jobs.Keys
    ensures forall j | j in w.jobs && RunsAt(w.jobs[j], op.now) :: Step(w, op).jobs[j] == w.jobs[j]
    ensures |op.failed| + |op.requeued| < op.batch ==> forall j | j in w.jobs :: RunsAt(Step(w, op).jobs[j], op.now)
  {
    RequeuedHaveBudget(w.jobs, op.batch, op.failed, op.requeued, op.now);
    forall j | j in w.jobs && RunsAt(w.jobs[j], op.now) ensures Step(w, op).jobs[j] == w.jobs[j] {
      LiveLeaseIsLeft(w, op, j);
    }
    if |op.failed| + |op.requeued| < op.batch {
      forall j | j in w.jobs ensures RunsAt(Step(w, op).jobs[j], op.now) {
        NoneLapsed(w, op, j);
      }
    }
  }

  lemma NoneLapsed(w: World, op: Op, j: JobId)
    requires Inv(w) && op.Reclaim? && LegalReclaim(w.jobs, op.batch, op.failed, op.requeued, op.now)
    requires |op.failed| + |op.requeued| < op.batch && j in w.jobs
    ensures RunsAt(Step(w, op).jobs[j], op.now)
  {
    if RunsAt(w.jobs[j], op.now) {
      LiveLeaseIsLeft(w, op, j);
    } else {
      LapsedLeaseIsTaken(w, op, j);
    }
  }

  class JobStore {
    var jobs: map<JobId, Job>
    var minted: nat             // tokens handed out so far
    ghost var issued: seq<Lease>

    ghost predicate Valid() reads this {
      minted == |issued| && Inv(Now())
    }

    ghost function Now(): World reads this {
      World(jobs, issued)
    }

    constructor ()
      ensures Valid() && Now() == START
    {
      jobs, minted, issued := map[], 0, [];
    }

    method CreateJob(id: JobId, org: nat, queue: string, maxAttempts: nat, priority: int, now: int)
      requires Valid() && id !in jobs
      modifies this
      ensures Valid() && Now() == Step(old(Now()), Create(id, org, queue, maxAttempts, priority, now))
      ensures jobs == old(jobs)[id := jobs[id]] && jobs[id].state == Queued && jobs[id].queue == queue
      ensures jobs[id].org == org && jobs[id].priority == priority && jobs[id].createdAt == now
      ensures jobs[id].attempts == 0 && jobs[id].maxAttempts == maxAttempts && jobs[id].token == None
      ensures jobs[id].checkpoint == EMPTY && !jobs[id].cancelRequested
    {
      StepKeepsInv(Now(), Create(id, org, queue, maxAttempts, priority, now));
      ghost var w := Now();
      jobs := jobs[id := NewJob(org, queue, maxAttempts, priority, now)];
      assert jobs == Step(w, Create(id, org, queue, maxAttempts, priority, now)).jobs;
    }

    /** The subselect of claim_next: the first claimable unlocked row in (priority, created_at) order. */
    method NextClaimable(queues: set<string>, locked: set<JobId>) returns (best: Option<JobId>)
      ensures LegalClaim(jobs, best, queues, locked)
    {
      best := None;
      var pending := jobs.Keys;
      while pending != {}
        invariant pending <= jobs.Keys
        invariant best.Some? ==>
            best.value in jobs && best.value !in locked && Claimable(jobs[best.value], queues)
        invariant forall k | k in jobs && k !in pending && k !in locked && Claimable(jobs[k], queues) ::
                    best.Some? && Before(jobs[best.value], jobs[k])
        decreases |pending|
      {
        var k :| k in pending;
        pending := pending - {k};
        if k !in locked && Claimable(jobs[k], queues) {
          if best == None || !Before(jobs[best.value], jobs[k]) {
            best := Some(k);
          }
        }
      }
    }

    /** The row of a claim is stamped and its lease handed over. */
    method Grant(id: JobId, queues: set<string>, locked: set<JobId>, secs: int, now: int)
      requires Valid() && LegalClaim(jobs, Some(id), queues, locked)
      modifies this
      ensures Valid() && Now() == Step(old(Now()), Claim(Some(id), queues, locked, secs, now))
      ensures minted == old(minted) + 1
      ensures var row := old(jobs)[id];
              jobs == old(jobs)[id := row.(state := Planning, token := Some(old(minted)), version := row.version + 1,
                                           expires := Some(now + secs), attempts := row.attempts + 1,
                                           updatedAt := now)]
    {
      ghost var w, op := Now(), Claim(Some(id), queues, locked, secs, now);
      StepKeepsInv(w, op);
      OneRow(w, op, id, Claimed(jobs[id], minted, secs, now));
      issued := issued + [Lease(id, jobs[id].version + 1, jobs[id].checkpoint)];
      jobs := jobs[id := Claimed(jobs[id], minted, secs, now)];
      minted := minted + 1;
    }

    method ClaimNext(queues: set<string>, locked: set<JobId>, secs: int, now: int) returns (claimed: Option<JobId>)
      requires Valid()
      modifies this
      ensures Valid()
      ensures LegalClaim(old(jobs), claimed, queues, locked)
      ensures Now() == Step(old(Now()), Claim(claimed, queues, locked, secs, now))
      ensures claimed.None? ==> jobs == old(jobs) && minted == old(minted)
      ensures claimed.Some? ==>
                var row := old(jobs)[claimed.value];
                && minted == old(minted) + 1
                && jobs == old(jobs)[claimed.value := row.(state := Planning, token := Some(old(minted)),
                                                           version := row.version + 1, expires := Some(now + secs),
                                                           attempts := row.attempts + 1, updatedAt := now)]
    {
      claimed := NextClaimable(queues, locked);
      match claimed {
        case None =>
          ghost var op := Claim(None, queues, locked, secs, now);
          StepKeepsInv(Now(), op);
          NoRow(Now(), op);
        case Some(id) =>
          Grant(id, queues, locked, secs, now);
      }
    }

    method Heartbeat(id: JobId, token: Token, secs: int, now: int) returns (ok: bool)
      requires Valid()
      modifies this
      ensures Valid() && Now() == Step(old(Now()), Leasing.Op.Heartbeat(id, token, secs, now))
      ensures ok <==> id in old(jobs) && old(jobs)[id].token == Some(token)
                      && old(jobs)[id].state !in {ReadyForReview, Cancelled, Failed}
      ensures ok ==> jobs == old(jobs)[id := old(jobs)[id].(expires := Some(now + secs), updatedAt := now)]
      ensures !ok ==> jobs == old(jobs)
    {
      ghost var w, op := Now(), Leasing.Op.Heartbeat(id, token, secs, now);
      StepKeepsInv(w, op);
      ok := id in jobs && Beats(jobs[id], token);
      if ok {
        OneRow(w, op, id, jobs[id].(expires := Some(now + secs), updatedAt := now));
        jobs := jobs[id := jobs[id].(expires := Some(now + secs), updatedAt := now)];
      } else {
        NoRow(w, op);
      }
    }

    /** UPDATE ... WHERE id = ... AND lease_token = ... AND lease_version = ...; false is "0 rows". */
    method FencedWrite(id: JobId, token: Token, version: nat, write: Write, now: int) returns (ok: bool)
      requires Valid()
      modifies this
      ensures Valid() && Now() == Step(old(Now()), Fenced(id, token, version, write, now))
      ensures ok <==> id in old(jobs) && Accepts(old(jobs)[id], token, version, write)
      ensures jobs.Keys == old(jobs).Keys && minted == old(minted)
    {
      ghost var w, op := Now(), Fenced(id, token, version, write, now);
      StepKeepsInv(w, op);
      ok := id in jobs && Accepts(jobs[id], token, version, write);
      if ok {
        assert RowInv(w.issued, w.jobs[id], id);
        OneRow(w, op, id, Written(jobs[id], write, now));
        issued := IssuedAfter(w, op);
        jobs := jobs[id := Written(jobs[id], write, now)];
      } else {
        NoRow(w, op);
      }
    }

    method RequestCancel(id: JobId, org: nat, now: int) returns (ok: bool)
      requires Valid()
      modifies this
      ensures Valid() && Now() == Step(old(Now()), Leasing.Op.RequestCancel(id, org, now))
      ensures ok <==> id in old(jobs) && old(jobs)[id].org == org
                      && old(jobs)[id].state !in {ReadyForReview, Cancelled, Failed}
      ensures ok ==> jobs == old(jobs)[id := old(jobs)[id].(cancelRequested := true, updatedAt := now)]
      ensures !ok ==> jobs == old(jobs)
    {
      ghost var w, op := Now(), Leasing.Op.RequestCancel(id, org, now);
      StepKeepsInv(w, op);
      ok := id in jobs && jobs[id].org == org && Open(jobs[id].state);
      if ok {
        OneRow(w, op, id, jobs[id].(cancelRequested := true, updatedAt := now));
        jobs := jobs[id := jobs[id].(cancelRequested := true, updatedAt := now)];
      } else {
        NoRow(w, op);
      }
    }

    method ResumeJob(id: JobId, org: nat, now: int) returns (ok: bool)
      requires Valid()
      modifies this
      ensures Valid() && Now() == Step(old(Now()), Resume(id, org, now))
      ensures ok <==> id in old(jobs) && old(jobs)[id].org == org && old(jobs)[id].state in {Paused, WaitingForUser}
      ensures ok ==> jobs == old(jobs)[id := old(jobs)[id].(state := Queued, updatedAt := now)]
      ensures !ok ==> jobs == old(jobs)
    {
      ghost var w, op := Now(), Resume(id, org, now);
      StepKeepsInv(w, op);
      ok := id in jobs && jobs[id].org == org && Resumable(jobs[id]);
      if ok {
        OneRow(w, op, id, jobs[id].(state := Queued, updatedAt := now));
        jobs := jobs[id := jobs[id].(state := Queued, updatedAt := now)];
      } else {
        NoRow(w, op);
      }
    }

    method WakeParked(only: Option<set<string>>, minAge: int, now: int)
      requires Valid()
      modifies this
      ensures Valid() && Now() == Step(old(Now()), Wake(only, minAge, now))
    {
      StepKeepsInv(Now(), Wake(only, minAge, now));
      WakeRowsIsWake(Now(), only, minAge, now);
      jobs := WakeRows(jobs, only, minAge, now);
    }

    /** SELECT id ... LIMIT `limit` over the rows in `eligible`, in whatever order the scan meets them. */
    method SelectLimited(eligible: set<JobId>, limit: nat) returns (picked: set<JobId>)
      ensures Limited(picked, eligible, limit)
    {
      picked := {};
      var rest := eligible;
      while rest != {} && |picked| < limit
        invariant picked !! rest && picked + rest == eligible && |picked| <= limit
        decreases |rest|
      {
        var j :| j in rest;
        picked, rest := picked + {j}, rest - {j};
      }
    }

    /** The two statements. */
    method Sweep(batch: nat, now: int) returns (failed: set<JobId>, requeued: set<JobId>)
      requires Valid()
      modifies this
      ensures Valid()
      ensures LegalReclaim(old(jobs), batch, failed, requeued, now)
      ensures Now() == Step(old(Now()), Reclaim(batch, failed, requeued, now))
    {
      ghost var w := Now();
      failed := SelectLimited(ExpiredSpent(jobs, now), batch);
      requeued := {};
      jobs := FailRows(jobs, failed, now);
      SecondStatementSees(w.jobs, failed, now);
      var remaining := batch - |failed|;
      if remaining > 0 {
        var expired := set j | j in jobs && Expired(jobs[j], now);
        requeued := SelectLimited(expired, remaining);
        jobs := RequeueRows(jobs, requeued, now);
      } else {
        assert jobs == RequeueRows(jobs, requeued, now);
      }
      TwoUpdatesAreReclaim(w, batch, failed, requeued, now);
      StepKeepsInv(w, Reclaim(batch, failed, requeued, now));
    }

    method ReclaimExpired(batch: nat, now: int) returns (failed: set<JobId>, requeued: set<JobId>)
      requires Valid()
      modifies this
      ensures Valid()
      ensures LegalReclaim(old(jobs), batch, failed, requeued, now)
      ensures Now() == Step(old(Now()), Reclaim(batch, failed, requeued, now))
      ensures jobs.Keys == old(jobs).Keys && |failed| + |requeued| <= batch
      ensures forall j | j in jobs && RunsAt(old(jobs)[j], now) :: jobs[j] == old(jobs)[j]
      ensures |failed| + |requeued| < batch ==> forall j | j in jobs :: RunsAt(jobs[j], now)
    {
      ghost var w := Now();
      failed, requeued := Sweep(batch, now);
      ReapedOnColumns(w, Reclaim(batch, failed, requeued, now));
    }

    // ---------------------------------------------------------------- everybody else

    method Reap(batch: nat, failed: set<JobId>, requeued: set<JobId>, now: int)
      requires Valid() && LegalReclaim(jobs, batch, failed, requeued, now)
      modifies this
      ensures Valid() && Now() == Step(old(Now()), Reclaim(batch, failed, requeued, now))
    {
      StepKeepsInv(Now(), Reclaim(batch, failed, requeued, now));
      TwoUpdatesAreReclaim(Now(), batch, failed, requeued, now);
      jobs := RequeueRows(FailRows(jobs, failed, now), requeued, now);
    }

    method Nothing(op: Op)
      requires Valid() && Step(Now(), op).issued == issued
      requires op.Create? ==> op.id in jobs
      requires forall k | k in jobs :: RowAfter(Now(), op, k) == jobs[k]
      ensures Valid() && Now() == Step(Now(), op)
    {
      assert jobs == Step(Now(), op).jobs;
    }

    /** Any operation at all, carried out by somebody. */
    method Perform(op: Op)
      requires Valid()
      modifies this
      ensures Valid() && Now() == Step(old(Now()), op)
    {
      match op
      case Create(id, org, queue, maxAttempts, priority, now) =>
        if id in jobs { Nothing(op); } else { CreateJob(id, org, queue, maxAttempts, priority, now); }
      case Claim(choice, queues, locked, secs, now) =>
        if choice.Some? && LegalClaim(jobs, choice, queues, locked) {
          Grant(choice.value, queues, locked, secs, now);
        } else {
          Nothing(op);
        }
      case Heartbeat(id, token, secs, now) => var _ := Heartbeat(id, token, secs, now);
      case Fenced(id, token, version, write, now) => var _ := FencedWrite(id, token, version, write, now);
      case RequestCancel(id, org, now) => var _ := RequestCancel(id, org, now);
      case Resume(id, org, now) => var _ := ResumeJob(id, org, now);
      case Wake(only, minAge, now) => WakeParked(only, minAge, now);
      case Reclaim(batch, failed, requeued, now) =>
        if LegalReclaim(jobs, batch, failed, requeued, now) {
          Reap(batch, failed, requeued, now);
        } else {
          Nothing(op);
        }
    }

    /** What everybody else does between two statements of a worker. */
    method Meanwhile(ops: seq<Op>)
      requires Valid()
      modifies this
      ensures Valid() && Now() == Run(old(Now()), ops)
    {
      for i := 0 to |ops|
        invariant Valid() && Now() == Run(old(Now()), ops[..i])
      {
        assert ops[..i + 1][..i] == ops[..i];
        Perform(ops[i]);
      }
      assert ops[..|ops|] == ops;
    }
  }
}
