/** What the statements of runtime/leasing.py mean for a row, said on its columns: which row a claim takes,
    how long a lease is safe from the reaper, what a failure, a park or a cancellation makes of a job. */
module LeasingLaws {
  import opened Common
  import opened Checkpoints
  import opened Leasing
  import opened LeasingRuns
  import opened Ownership

  // ---------------------------------------------------------------- claiming

  /** In one of the queues, waiting, not locked by somebody else, and with an attempt left. */
  predicate Waits(jobs: map<JobId, Job>, k: JobId, queues: set<string>, locked: set<JobId>) {
    && k in jobs && k !in locked
    && jobs[k].queue in queues && jobs[k].state == Queued && jobs[k].attempts < jobs[k].maxAttempts
  }

  /** A claim takes a waiting job that no other waiting job comes before: none has a smaller priority, and
      none of the same priority was created earlier; and it comes back empty only if no job waits. */
  lemma ClaimIsInOrder(jobs: map<JobId, Job>, choice: Option<JobId>, queues: set<string>, locked: set<JobId>)
    ensures LegalClaim(jobs, choice, queues, locked) <==>
              && (choice.None? ==> forall k :: !Waits(jobs, k, queues, locked))
              && (choice.Some? ==>
                    && Waits(jobs, choice.value, queues, locked)
                    && forall k | Waits(jobs, k, queues, locked) ::
                         && jobs[k].priority >= jobs[choice.value].priority
                         && (jobs[k].priority == jobs[choice.value].priority ==>
                               jobs[k].createdAt >= jobs[choice.value].createdAt))
  {
    forall k | k in jobs && k !in locked
      ensures Claimable(jobs[k], queues) <==> Waits(jobs, k, queues, locked)
    {
    }
  }

  // ---------------------------------------------------------------- how long a lease is safe

  /** The operation gives job `j` the lease (token, version), or renews it. */
  ghost predicate Renews(w: World, op: Op, j: JobId, token: Token, version: nat)
    requires j in w.jobs
  {
    match op
    case Claim(choice, queues, locked, _, _) =>
      choice == Some(j) && LegalClaim(w.jobs, choice, queues, locked)
      && token == |w.issued| && version == w.jobs[j].version + 1
    case Heartbeat(id, t, _, _) => id == j && t == token && Holds(w.jobs[j], token, version)
    case Fenced(id, t, v, write, _) =>
      id == j && t == token && v == version && Holds(w.jobs[j], token, version) && (write.SetPhase? || write.Save?)
    case _ => false
  }

  /** The time it was made at plus the seconds it was made for. */
  function Until(op: Op): int {
    match op
    case Claim(_, _, _, secs, now) => now + secs
    case Heartbeat(_, _, secs, now) => now + secs
    case Fenced(_, _, _, SetPhase(_, secs), now) => now + secs
    case Fenced(_, _, _, Save(_, _, secs), now) => now + secs
    case _ => 0
  }

  /** Operations of others, no reaper among them that is past the time `until`. */
  ghost predicate BeforeLapse(ops: seq<Op>, token: Token, until: int) {
    forall i | 0 <= i < |ops| :: Foreign(ops[i], token) && (ops[i].Reclaim? ==> ops[i].now <= until)
  }

  ghost predicate SafeUntil(w: World, j: JobId, token: Token, version: nat, until: int) {
    j in w.jobs && Holds(w.jobs[j], token, version) && w.jobs[j].expires == Some(until)
  }

  lemma RenewalIsSafe(w: World, op: Op, j: JobId, token: Token, version: nat)
    requires Inv(w) && j in w.jobs && Renews(w, op, j, token, version)
    ensures SafeUntil(Step(w, op), j, token, version, Until(op)) && token < |Step(w, op).issued|
  {
    assert RowInv(w.issued, w.jobs[j], j);
    assert Step(w, op).jobs[j] == RowAfter(w, op, j);
  }

  lemma SafeInStep(w: World, op: Op, j: JobId, token: Token, version: nat, until: int)
    requires Inv(w) && SafeUntil(w, j, token, version, until)
    requires Foreign(op, token) && (op.Reclaim? ==> op.now <= until)
    ensures SafeUntil(Step(w, op), j, token, version, until)
  {
    assert RowInv(w.issued, w.jobs[j], j);
    if op.Reclaim? {
      LiveLeaseIsLeft(w, op, j);
    }
    assert Step(w, op).jobs[j] == RowAfter(w, op, j);
  }

  /** A claim, a heartbeat, a phase write or a save made at t for so many seconds keeps its lease until
      then, whatever others do, unless a reaper comes whose clock is past that. */
  lemma {:induction false} LeaseLasts(w: World, op: Op, others: seq<Op>, j: JobId, token: Token, version: nat)
    requires Inv(w) && j in w.jobs && Renews(w, op, j, token, version) && BeforeLapse(others, token, Until(op))
    ensures SafeUntil(Run(Step(w, op), others), j, token, version, Until(op))
  {
    RenewalIsSafe(w, op, j, token, version);
    StepKeepsInv(w, op);
    SafeInRun(Step(w, op), others, j, token, version, Until(op));
  }

  lemma {:induction false} SafeInRun(w: World, others: seq<Op>, j: JobId, token: Token, version: nat, until: int)
    requires Inv(w) && SafeUntil(w, j, token, version, until) && BeforeLapse(others, token, until)
    ensures SafeUntil(Run(w, others), j, token, version, until)
  {
    if others != [] {
      var before := others[..|others| - 1];
      assert BeforeLapse(before, token, until) by {
        forall i | 0 <= i < |before|
          ensures Foreign(before[i], token) && (before[i].Reclaim? ==> before[i].now <= until)
        {
          assert before[i] == others[i];
        }
      }
      SafeInRun(w, before, j, token, version, until);
      RunKeepsInv(w, before);
      SafeInStep(Run(w, before), others[|others| - 1], j, token, version, until);
    }
  }

  // ---------------------------------------------------------------- the reaper

  /** A reaper leaves a job alone that has no lease, or one that has not lapsed by the reaper's clock. */
  lemma LiveLeaseIsLeft(w: World, op: Op, j: JobId)
    requires op.Reclaim? && j in w.jobs
    requires w.jobs[j].expires.None? || w.jobs[j].expires.value >= op.now
    ensures j in Step(w, op).jobs && Step(w, op).jobs[j] == w.jobs[j]
  {
    assert Step(w, op).jobs[j] == RowAfter(w, op, j);
    if LegalReclaim(w.jobs, op.batch, op.failed, op.requeued, op.now) {
      assert j !in ExpiredSpent(w.jobs, op.now) && j !in ExpiredLeft(w.jobs, op.failed, op.now);
    }
  }

  /** What a reaper makes of a job: it fails if it has had all its attempts and goes back to the queue
      otherwise, as it is but for the lease. */
  function ReapedRow(row: Job, now: int): Job {
    var free := row.(token := None, expires := None, updatedAt := now);
    if row.attempts < row.maxAttempts then free.(state := Queued, lastError := "lease expired; requeued")
    else free.(state := Failed, finishedAt := Some(now), lastError := "lease expired after max attempts; not requeued")
  }

  /** Whatever a reaper takes had lapsed. */
  lemma TakenHadLapsed(w: World, op: Op, j: JobId)
    requires Inv(w) && op.Reclaim? && LegalReclaim(w.jobs, op.batch, op.failed, op.requeued, op.now)
    requires j in op.failed + op.requeued
    ensures j in w.jobs && w.jobs[j].expires.Some? && w.jobs[j].expires.value < op.now
    ensures Step(w, op).jobs[j] == ReapedRow(w.jobs[j], op.now)
  {
    RequeuedHaveBudget(w.jobs, op.batch, op.failed, op.requeued, op.now);
    assert j in op.failed ==> j in ExpiredSpent(w.jobs, op.now);
    assert RowInv(w.issued, w.jobs[j], j);
    assert Step(w, op).jobs[j] == RowAfter(w, op, j);
  }

  /** With room left in its batch a reaper takes every lease that has lapsed. */
  lemma LapsedLeaseIsTaken(w: World, op: Op, j: JobId)
    requires Inv(w) && op.Reclaim? && LegalReclaim(w.jobs, op.batch, op.failed, op.requeued, op.now)
    requires |op.failed| + |op.requeued| < op.batch
    requires j in w.jobs && w.jobs[j].expires.Some? && w.jobs[j].expires.value < op.now
    ensures Step(w, op).jobs[j] == ReapedRow(w.jobs[j], op.now)
  {
    assert RowInv(w.issued, w.jobs[j], j);
    RequeuedHaveBudget(w.jobs, op.batch, op.failed, op.requeued, op.now);
    assert j in ExpiredLeft(w.jobs, op.failed, op.now) || j in op.failed;
    TakenHadLapsed(w, op, j);
  }

  /** Both in one: a lease is lost to a reaper with room exactly if it has lapsed by the reaper's clock. */
  lemma ReapedIff(w: World, op: Op, j: JobId, token: Token, version: nat)
    requires Inv(w) && op.Reclaim? && LegalReclaim(w.jobs, op.batch, op.failed, op.requeued, op.now)
    requires |op.failed| + |op.requeued| < op.batch
    requires j in w.jobs && Holds(w.jobs[j], token, version)
    ensures w.jobs[j].expires.Some?
    ensures !Holds(Step(w, op).jobs[j], token, version) <==> w.jobs[j].expires.value < op.now
  {
    assert RowInv(w.issued, w.jobs[j], j);
    if w.jobs[j].expires.value < op.now {
      LapsedLeaseIsTaken(w, op, j);
    } else {
      LiveLeaseIsLeft(w, op, j);
    }
  }

  // ---------------------------------------------------------------- writes under a lease

  /** A failure under a lease: while attempts are left the job goes back to the queue with its checkpoint,
      and can be claimed from there; else it has FAILED, for good. */
  lemma FailureIsRetriedIff(w: World, j: JobId, token: Token, version: nat, error: string, now: int, later: seq<Op>)
    requires Inv(w) && j in w.jobs && Holds(w.jobs[j], token, version)
    ensures var row := w.jobs[j];
            var w' := Step(w, Fenced(j, token, version, Fail(error), now));
            && j in w'.jobs && j in Run(w', later).jobs
            && w'.jobs[j] == row.(state := w'.jobs[j].state, token := None, expires := None, updatedAt := now,
                                  finishedAt := w'.jobs[j].finishedAt, lastError := w'.jobs[j].lastError)
            && w'.jobs[j].lastError <= error && |w'.jobs[j].lastError| == (if |error| < 800 then |error| else 800)
            && (row.attempts < row.maxAttempts ==>
                  Waits(w'.jobs, j, {row.queue}, {}) && w'.jobs[j].finishedAt == None)
            && (row.attempts >= row.maxAttempts ==>
                  Run(w', later).jobs[j].state == Failed && w'.jobs[j].finishedAt == Some(now))
  {
    var op := Fenced(j, token, version, Fail(error), now);
    assert Step(w, op).jobs[j] == RowAfter(w, op, j);
    StepKeepsInv(w, op);
    RunKeepsInv(Step(w, op), later);
    if w.jobs[j].attempts >= w.jobs[j].maxAttempts {
      TerminalIsForever(Step(w, op), later, j);
    }
  }

  /** A completion under a lease is for good. */
  lemma CompletionIsForever(w: World, j: JobId, token: Token, version: nat, outcome: Outcome, now: int, later: seq<Op>)
    requires Inv(w) && j in w.jobs && Holds(w.jobs[j], token, version)
    ensures var w' := Step(w, Fenced(j, token, version, Complete(outcome), now));
            && j in w'.jobs && j in Run(w', later).jobs
            && w'.jobs[j] == w.jobs[j].(state := outcome, token := None, expires := None, updatedAt := now,
                                        finishedAt := Some(now))
            && Run(w', later).jobs[j].state == outcome
            && Run(w', later).jobs[j].checkpoint == w.jobs[j].checkpoint
  {
    var op := Fenced(j, token, version, Complete(outcome), now);
    assert Step(w, op).jobs[j] == RowAfter(w, op, j);
    StepKeepsInv(w, op);
    TerminalIsForever(Step(w, op), later, j);
  }

  /** The last write of a cancellation under a lease: CANCELLED, for good. */
  lemma CancellationIsForever(w: World, j: JobId, token: Token, version: nat, now: int, later: seq<Op>)
    requires Inv(w) && j in w.jobs && Holds(w.jobs[j], token, version)
    ensures var w' := Step(w, Fenced(j, token, version, FinishCancelled, now));
            && j in w'.jobs && j in Run(w', later).jobs
            && w'.jobs[j] == w.jobs[j].(state := Cancelled, token := None, expires := None, updatedAt := now,
                                        finishedAt := Some(now))
            && Run(w', later).jobs[j].state == Cancelled
  {
    CancelledForGood(w, later, j, token, version, now);
    assert Step(w, Fenced(j, token, version, FinishCancelled, now)).jobs[j]
        == RowAfter(w, Fenced(j, token, version, FinishCancelled, now), j);
    StepKeepsInv(w, Fenced(j, token, version, FinishCancelled, now));
    RunKeepsInv(Step(w, Fenced(j, token, version, FinishCancelled, now)), later);
  }

  /** A phase write and a save change what they are for and renew the lease, and nothing else. */
  lemma ProgressWrites(w: World, j: JobId, token: Token, version: nat, write: Write, now: int)
    requires j in w.jobs && Holds(w.jobs[j], token, version) && (write.SetPhase? || write.Save?)
    ensures var row, row' := w.jobs[j], Step(w, Fenced(j, token, version, write, now)).jobs[j];
            && row' == row.(state := row'.state, checkpoint := row'.checkpoint, expires := Some(now + write.secs),
                            updatedAt := now)
            && row'.checkpoint == (if write.Save? then write.checkpoint else row.checkpoint)
            && (write.SetPhase? ==> row'.state == write.phase)
            && (write.Save? ==> row'.state == if write.moveTo.Some? then write.moveTo.value else row.state)
  {
    var op := Fenced(j, token, version, write, now);
    assert Step(w, op).jobs[j] == RowAfter(w, op, j);
  }

  /** A cancellation is applied exactly to a leased job with a request on it that is not being cancelled
      already; it leaves everything but the state alone. */
  lemma CancellationApplies(w: World, j: JobId, token: Token, version: nat, now: int)
    requires j in w.jobs
    ensures var row := w.jobs[j];
            var applies := row.token == Some(token) && row.version == version && row.cancelRequested
                           && row.state != Cancelling;
            Step(w, Fenced(j, token, version, ApplyCancellation, now)).jobs[j]
            == if applies then row.(state := Cancelling, updatedAt := now) else row
  {
    var op := Fenced(j, token, version, ApplyCancellation, now);
    assert Step(w, op).jobs[j] == RowAfter(w, op, j);
  }

  // ---------------------------------------------------------------- waiting and asking

  /** A parked job sleeps: a wake-up finds it exactly if it asks for its queue, or for all, and at least
      the minimum age has passed since the park; it is then queued as it is. */
  lemma ParkedUntil(w: World, j: JobId, token: Token, version: nat, reason: string, parked: int,
                    only: Option<set<string>>, minAge: int, now: int)
    requires Inv(w) && j in w.jobs && Holds(w.jobs[j], token, version)
    ensures var w1 := Step(w, Fenced(j, token, version, Park(reason), parked));
            var woken := now >= parked + minAge && (only.None? || w.jobs[j].queue in only.value);
            && j in w1.jobs
            && w1.jobs[j] == w.jobs[j].(state := WaitingForCapacity, attempts := w.jobs[j].attempts - 1, token := None,
                                        expires := None, updatedAt := parked, lastError := w1.jobs[j].lastError)
            && w1.jobs[j].lastError <= "parked: " + reason
            && |w1.jobs[j].lastError| == (if |reason| < 792 then |reason| + 8 else 800)
            && Step(w1, Wake(only, minAge, now)).jobs[j]
               == if woken then w1.jobs[j].(state := Queued, updatedAt := now) else w1.jobs[j]
  {
    var op := Fenced(j, token, version, Park(reason), parked);
    var w1 := Step(w, op);
    assert w1.jobs[j] == RowAfter(w, op, j);
    assert RowInv(w.issued, w.jobs[j], j);
    assert PARK_PREFIX + " " == "parked: ";
    assert PARK_PREFIX <= Truncated(PARK_PREFIX + " " + reason);
    assert Step(w1, Wake(only, minAge, now)).jobs[j] == RowAfter(w1, Wake(only, minAge, now), j);
  }

  /** A wake-up touches nothing but jobs that wait for capacity and were parked. */
  lemma WakeLeavesOthers(w: World, only: Option<set<string>>, minAge: int, now: int, j: JobId)
    requires j in w.jobs && !(w.jobs[j].state == WaitingForCapacity && PARK_PREFIX <= w.jobs[j].lastError)
    ensures Step(w, Wake(only, minAge, now)).jobs[j] == w.jobs[j]
  {
    assert Step(w, Wake(only, minAge, now)).jobs[j] == RowAfter(w, Wake(only, minAge, now), j);
  }
}
