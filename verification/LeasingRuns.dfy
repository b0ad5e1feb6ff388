/** Properties of every run of the job table. */
module LeasingRuns {
  import opened Common
  import opened Checkpoints
  import opened Leasing

  // ---------------------------------------------------------------- one step keeps the invariant

  lemma SubsetSize<T>(a: set<T>, b: set<T>)
    requires a <= b
    ensures |a| <= |b|
  {
    assert b == a + (b - a);
  }

  /** The reaper's second statement does not look at attempts; it never needs to. */
  lemma RequeuedHaveBudget(jobs: map<JobId, Job>, batch: nat, failed: set<JobId>, requeued: set<JobId>, now: int)
    requires LegalReclaim(jobs, batch, failed, requeued, now)
    ensures forall j | j in requeued :: j in jobs && Expired(jobs[j], now) && !Spent(jobs[j]) && j !in failed
    ensures |failed + requeued| == |failed| + |requeued| <= batch
    ensures |failed + requeued| < batch ==> forall j | j in jobs && Expired(jobs[j], now) :: j in failed + requeued
  {
    if requeued != {} {
      var x :| x in requeued;
      SubsetSize({x}, requeued);
      assert failed == ExpiredSpent(jobs, now);
    }
    assert failed !! requeued;
    if |failed| + |requeued| < batch {
      assert requeued == ExpiredLeft(jobs, failed, now);
    }
  }

  /** Appending a lease, or refreshing a holder's copy, leaves job and version of old leases alone. */
  lemma LeasesAfter(w: World, op: Op)
    ensures |w.issued| <= |IssuedAfter(w, op)| <= |w.issued| + 1
    ensures forall t | 0 <= t < |w.issued| ::
              IssuedAfter(w, op)[t].job == w.issued[t].job && IssuedAfter(w, op)[t].version == w.issued[t].version
  {
  }

  lemma WriteKeepsRow(issued: seq<Lease>, row: Job, j: JobId, token: Token, version: nat, write: Write, now: int)
    requires RowInv(issued, row, j) && Accepts(row, token, version, write)
    ensures RowInv(if write.Save? then issued[token := issued[token].(seen := write.checkpoint)] else issued,
                   Written(row, write, now), j)
  {
    if write.Park? {
      assert PARK_PREFIX <= Truncated(PARK_PREFIX + " " + write.reason);
    }
  }

  /** A write under somebody else's lease touches neither this row nor its holder's copy. */
  lemma OtherRowsKept(w: World, op: Op, j: JobId)
    requires Inv(w) && j in w.jobs && op.Fenced? && op.id != j
    ensures RowInv(IssuedAfter(w, op), w.jobs[j], j)
  {
    assert RowInv(w.issued, w.jobs[j], j);
    if op.id in w.jobs {
      assert RowInv(w.issued, w.jobs[op.id], op.id);
    }
  }

  lemma FencedKeepsRow(w: World, op: Op, j: JobId)
    requires Inv(w) && j in w.jobs && op.Fenced?
    ensures RowInv(IssuedAfter(w, op), RowAfter(w, op, j), j)
  {
    assert RowInv(w.issued, w.jobs[j], j);
    if op.id != j {
      OtherRowsKept(w, op, j);
    } else if Accepts(w.jobs[j], op.token, op.version, op.write) {
      WriteKeepsRow(w.issued, w.jobs[j], j, op.token, op.version, op.write, op.now);
    }
  }

  lemma ReapedKeepsInv(issued: seq<Lease>, row: Job, j: JobId, error: string, now: int)
    requires RowInv(issued, row, j)
    ensures RowInv(issued, Released(row, Failed, now).(finishedAt := Some(now), lastError := error), j)
    ensures !Spent(row) ==> RowInv(issued, Released(row, Queued, now).(lastError := error), j)
  {
  }

  lemma ReclaimKeepsRow(w: World, op: Op, j: JobId)
    requires Inv(w) && j in w.jobs && op.Reclaim?
    ensures RowInv(w.issued, RowAfter(w, op, j), j)
  {
    assert RowInv(w.issued, w.jobs[j], j);
    if LegalReclaim(w.jobs, op.batch, op.failed, op.requeued, op.now) {
      RequeuedHaveBudget(w.jobs, op.batch, op.failed, op.requeued, op.now);
      ReapedKeepsInv(w.issued, w.jobs[j], j, REAPED_SPENT, op.now);
      ReapedKeepsInv(w.issued, w.jobs[j], j, REAPED, op.now);
    }
  }

  lemma ClaimKeepsRow(w: World, op: Op, j: JobId)
    requires j in w.jobs && op.Claim? && RowInv(w.issued, w.jobs[j], j)
    ensures RowInv(IssuedAfter(w, op), RowAfter(w, op, j), j)
  {
  }

  lemma VersionGrows(w: World, op: Op, j: JobId)
    requires j in w.jobs
    ensures w.jobs[j].version <= RowAfter(w, op, j).version
  {
  }

  lemma RowKeepsInv(w: World, op: Op, j: JobId)
    requires Inv(w) && j in w.jobs
    ensures RowInv(IssuedAfter(w, op), RowAfter(w, op, j), j)
    ensures w.jobs[j].version <= RowAfter(w, op, j).version
  {
    assert RowInv(w.issued, w.jobs[j], j);
    VersionGrows(w, op, j);
    if op.Fenced? {
      FencedKeepsRow(w, op, j);
    } else if op.Reclaim? {
      ReclaimKeepsRow(w, op, j);
    } else if op.Claim? {
      ClaimKeepsRow(w, op, j);
    }
  }

  lemma ClaimKeepsLeases(w: World, op: Op, jobs': map<JobId, Job>)
    requires Inv(w) && op.Claim?
    requires forall j | j in w.jobs :: j in jobs' && jobs'[j] == RowAfter(w, op, j)
    ensures LeaseInv(jobs', IssuedAfter(w, op))
  {
  }

  lemma OtherStepsKeepLeases(w: World, op: Op, jobs': map<JobId, Job>)
    requires LeaseInv(w.jobs, w.issued) && !op.Claim?
    requires forall j | j in w.jobs :: j in jobs' && w.jobs[j].version <= jobs'[j].version
    ensures LeaseInv(jobs', IssuedAfter(w, op))
  {
    LeasesAfter(w, op);
  }

  lemma StepKeepsInv(w: World, op: Op)
    requires Inv(w)
    ensures Inv(Step(w, op))
  {
    var w' := Step(w, op);
    forall j | j in w.jobs
      ensures RowInv(w'.issued, w'.jobs[j], j) && w.jobs[j].version <= w'.jobs[j].version
    {
      RowKeepsInv(w, op, j);
      assert w'.jobs[j] == RowAfter(w, op, j);
    }
    if op.Claim? {
      ClaimKeepsLeases(w, op, w'.jobs);
    } else {
      OtherStepsKeepLeases(w, op, w'.jobs);
    }
  }

  // ---------------------------------------------------------------- runs

  lemma {:induction false} RunKeepsInv(w: World, ops: seq<Op>)
    requires Inv(w)
    ensures Inv(Run(w, ops))
    ensures w.jobs.Keys <= Run(w, ops).jobs.Keys
    ensures |w.issued| <= |Run(w, ops).issued|
  {
    if ops != [] {
      var before := ops[..|ops| - 1];
      RunKeepsInv(w, before);
      StepKeepsInv(Run(w, before), ops[|ops| - 1]);
      LeasesAfter(Run(w, before), ops[|ops| - 1]);
    }
  }

  lemma {:induction false} RunConcat(w: World, a: seq<Op>, b: seq<Op>)
    ensures Run(w, a + b) == Run(Run(w, a), b)
  {
    if b == [] {
      assert a + b == a;
    } else {
      var n := |a + b| - 1;
      RunConcat(w, a, b[..|b| - 1]);
      assert (a + b)[..n] == a + b[..|b| - 1];
    }
  }

  /** Everything reachable from the empty table satisfies the invariant. */
  lemma ReachableInv(ops: seq<Op>)
    ensures Inv(Run(START, ops))
  {
    RunKeepsInv(START, ops);
  }

  lemma LostStaysLostInStep(w: World, op: Op, j: JobId, token: Token, version: nat)
    requires j in w.jobs && token < |w.issued| && !Holds(w.jobs[j], token, version)
    ensures !Holds(RowAfter(w, op, j), token, version)
  {
  }

  /** Between two fenced writes of one lease, nobody else can take the lease up. */
  lemma {:induction false} LostStaysLost(w: World, ops: seq<Op>, j: JobId, token: Token, version: nat)
    requires Inv(w) && j in w.jobs && token < |w.issued| && !Holds(w.jobs[j], token, version)
    ensures j in Run(w, ops).jobs && !Holds(Run(w, ops).jobs[j], token, version)
  {
    RunKeepsInv(w, ops);
    if ops != [] {
      var before := ops[..|ops| - 1];
      LostStaysLost(w, before, j, token, version);
      RunKeepsInv(w, before);
      LostStaysLostInStep(Run(w, before), ops[|ops| - 1], j, token, version);
    }
  }

  /** Fencing over whole runs: once a lease that was issued is revoked, released or superseded, then
      however the run goes on, a write that carries it changes nothing at all. */
  lemma StaleWritesChangeNothing(w: World, ops: seq<Op>, j: JobId, token: Token, version: nat, write: Write, now: int)
    requires Inv(w) && j in w.jobs && token < |w.issued| && !Holds(w.jobs[j], token, version)
    ensures Step(Run(w, ops), Fenced(j, token, version, write, now)) == Run(w, ops)
  {
    LostStaysLost(w, ops, j, token, version);
    RefusedChangesNothing(Run(w, ops), j, token, version, write, now);
  }

  lemma RefusedChangesNothing(w: World, j: JobId, token: Token, version: nat, write: Write, now: int)
    requires j in w.jobs && !Holds(w.jobs[j], token, version)
    ensures Step(w, Fenced(j, token, version, write, now)) == w
  {
    assert (map k | k in w.jobs :: RowAfter(w, Fenced(j, token, version, write, now), k)) == w.jobs;
  }

  /** heartbeat is fenced on the token alone; that is as good as the full pair. */
  lemma HeartbeatFenceIsFull(w: World, token: Token, j: JobId)
    requires Inv(w) && token < |w.issued| && j in w.jobs
    ensures Beats(w.jobs[j], token) <==> j == w.issued[token].job && Holds(w.jobs[j], token, w.issued[token].version)
  {
    assert RowInv(w.issued, w.jobs[j], j);
  }

  lemma {:induction false} LeaseIsFixed(w: World, ops: seq<Op>, token: Token)
    requires token < |w.issued|
    ensures token < |Run(w, ops).issued|
    ensures Run(w, ops).issued[token].job == w.issued[token].job
            && Run(w, ops).issued[token].version == w.issued[token].version
  {
    if ops != [] {
      LeaseIsFixed(w, ops[..|ops| - 1], token);
      LeasesAfter(Run(w, ops[..|ops| - 1]), ops[|ops| - 1]);
    }
  }

  /** So a lost lease is not renewed, either: its heartbeats, too, change nothing for the rest of any run. */
  lemma StaleHeartbeatsChangeNothing(w: World, ops: seq<Op>, token: Token, secs: int, now: int)
    requires Inv(w) && token < |w.issued| && w.issued[token].job in w.jobs
    requires !Holds(w.jobs[w.issued[token].job], token, w.issued[token].version)
    ensures Step(Run(w, ops), Op.Heartbeat(w.issued[token].job, token, secs, now)) == Run(w, ops)
  {
    var j, version := w.issued[token].job, w.issued[token].version;
    LostStaysLost(w, ops, j, token, version);
    RunKeepsInv(w, ops);
    LeaseIsFixed(w, ops, token);
    var w1 := Run(w, ops);
    HeartbeatFenceIsFull(w1, token, j);
    UnbeatenChangesNothing(w1, j, token, secs, now);
  }

  lemma UnbeatenChangesNothing(w: World, j: JobId, token: Token, secs: int, now: int)
    requires j in w.jobs && !Beats(w.jobs[j], token)
    ensures Step(w, Op.Heartbeat(j, token, secs, now)) == w
  {
    assert (map k | k in w.jobs :: RowAfter(w, Op.Heartbeat(j, token, secs, now), k)) == w.jobs;
  }

  /** The versions carried by the writes on job `j` that took effect, in order. */
  ghost function AcceptedVersions(w: World, ops: seq<Op>, j: JobId): seq<nat>
  {
    if ops == [] then []
    else
      var before := ops[..|ops| - 1];
      var op := ops[|ops| - 1];
      var w1 := Run(w, before);
      AcceptedVersions(w, before, j) +
      (if op.Fenced? && op.id == j && j in w1.jobs && Accepts(w1.jobs[j], op.token, op.version, op.write)
       then [op.version] else [])
  }

  /** Writes that take effect come in the order of the leases: a newer lease's write is never
      followed by an older one's. */
  lemma {:induction false} AcceptedVersionsNondecreasing(w: World, ops: seq<Op>, j: JobId)
    requires Inv(w) && j in w.jobs
    ensures j in Run(w, ops).jobs
    ensures forall a, b | 0 <= a < b < |AcceptedVersions(w, ops, j)| ::
              AcceptedVersions(w, ops, j)[a] <= AcceptedVersions(w, ops, j)[b]
    ensures forall a | 0 <= a < |AcceptedVersions(w, ops, j)| ::
              w.jobs[j].version <= AcceptedVersions(w, ops, j)[a] <= Run(w, ops).jobs[j].version
    ensures w.jobs[j].version <= Run(w, ops).jobs[j].version
  {
    if ops != [] {
      var before := ops[..|ops| - 1];
      AcceptedVersionsNondecreasing(w, before, j);
      RunKeepsInv(w, before);
      RowKeepsInv(Run(w, before), ops[|ops| - 1], j);
    }
  }

  /** Operation `k` of the run is a checkpoint save on `j` that took effect. */
  ghost predicate SavesAt(w: World, ops: seq<Op>, j: JobId, k: nat) {
    && k < |ops| && ops[k].Fenced? && ops[k].id == j && ops[k].write.Save?
    && j in Run(w, ops[..k]).jobs
    && Accepts(Run(w, ops[..k]).jobs[j], ops[k].token, ops[k].version, ops[k].write)
  }

  lemma CheckpointChangesOnlyBySave(w: World, op: Op, j: JobId)
    requires j in w.jobs
    requires op.Fenced? && op.id == j && op.write.Save? ==> !Accepts(w.jobs[j], op.token, op.version, op.write)
    ensures RowAfter(w, op, j).checkpoint == w.jobs[j].checkpoint
  {
  }

  /** No save on `j` takes effect from operation `from` on. */
  ghost predicate QuietFrom(w: World, ops: seq<Op>, j: JobId, from: nat) {
    forall i | from <= i < |ops| :: !SavesAt(w, ops, j, i)
  }

  lemma QuietShorter(w: World, ops: seq<Op>, j: JobId, from: nat)
    requires from < |ops| && QuietFrom(w, ops, j, from)
    ensures QuietFrom(w, ops[..|ops| - 1], j, from)
  {
    var before := ops[..|ops| - 1];
    forall i | from <= i < |before| ensures !SavesAt(w, before, j, i) {
      assert before[..i] == ops[..i];
      assert !SavesAt(w, ops, j, i);
    }
  }

  lemma QuietLastStep(w: World, ops: seq<Op>, j: JobId, from: nat)
    requires from < |ops| && QuietFrom(w, ops, j, from) && j in Run(w, ops[..|ops| - 1]).jobs
    ensures j in Run(w, ops).jobs && Run(w, ops).jobs[j].checkpoint == Run(w, ops[..|ops| - 1]).jobs[j].checkpoint
  {
    assert !SavesAt(w, ops, j, |ops| - 1);
    CheckpointChangesOnlyBySave(Run(w, ops[..|ops| - 1]), ops[|ops| - 1], j);
  }

  lemma {:induction false} QuietTailKeepsCheckpoint(w: World, ops: seq<Op>, j: JobId, from: nat)
    requires from <= |ops| && j in Run(w, ops[..from]).jobs && QuietFrom(w, ops, j, from)
    ensures j in Run(w, ops).jobs && Run(w, ops).jobs[j].checkpoint == Run(w, ops[..from]).jobs[j].checkpoint
    decreases |ops|
  {
    if from == |ops| {
      assert ops[..from] == ops;
    } else {
      var before := ops[..|ops| - 1];
      assert before[..from] == ops[..from];
      QuietShorter(w, ops, j, from);
      QuietTailKeepsCheckpoint(w, before, j, from);
      QuietLastStep(w, ops, j, from);
    }
  }

  /** Whoever claims a job receives exactly the checkpoint of the last save that took effect. */
  lemma ClaimReceivesLastSave(w: World, ops: seq<Op>, j: JobId, k: nat, claim: Op)
    requires SavesAt(w, ops, j, k)
    requires QuietFrom(w, ops, j, k + 1)
    requires claim.Claim? && claim.choice == Some(j)
    requires LegalClaim(Run(w, ops).jobs, claim.choice, claim.queues, claim.locked)
    ensures var w1 := Run(w, ops);
            Step(w1, claim).issued == w1.issued + [Lease(j, w1.jobs[j].version + 1, ops[k].write.checkpoint)]
  {
    SavedAt(w, ops, j, k);
    QuietTailKeepsCheckpoint(w, ops, j, k + 1);
    ClaimHandsOver(Run(w, ops), j, claim);
  }

  lemma SavedAt(w: World, ops: seq<Op>, j: JobId, k: nat)
    requires SavesAt(w, ops, j, k)
    ensures j in Run(w, ops[..k + 1]).jobs && Run(w, ops[..k + 1]).jobs[j].checkpoint == ops[k].write.checkpoint
  {
    assert ops[..k + 1][..k] == ops[..k];
  }

  lemma ClaimHandsOver(w: World, j: JobId, claim: Op)
    requires claim.Claim? && claim.choice == Some(j) && LegalClaim(w.jobs, claim.choice, claim.queues, claim.locked)
    ensures Step(w, claim).issued == w.issued + [Lease(j, w.jobs[j].version + 1, w.jobs[j].checkpoint)]
  {
  }

  /** ... and the empty checkpoint if nothing was ever saved. */
  lemma FirstClaimReceivesNothing(ops: seq<Op>, j: JobId, claim: Op)
    requires QuietFrom(START, ops, j, 0)
    requires claim.Claim? && claim.choice == Some(j)
    requires LegalClaim(Run(START, ops).jobs, claim.choice, claim.queues, claim.locked)
    ensures Step(Run(START, ops), claim).issued[|Run(START, ops).issued|].seen == EMPTY
  {
    var k := BornAt(ops, j);
    BornEmpty(Run(START, ops[..k]), ops[k], j);
    assert ops[..k + 1][..k] == ops[..k];
    assert QuietFrom(START, ops, j, k + 1);
    QuietTailKeepsCheckpoint(START, ops, j, k + 1);
    ClaimHandsOver(Run(START, ops), j, claim);
  }

  lemma BornEmpty(w: World, op: Op, j: JobId)
    requires j !in w.jobs
    ensures j in Step(w, op).jobs ==> Step(w, op).jobs[j].checkpoint == EMPTY
  {
  }

  lemma {:induction false} BornAt(ops: seq<Op>, j: JobId) returns (k: nat)
    requires j in Run(START, ops).jobs
    ensures k < |ops| && j !in Run(START, ops[..k]).jobs && j in Run(START, ops[..k + 1]).jobs
  {
    var n := |ops| - 1;
    if j in Run(START, ops[..n]).jobs {
      k := BornAt(ops[..n], j);
      assert ops[..n][..k] == ops[..k] && ops[..n][..k + 1] == ops[..k + 1];
    } else {
      k := n;
      assert ops[..n + 1] == ops;
    }
  }

  // ---------------------------------------------------------------- attempts

  ghost predicate ClaimsAt(w: World, ops: seq<Op>, j: JobId, k: nat) {
    && k < |ops| && ops[k].Claim? && ops[k].choice == Some(j)
    && LegalClaim(Run(w, ops[..k]).jobs, ops[k].choice, ops[k].queues, ops[k].locked)
  }

  ghost predicate ParksAt(w: World, ops: seq<Op>, j: JobId, k: nat) {
    && k < |ops| && ops[k].Fenced? && ops[k].id == j && ops[k].write.Park?
    && j in Run(w, ops[..k]).jobs
    && Accepts(Run(w, ops[..k]).jobs[j], ops[k].token, ops[k].version, ops[k].write)
  }

  ghost function Claims(w: World, ops: seq<Op>, j: JobId, upTo: nat): nat
    requires upTo <= |ops|
  {
    if upTo == 0 then 0
    else Claims(w, ops, j, upTo - 1) + (if ClaimsAt(w, ops, j, upTo - 1) then 1 else 0)
  }

  ghost function Parks(w: World, ops: seq<Op>, j: JobId, upTo: nat): nat
    requires upTo <= |ops|
  {
    if upTo == 0 then 0
    else Parks(w, ops, j, upTo - 1) + (if ParksAt(w, ops, j, upTo - 1) then 1 else 0)
  }

  lemma AttemptsInStep(w: World, op: Op, j: JobId)
    requires Inv(w) && j in w.jobs
    ensures var row, row' := w.jobs[j], RowAfter(w, op, j);
            && row'.maxAttempts == row.maxAttempts
            && (if op.Claim? && op.choice == Some(j) && LegalClaim(w.jobs, op.choice, op.queues, op.locked)
                then row'.attempts == row.attempts + 1
                else if op.Fenced? && op.id == j && op.write.Park? && Accepts(row, op.token, op.version, op.write)
                then row.attempts >= 1 && row'.attempts == row.attempts - 1
                else row'.attempts == row.attempts)
  {
    assert RowInv(w.issued, w.jobs[j], j);
  }

  lemma {:induction false} AttemptsAddUp(w: World, ops: seq<Op>, j: JobId, upTo: nat)
    requires Inv(w) && j in w.jobs && upTo <= |ops|
    ensures j in Run(w, ops[..upTo]).jobs
    ensures var row := Run(w, ops[..upTo]).jobs[j];
            && row.maxAttempts == w.jobs[j].maxAttempts
            && row.attempts + Parks(w, ops, j, upTo) == w.jobs[j].attempts + Claims(w, ops, j, upTo)
  {
    if upTo > 0 {
      var k := upTo - 1;
      AttemptsAddUp(w, ops, j, k);
      assert ops[..upTo][..k] == ops[..k];
      RunKeepsInv(w, ops[..k]);
      AttemptsInStep(Run(w, ops[..k]), ops[k], j);
    }
  }

  lemma AttemptsInBudget(w: World, j: JobId)
    requires Inv(w) && j in w.jobs
    ensures w.jobs[j].attempts <= w.jobs[j].maxAttempts && (w.jobs[j].token.Some? ==> w.jobs[j].attempts >= 1)
  {
    assert RowInv(w.issued, w.jobs[j], j);
  }

  /** attempts = claims - parks at every point of every run, so the GREATEST(..., 0) in park never
      bites, and claims that do not end in a park are at most max_attempts however often the job
      waits, crashes or is reaped. */
  lemma AttemptsAreClaimsMinusParks(w: World, ops: seq<Op>, j: JobId, upTo: nat)
    requires Inv(w) && j in w.jobs && upTo <= |ops|
    ensures j in Run(w, ops[..upTo]).jobs
    ensures var row := Run(w, ops[..upTo]).jobs[j];
            && row.maxAttempts == w.jobs[j].maxAttempts
            && row.attempts + Parks(w, ops, j, upTo) == w.jobs[j].attempts + Claims(w, ops, j, upTo)
            && row.attempts <= row.maxAttempts
            && (ParksAt(w, ops, j, upTo) ==> row.attempts >= 1)
    ensures Claims(w, ops, j, upTo) - Parks(w, ops, j, upTo) <= w.jobs[j].maxAttempts
  {
    AttemptsAddUp(w, ops, j, upTo);
    RunKeepsInv(w, ops[..upTo]);
    AttemptsInBudget(Run(w, ops[..upTo]), j);
  }

  // ---------------------------------------------------------------- states

  lemma TerminalInStep(w: World, op: Op, j: JobId)
    requires Inv(w) && j in w.jobs && Terminal(w.jobs[j].state)
    ensures RowAfter(w, op, j) == w.jobs[j].(cancelRequested := RowAfter(w, op, j).cancelRequested,
                                             updatedAt := RowAfter(w, op, j).updatedAt)
  {
    assert RowInv(w.issued, w.jobs[j], j);
  }

  /** No step of anybody moves a job out of a terminal state. */
  lemma {:induction false} TerminalIsForever(w: World, ops: seq<Op>, j: JobId)
    requires Inv(w) && j in w.jobs && Terminal(w.jobs[j].state)
    ensures j in Run(w, ops).jobs
    ensures Run(w, ops).jobs[j].state == w.jobs[j].state
    ensures Run(w, ops).jobs[j].checkpoint == w.jobs[j].checkpoint
    ensures Run(w, ops).jobs[j].attempts == w.jobs[j].attempts
  {
    if ops != [] {
      var before := ops[..|ops| - 1];
      TerminalIsForever(w, before, j);
      RunKeepsInv(w, before);
      TerminalInStep(Run(w, before), ops[|ops| - 1], j);
    }
  }

  /** What the reaper makes of one row. */
  predicate Reaped(row: Job, row': Job, failed: bool, requeued: bool, now: int) {
    if failed then Expired(row, now) && row.attempts == row.maxAttempts && row'.state == Failed
    else if requeued then
      Expired(row, now) && row.attempts < row.maxAttempts && row'.state == Queued &&
      row'.attempts == row.attempts && row'.checkpoint == row.checkpoint
    else row' == row
  }

  lemma ReapsRow(w: World, op: Op, j: JobId)
    requires op.Reclaim? && LegalReclaim(w.jobs, op.batch, op.failed, op.requeued, op.now)
    requires j in w.jobs && RowInv(w.issued, w.jobs[j], j)
    ensures Reaped(w.jobs[j], RowAfter(w, op, j), j in op.failed, j in op.requeued, op.now)
    ensures RowAfter(w, op, j).cancelRequested == w.jobs[j].cancelRequested
    ensures RowAfter(w, op, j).checkpoint == w.jobs[j].checkpoint
  {
    RequeuedHaveBudget(w.jobs, op.batch, op.failed, op.requeued, op.now);
    assert j in op.failed ==> j in ExpiredSpent(w.jobs, op.now);
  }

  lemma NoneLeftExpired(w: World, op: Op, j: JobId)
    requires op.Reclaim? && LegalReclaim(w.jobs, op.batch, op.failed, op.requeued, op.now)
    requires j in w.jobs && |op.failed| + |op.requeued| < op.batch
    ensures !Expired(RowAfter(w, op, j), op.now)
  {
    RequeuedHaveBudget(w.jobs, op.batch, op.failed, op.requeued, op.now);
  }

  /** The reaper, for every batch size and job set: it touches at most `batch` rows, none twice; it
      fails exactly spent ones, requeues only rows with budget left, leaves no lapsed lease behind
      unless the batch was full, and touches nothing else. */
  lemma ReaperIsSafe(w: World, op: Op)
    requires Inv(w) && op.Reclaim? && LegalReclaim(w.jobs, op.batch, op.failed, op.requeued, op.now)
    ensures |op.failed| + |op.requeued| <= op.batch && op.failed !! op.requeued
    ensures forall j | j in w.jobs :: Reaped(w.jobs[j], Step(w, op).jobs[j], j in op.failed, j in op.requeued, op.now)
    ensures |op.failed| + |op.requeued| < op.batch ==>
              forall j | j in w.jobs :: !Expired(Step(w, op).jobs[j], op.now)
  {
    RequeuedHaveBudget(w.jobs, op.batch, op.failed, op.requeued, op.now);
    forall j | j in w.jobs
      ensures Reaped(w.jobs[j], Step(w, op).jobs[j], j in op.failed, j in op.requeued, op.now)
      ensures |op.failed| + |op.requeued| < op.batch ==> !Expired(Step(w, op).jobs[j], op.now)
    {
      ReapsRow(w, op, j);
      if |op.failed| + |op.requeued| < op.batch {
        NoneLeftExpired(w, op, j);
      }
    }
  }

  /** A queued job is always claimable (if it was ever allowed an attempt), so a worker that comes
      back empty-handed has seen no unlocked queued job of its queues. */
  lemma QueuedIsClaimable(w: World, queues: set<string>, locked: set<JobId>)
    requires Inv(w) && LegalClaim(w.jobs, None, queues, locked)
    ensures forall j | j in w.jobs && j !in locked && w.jobs[j].queue in queues && w.jobs[j].maxAttempts >= 1 ::
              w.jobs[j].state != Queued
  {
    forall j | j in w.jobs && j !in locked && w.jobs[j].queue in queues && w.jobs[j].maxAttempts >= 1
      ensures w.jobs[j].state != Queued
    {
      assert RowInv(w.issued, w.jobs[j], j);
      assert !Claimable(w.jobs[j], queues);
    }
  }

  lemma {:induction false} BudgetIsFixed(w: World, ops: seq<Op>, j: JobId)
    requires j in w.jobs
    ensures j in Run(w, ops).jobs && Run(w, ops).jobs[j].maxAttempts == w.jobs[j].maxAttempts
  {
    if ops != [] {
      BudgetIsFixed(w, ops[..|ops| - 1], j);
    }
  }

  /** A waiting job can always be woken, and is then claimable as it is. */
  lemma WaitingCanBeWoken(w: World, j: JobId, later: int)
    requires Inv(w) && j in w.jobs && w.jobs[j].state == WaitingForCapacity && w.jobs[j].maxAttempts >= 1
    requires w.jobs[j].updatedAt <= later
    ensures var row := Step(w, Wake(None, 0, later)).jobs[j];
            && Claimable(row, {row.queue})
            && row.attempts == w.jobs[j].attempts && row.checkpoint == w.jobs[j].checkpoint
  {
    assert RowInv(w.issued, w.jobs[j], j);
    assert Step(w, Wake(None, 0, later)).jobs[j] == RowAfter(w, Wake(None, 0, later), j);
  }

  /** A park keeps the checkpoint and gives the attempt back; and at any later time, whatever has
      happened meanwhile, a job that waits can be woken and claimed again. */
  lemma ParkedComesBack(w: World, j: JobId, token: Token, version: nat, reason: string, now: int, meanwhile: seq<Op>,
                        later: int)
    requires Inv(w) && j in w.jobs && Holds(w.jobs[j], token, version)
    ensures var w1 := Step(w, Fenced(j, token, version, Park(reason), now));
            var w2 := Run(w1, meanwhile);
            && w1.jobs[j].state == WaitingForCapacity
            && w1.jobs[j].attempts == w.jobs[j].attempts - 1 && w1.jobs[j].checkpoint == w.jobs[j].checkpoint
            && j in w2.jobs
            && (w2.jobs[j].state == WaitingForCapacity && w2.jobs[j].updatedAt <= later ==>
                  var row := Step(w2, Wake(None, 0, later)).jobs[j];
                  && Claimable(row, {row.queue})
                  && row.attempts == w2.jobs[j].attempts && row.checkpoint == w2.jobs[j].checkpoint)
  {
    var op := Fenced(j, token, version, Park(reason), now);
    assert RowInv(w.issued, w.jobs[j], j);
    var w1 := Step(w, op);
    assert w1.jobs[j] == RowAfter(w, op, j);
    StepKeepsInv(w, op);
    RunKeepsInv(w1, meanwhile);
    BudgetIsFixed(w1, meanwhile, j);
    var w2 := Run(w1, meanwhile);
    if w2.jobs[j].state == WaitingForCapacity && w2.jobs[j].updatedAt <= later {
      WaitingCanBeWoken(w2, j, later);
    }
  }

  // ---------------------------------------------------------------- cancellation

  lemma {:induction false} CancelRequestNeverLost(w: World, ops: seq<Op>, j: JobId)
    requires j in w.jobs && w.jobs[j].cancelRequested
    ensures j in Run(w, ops).jobs && Run(w, ops).jobs[j].cancelRequested
  {
    if ops != [] {
      CancelRequestNeverLost(w, ops[..|ops| - 1], j);
    }
  }

  lemma CancelledForGood(w: World, later: seq<Op>, j: JobId, token: Token, version: nat, now: int)
    requires Inv(w) && j in w.jobs && Holds(w.jobs[j], token, version)
    ensures var w2 := Step(w, Fenced(j, token, version, FinishCancelled, now));
            j in Run(w2, later).jobs && Run(w2, later).jobs[j].state == Cancelled
  {
    var op := Fenced(j, token, version, FinishCancelled, now);
    StepKeepsInv(w, op);
    assert Step(w, op).jobs[j] == RowAfter(w, op, j);
    TerminalIsForever(Step(w, op), later, j);
  }

  lemma LostBeforeTheEnd(w: World, later: seq<Op>, j: JobId, token: Token, version: nat, now: int)
    requires Inv(w) && j in w.jobs && w.jobs[j].cancelRequested && token < |w.issued|
             && !Holds(w.jobs[j], token, version)
    ensures var w2 := Step(w, Fenced(j, token, version, FinishCancelled, now));
            && w2 == w && j in Run(w2, later).jobs
            && Run(w2, later).jobs[j].cancelRequested && !Holds(Run(w2, later).jobs[j], token, version)
  {
    RefusedChangesNothing(w, j, token, version, FinishCancelled, now);
    LostStaysLost(w, later, j, token, version);
    CancelRequestNeverLost(w, later, j);
  }

  /** The handler's cancellation path, with anything at all (`others`) between its two statements
      and anything after (`later`): its own writes included, such as the `complete` that follows when
      the handler falls through. Either the lease lasted until the second statement, and the job is
      CANCELLED for good; or it was lost in between (a crash, the reaper), and the request is still
      on record while no write of this lease has any effect again. */
  lemma CancellationSurvives(w: World, j: JobId, token: Token, version: nat, others: seq<Op>, later: seq<Op>, t1: int,
                             t2: int)
    requires Inv(w) && j in w.jobs && Accepts(w.jobs[j], token, version, ApplyCancellation)
    ensures var w1 := Run(Step(w, Fenced(j, token, version, ApplyCancellation, t1)), others);
            var w2 := Step(w1, Fenced(j, token, version, FinishCancelled, t2));
            && j in w1.jobs && j in Run(w2, later).jobs
            && (Holds(w1.jobs[j], token, version) ==> Run(w2, later).jobs[j].state == Cancelled)
            && (!Holds(w1.jobs[j], token, version) ==>
                  w2 == w1 && Run(w2, later).jobs[j].cancelRequested && !Holds(Run(w2, later).jobs[j], token, version))
  {
    var op1 := Fenced(j, token, version, ApplyCancellation, t1);
    var w0 := Step(w, op1);
    assert RowInv(w.issued, w.jobs[j], j) && w0.jobs[j] == RowAfter(w, op1, j);
    StepKeepsInv(w, op1);
    RunKeepsInv(w0, others);
    CancelRequestNeverLost(w0, others, j);
    var w1 := Run(w0, others);
    if Holds(w1.jobs[j], token, version) {
      CancelledForGood(w1, later, j, token, version, t2);
    } else {
      LostBeforeTheEnd(w1, later, j, token, version, t2);
    }
  }

  /** A crash between CANCELLING and CANCELLED: when the reaper gets to the job it goes back to the
      queue with the request still on it, or, exactly when its budget is spent, to FAILED. */
  lemma CrashWhileCancelling(w: World, op: Op, j: JobId)
    requires Inv(w) && j in w.jobs && w.jobs[j].state == Cancelling && w.jobs[j].cancelRequested
    requires op.Reclaim? && LegalReclaim(w.jobs, op.batch, op.failed, op.requeued, op.now)
    requires j in op.failed + op.requeued
    ensures var row := Step(w, op).jobs[j];
            && row.cancelRequested && row.checkpoint == w.jobs[j].checkpoint
            && row.state == (if w.jobs[j].attempts < w.jobs[j].maxAttempts then Queued else Failed)
  {
    ReapsRow(w, op, j);
    assert Step(w, op).jobs[j] == RowAfter(w, op, j);
  }

  // ---------------------------------------------------------------- progress

  /** A holder only saves checkpoints at or after its own copy. Handlers keep this by construction
      (see Pipeline); it is a property of one worker, blind to all the others. */
  ghost predicate Disciplined(w: World, op: Op) {
    op.Fenced? && op.write.Save? && op.token < |w.issued| ==>
      AtOrAfter(w.issued[op.token].seen, op.write.checkpoint)
  }

  ghost predicate DisciplinedRun(w: World, ops: seq<Op>) {
    ops == [] ||
    (DisciplinedRun(w, ops[..|ops| - 1]) && Disciplined(Run(w, ops[..|ops| - 1]), ops[|ops| - 1]))
  }

  lemma ProgressInStep(w: World, op: Op, j: JobId)
    requires Inv(w) && j in w.jobs && Disciplined(w, op)
    ensures AtOrAfter(w.jobs[j].checkpoint, RowAfter(w, op, j).checkpoint)
  {
    assert RowInv(w.issued, w.jobs[j], j);
    if !(op.Fenced? && op.write.Save?) {
      CheckpointChangesOnlyBySave(w, op, j);
    }
  }

  /** Local discipline and fencing together give global progress: whatever zombies, reapers and
      retries do, the checkpoint in the row never goes backwards. */
  lemma {:induction false} ProgressIsMonotone(w: World, ops: seq<Op>, j: JobId)
    requires Inv(w) && j in w.jobs && DisciplinedRun(w, ops)
    ensures j in Run(w, ops).jobs
    ensures AtOrAfter(w.jobs[j].checkpoint, Run(w, ops).jobs[j].checkpoint)
  {
    if ops != [] {
      var n := |ops| - 1;
      var before := ops[..n];
      ProgressIsMonotone(w, before, j);
      RunKeepsInv(w, before);
      ProgressInStep(Run(w, before), ops[n], j);
    }
  }
}
