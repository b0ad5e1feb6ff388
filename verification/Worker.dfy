/** runtime/worker.py, `Worker.run_once`: maintenance, claim, handler, complete or fail. */
module WorkerModule {
  import opened Common
  import opened Checkpoints
  import opened Leasing
  import opened LeasingRuns
  import opened Ownership
  import opened Pipeline
  import opened JobStoreModule
  import opened JobOpsModule
  import opened PipelineHandlerModule

  const PARK_MIN_AGE_S := 45
  const REAPER_BATCH := 50

  /** `Swallowed`: LeaseLostError ended the attempt quietly. `Escaped`: it left `run_once`. */
  datatype Ending = Idle | Completed(outcome: Outcome) | Waits | Recorded | Swallowed | Escaped

  class Worker {
    const db: JobStore
    const queues: set<string>
    const secs: int
    const knows: JobId -> bool        // there is a handler for the job's type

    constructor (db: JobStore, queues: set<string>, secs: int, knows: JobId -> bool)
      ensures this.db == db && this.queues == queues && this.secs == secs && this.knows == knows
    {
      this.db, this.queues, this.secs, this.knows := db, queues, secs, knows;
    }

    /** The table is as its invariant says and stores only sound checkpoints. Like JobOps.Bound, this is
        looked into only by proofs that mention Look. */
    ghost predicate Sane()
      reads this, db
    {
      forall n: nat {:trigger JobOps.Look(n)} :: JobOps.Look(n) ==> db.Valid() && SoundRows(db.jobs)
    }

    /** Lapsed leases reaped, then parked jobs of this worker's queues woken, with anything by others
        before either statement. */
    ghost predicate Maintains(trace: seq<Op>, between: nat -> seq<Op>, now: int) {
      exists failed, requeued ::
        trace == between(0) + [Reclaim(REAPER_BATCH, failed, requeued, now)]
                 + between(1) + [Wake(Some(queues), PARK_MIN_AGE_S, now)]
    }

    /** Everything before the claim. */
    ghost predicate Upkeep(upkeep: seq<Op>, between: nat -> seq<Op>, now: int) {
      exists trace :: Maintains(trace, between, now) && upkeep == trace + between(2)
    }

    static lemma RunOneMore(w: World, ops: seq<Op>, op: Op)
      ensures Leasing.Run(w, ops + [op]) == Step(Leasing.Run(w, ops), op)
    {
      assert (ops + [op])[..|ops|] == ops;
    }

    /** The part of `run_maintenance` that touches jobs. */
    method RunMaintenance(between: nat -> seq<Op>, now: int) returns (ghost trace: seq<Op>)
      requires db.Valid() && SoundRows(db.jobs) && forall n: nat :: AllSound(between(n))
      modifies db
      ensures db.Valid() && db.Now() == Leasing.Run(old(db.Now()), trace) && Maintains(trace, between, now)
      ensures SoundRows(db.jobs)
    {
      ghost var w := db.Now();
      trace := between(0);
      Among(w, [], between(0));
      db.Meanwhile(between(0));
      var failed, requeued := db.ReclaimExpired(REAPER_BATCH, now);
      ghost var reclaim := Reclaim(REAPER_BATCH, failed, requeued, now);
      Statement(w, trace, reclaim);
      trace := trace + [reclaim];
      Among(w, trace, between(1));
      db.Meanwhile(between(1));
      trace := trace + between(1);
      db.WakeParked(Some(queues), PARK_MIN_AGE_S, now);
      Statement(w, trace, Wake(Some(queues), PARK_MIN_AGE_S, now));
      trace := trace + [Wake(Some(queues), PARK_MIN_AGE_S, now)];
    }

    static lemma Among(w: World, done: seq<Op>, others: seq<Op>)
      requires SoundRows(Leasing.Run(w, done).jobs) && AllSound(others)
      ensures Leasing.Run(w, done + others) == Leasing.Run(Leasing.Run(w, done), others)
      ensures SoundRows(Leasing.Run(w, done + others).jobs)
      ensures done == [] ==> done + others == others && Leasing.Run(w, done) == w
    {
      RunConcat(w, done, others);
      RunKeepsSoundRows(Leasing.Run(w, done), others);
      assert done == [] ==> done + others == others;
    }

    static lemma Statement(w: World, done: seq<Op>, op: Op)
      requires SoundRows(Leasing.Run(w, done).jobs) && SavesSound(op)
      ensures Leasing.Run(w, done + [op]) == Step(Leasing.Run(w, done), op)
      ensures SoundRows(Leasing.Run(w, done + [op]).jobs)
    {
      RunOneMore(w, done, op);
      StepKeepsSoundRows(Leasing.Run(w, done), op);
    }

    /** Maintenance, everybody else once more, and the claim. */
    method Acquire(locked: set<JobId>, between: nat -> seq<Op>, now: int)
      returns (claimed: Option<JobId>, ghost upkeep: seq<Op>)
      requires Sane() && forall n: nat :: AllSound(between(n))
      modifies db
      ensures Sane()
      ensures Upkeep(upkeep, between, now)
      ensures LegalClaim(Leasing.Run(old(db.Now()), upkeep).jobs, claimed, queues, locked)
      ensures db.Now() == Leasing.Run(old(db.Now()), upkeep + [Claim(claimed, queues, locked, secs, now)])
      ensures claimed.Some? ==>
                && |db.issued| == |Leasing.Run(old(db.Now()), upkeep).issued| + 1 == db.minted
                && claimed.value in db.jobs
                && Holds(db.jobs[claimed.value], db.minted - 1, db.jobs[claimed.value].version)
                && db.jobs[claimed.value].state == Planning
    {
      assert JobOps.Look(0);
      ghost var w := db.Now();
      ghost var trace := RunMaintenance(between, now);
      Among(w, trace, between(2));
      db.Meanwhile(between(2));
      upkeep := trace + between(2);
      claimed := db.ClaimNext(queues, locked, secs, now);
      Statement(w, upkeep, Claim(claimed, queues, locked, secs, now));
    }

    /** The attempt under a fresh lease: handler, then complete or fail. */
    method Attempt(ops: JobOps, outside: Outside) returns (ending: Ending, closed: bool, ghost cancelled: bool)
      requires ops.Valid() && ops.Settled() && ops.Held() && ops.start == ops.db.Now() && ops.given == ops.seen
      requires ops.statements == 0 && ops.request == None && PipelineHandler.Heeds(ops, outside)
      modifies ops, ops.db
      ensures Ends(ops, outside, ending, closed, cancelled)
    {
      if !knows(ops.id) {
        var ok := ops.Fail("no handler for job_type");
        PipelineHandler.WorkedIsCommitted(ops, outside);
        return if ok then Recorded else Escaped, false, false;
      }
      ending, closed, cancelled := Handled(ops, outside);
    }

    method Handled(ops: JobOps, outside: Outside) returns (ending: Ending, closed: bool, ghost cancelled: bool)
      requires ops.Valid() && ops.Settled() && ops.Held() && ops.start == ops.db.Now() && ops.given == ops.seen
      requires knows(ops.id) && ops.request == None && PipelineHandler.Heeds(ops, outside)
      modifies ops, ops.db
      ensures Ends(ops, outside, ending, closed, cancelled)
    {
      var r;
      r, closed, cancelled := PipelineHandler.Handle(ops, outside);
      match r {
        case Parked =>
          ending := Waits;
        case Returned(outcome) =>
          var ok := ops.Complete(outcome);
          ending := if ok then Completed(outcome) else Swallowed;
        case LostLease =>
          ending := Swallowed;
        case Failed =>
          var ok := ops.Fail("the handler raised");
          ending := if ok then Recorded else Swallowed;
      }
      PipelineHandler.WorkedIsCommitted(ops, outside);
    }

    static ghost predicate Raising(outside: Outside) {
      PipelineHandler.Raises(outside) || outside.qualify.Some? || !outside.closes
    }

    /** A failed attempt is retried while there are attempts left. */
    static predicate Retries(row: Job) {
      row.state == if row.attempts < row.maxAttempts then Queued else State.Failed
    }

    /** How an attempt leaves its job: no unit of work that raised is on its record; the lease is held by
        nobody; LeaseLostError leaves `run_once` exactly if there is no handler and the lease is gone before
        the failure is recorded; a completed job is through qualification, and READY_FOR_REVIEW exactly if
        it found a company; a failure is recorded only if something raised. A cancellation is carried out
        exactly if a request was seen and the lease lasts from there, and then stands, whatever the handler
        went on to return, and although it may have closed the campaign. */
    ghost predicate Ends(ops: JobOps, outside: Outside, ending: Ending, closed: bool, cancelled: bool)
      reads this, ops, ops.db
    {
      && ops.Valid() && !ops.Held() && !ending.Idle? && PipelineHandler.WorkedCommits(ops.events, outside)
      && (ending.Completed? ==>
            && ops.db.jobs[ops.id].state == ending.outcome && outside.qualify.None?
            && (ending.outcome == ReadyForReview ==> closed && outside.closes)
            && ops.db.jobs[ops.id].checkpoint == ops.seen && ops.seen.stage == InQualification
            && ending.outcome == (if ops.seen.companies == [] then PartialSuccess else ReadyForReview))
      && (cancelled <==> ops.CarriedOut())
      && (ops.request.Some? ==> ops.SawRequest() && knows(ops.id) && ending == Swallowed)
      && (cancelled ==>
            && ops.db.jobs[ops.id].state == Cancelled && ending == Swallowed
            && (closed <==> ops.seen.stage != InManus && ops.seen.companies != [] && outside.closes))
      && (ending.Escaped? <==> !knows(ops.id) && !ops.FoundHeld(ops.Found(ops.start, 0)))
      && (ending.Waits? ==> outside.manus.Polled? && !outside.manus.finished && PipelineHandler.IsParked(ops))
      && (ending.Recorded? ==> (!knows(ops.id) || Raising(outside)) && Retries(ops.db.jobs[ops.id]))
      && (ops.quiet && knows(ops.id) && ops.id in ops.start.jobs ==>
            InQuiet(ops, outside, ending, cancelled, ops.start.jobs[ops.id].cancelRequested))
    }

    /** A request that was seen stood in the table at that point of the attempt. */
    static ghost predicate SeenOnTheWay(ops: JobOps)
      reads ops
    {
      ops.request.Some? ==>
        var r := ops.request.value; r.at <= |ops.trace| && r.found == Leasing.Run(ops.start, ops.trace[..r.at])
    }

    /** As long as nobody else does anything: a cancellation asked for before the claim is carried out if
        the handler comes to a place where it looks for one and Manus does not raise before, and only
        then; and an attempt that is not cancelled is completed, waits for Manus, or raised. */
    static ghost predicate InQuiet(ops: JobOps, outside: Outside, ending: Ending, cancelled: bool, asked: bool) {
      && (cancelled ==> asked && PipelineHandler.WillLook(ops.given, outside))
      && (asked && PipelineHandler.WillLook(ops.given, outside) && !PipelineHandler.ManusRaises(outside) ==> cancelled)
      && (!cancelled ==> ending.Completed? || ending.Recorded? || (ending.Waits? && !asked))
    }

    /** From the claim on. */
    method Work(id: JobId, outside: Outside, elsewhere: (Token, nat) -> seq<Op>, clock: nat -> int)
      returns (ending: Ending, ops: JobOps, closed: bool, ghost cancelled: bool)
      requires Sane() && id in db.jobs && db.minted > 0
      requires Holds(db.jobs[id], db.minted - 1, db.jobs[id].version) && db.jobs[id].state == Planning
      requires forall t: Token, n: nat :: AllForeign(elsewhere(t, n), t) && AllSound(elsewhere(t, n))
      modifies db
      ensures fresh(ops) && ops.db == db && ops.id == id && ops.token == old(db.minted) - 1
      ensures ops.start == old(db.Now()) && ops.given == old(db.jobs)[id].checkpoint
      ensures ops.quiet <==> forall n: nat :: elsewhere(ops.token, n) == []
      ensures Ends(ops, outside, ending, closed, cancelled)
      ensures Sane() && db.Now() == Leasing.Run(old(db.Now()), ops.trace)
      ensures ops.token < |old(db.issued)| && ops.token < |db.issued| && Over(db.Now(), ops.token)
      ensures Replay(old(db.issued)[ops.token].seen, ops.events).Some?
      ensures Saves(ops.events) == Stored(old(db.Now()), ops.trace, ops.token)
      ensures SeenOnTheWay(ops)
      ensures forall n: nat :: ops.elsewhere(n) == elsewhere(ops.token, n)
    {
      ops := Begin(id, outside, elsewhere, clock);
      ending, closed, cancelled := Attempt(ops, outside);
      Close(ops);
    }

    method Begin(id: JobId, ghost outside: Outside, elsewhere: (Token, nat) -> seq<Op>, clock: nat -> int)
      returns (ops: JobOps)
      requires Sane() && id in db.jobs && db.minted > 0
      requires Holds(db.jobs[id], db.minted - 1, db.jobs[id].version) && db.jobs[id].state == Planning
      requires forall t: Token, n: nat :: AllForeign(elsewhere(t, n), t) && AllSound(elsewhere(t, n))
      ensures fresh(ops) && ops.db == db && ops.id == id && ops.token == db.minted - 1
      ensures ops.start == db.Now() && ops.given == ops.seen == db.jobs[id].checkpoint
      ensures ops.token < |db.issued| && db.issued[ops.token].seen == ops.given
      ensures ops.Valid() && ops.Settled() && ops.Held() && ops.statements == 0 && ops.request == None
      ensures PipelineHandler.Heeds(ops, outside)
      ensures ops.quiet <==> forall n: nat :: elsewhere(ops.token, n) == []
      ensures forall n: nat :: ops.elsewhere(n) == elsewhere(ops.token, n)
    {
      assert JobOps.Look(0);
      assert RowInv(db.issued, db.jobs[id], id);
      var token := db.minted - 1;
      var mine := (n: nat) => elsewhere(token, n);
      assert forall n: nat :: mine(n) == elsewhere(token, n);
      ops := new JobOps(db, id, token, secs, mine, clock, u => PipelineHandler.Commits(outside, u));
    }

    lemma Close(ops: JobOps)
      requires ops.db == db && ops.Valid() && !ops.Held()
      ensures Sane() && db.Now() == Leasing.Run(ops.start, ops.trace)
      ensures ops.token < |db.issued| && Over(db.Now(), ops.token)
      ensures Replay(ops.given, ops.events).Some? && Saves(ops.events) == Stored(ops.start, ops.trace, ops.token)
      ensures SeenOnTheWay(ops)
    {
      assert JobOps.Look(0) && JobOps.Peek(0);
    }

    /** One turn, in a history `past` of the table. Everybody else acts before each of its statements, in
        answer to the token it holds if they like, as long as they do not use that token and store only
        checkpoints a pipeline stores. The table stays reachable and its checkpoints sound, so the next
        turn can follow; the lease that was taken, if any, is held by nobody afterwards; and the attempt
        has its place in the history of its job. */
    method RunOnce(outside: Outside, locked: set<JobId>, between: nat -> seq<Op>, now: int,
                   elsewhere: (Token, nat) -> seq<Op>, clock: nat -> int, ghost past: seq<Op>)
      returns (ending: Ending, ops: JobOps?, closed: bool, ghost upkeep: seq<Op>, ghost trace: seq<Op>,
               ghost cancelled: bool)
      requires Sane() && db.Now() == Leasing.Run(START, past)
      requires forall n: nat :: AllSound(between(n))
      requires forall t: Token, n: nat :: AllForeign(elsewhere(t, n), t) && AllSound(elsewhere(t, n))
      modifies db
      ensures Sane() && db.Now() == Leasing.Run(START, past + trace)
      ensures Upkeep(upkeep, between, now)
      ensures |upkeep| < |trace| && upkeep == trace[..|upkeep|] && trace[|upkeep|].Claim?
      ensures LegalClaim(Leasing.Run(START, past + upkeep).jobs, trace[|upkeep|].choice, queues, locked)
      ensures ending.Idle? <==> ops == null
      ensures ending.Idle? <==> trace[|upkeep|].choice == None
      ensures ops != null ==>
                && fresh(ops) && ops.db == db && trace[|upkeep|].choice == Some(ops.id)
                && (ops.quiet <==> forall n: nat :: elsewhere(ops.token, n) == [])
                && Ends(ops, outside, ending, closed, cancelled)
                && HasPlace(past + trace, ops.token, ops.events)
      ensures cancelled ==> ops != null
    {
      ops, closed, cancelled := null, false, false;
      ghost var w := db.Now();
      var claimed;
      claimed, upkeep := Acquire(locked, between, now);
      ghost var claim := Claim(claimed, queues, locked, secs, now);
      trace := upkeep + [claim];
      RunConcat(START, past, upkeep);
      RunConcat(START, past, trace);
      ClaimFollows(upkeep, claim, []);
      if claimed.None? {
        return Idle, null, false, upkeep, trace, false;
      }
      ghost var claimedAt := db.Now();
      ending, ops, closed, cancelled := Work(claimed.value, outside, elsewhere, clock);
      TurnFits(past, upkeep, claim, ops.trace, claimedAt, db.Now(), ops.token, ops.events);
      ClaimFollows(upkeep, claim, ops.trace);
      trace := trace + ops.trace;
    }

    static lemma ClaimFollows(upkeep: seq<Op>, claim: Op, rest: seq<Op>)
      ensures var trace := upkeep + [claim] + rest;
              |upkeep| < |trace| && upkeep == trace[..|upkeep|] && trace[|upkeep|] == claim
      ensures rest == [] ==> upkeep + [claim] + rest == upkeep + [claim]
    {
    }

    /** Every attempt has its place in the history, and worked only what could be committed in its cycle. */
    static ghost predicate AllPlaced(history: seq<Op>, made: map<Token, seq<Event>>, cycle: map<Token, nat>,
                                     cycles: nat, outside: nat -> Outside)
    {
      && cycle.Keys == made.Keys
      && forall t | t in made ::
           && HasPlace(history, t, made[t])
           && cycle[t] < cycles && PipelineHandler.WorkedCommits(made[t], outside(cycle[t]))
    }

    static lemma PlacesStay(history: seq<Op>, more: seq<Op>, made: map<Token, seq<Event>>, cycle: map<Token, nat>,
                            cycles: nat, outside: nat -> Outside)
      requires AllPlaced(history, made, cycle, cycles, outside)
      ensures AllPlaced(history + more, made, cycle, cycles + 1, outside)
    {
      forall t | t in made ensures HasPlace(history + more, t, made[t]) {
        PlaceStays(history, more, t, made[t]);
      }
    }

    /** One cycle; `attempt` is the token and the events of the attempt it made, if any. */
    method Cycle(i: nat, outside: nat -> Outside, locked: nat -> set<JobId>, between: (nat, nat) -> seq<Op>,
                 now: nat -> int, elsewhere: (nat, Token, nat) -> seq<Op>, clock: (nat, nat) -> int,
                 ghost past: seq<Op>)
      returns (ghost trace: seq<Op>, ghost attempt: Option<(Token, seq<Event>)>)
      requires Sane() && db.Now() == Leasing.Run(START, past)
      requires forall n: nat :: AllSound(between(i, n))
      requires forall t: Token, n: nat :: AllForeign(elsewhere(i, t, n), t) && AllSound(elsewhere(i, t, n))
      modifies db
      ensures Sane() && db.Now() == Leasing.Run(START, past + trace)
      ensures attempt.Some? ==>
                && HasPlace(past + trace, attempt.value.0, attempt.value.1)
                && PipelineHandler.WorkedCommits(attempt.value.1, outside(i))
    {
      var b, e, c := (n: nat) => between(i, n), (t: Token, n: nat) => elsewhere(i, t, n), (n: nat) => clock(i, n);
      assert forall n: nat :: AllSound(b(n));
      assert forall t: Token, n: nat :: AllForeign(e(t, n), t) && AllSound(e(t, n));
      var ending, ops, closed;
      ghost var upkeep, cancelled;
      ending, ops, closed, upkeep, trace, cancelled := RunOnce(outside(i), locked(i), b, now(i), e, c, past);
      attempt := if ops == null then None else Some((ops.token, ops.events));
    }

    /** `run` for a number of cycles. Whatever everybody else does meanwhile, every attempt this worker
        has made (`made`, by token; `cycle` says in which one) has its place in the history it ends in. */
    method Run(cycles: nat, outside: nat -> Outside, locked: nat -> set<JobId>, between: (nat, nat) -> seq<Op>,
               now: nat -> int, elsewhere: (nat, Token, nat) -> seq<Op>, clock: (nat, nat) -> int, ghost past: seq<Op>)
      returns (ghost trace: seq<Op>, ghost made: map<Token, seq<Event>>, ghost cycle: map<Token, nat>)
      requires Sane() && db.Now() == Leasing.Run(START, past)
      requires forall i: nat, n: nat :: AllSound(between(i, n))
      requires forall i: nat, t: Token, n: nat :: AllForeign(elsewhere(i, t, n), t) && AllSound(elsewhere(i, t, n))
      modifies db
      ensures Sane() && db.Now() == Leasing.Run(START, past + trace)
      ensures AllPlaced(past + trace, made, cycle, cycles, outside)
    {
      trace, made, cycle := [], map[], map[];
      assert past + [] == past;
      for i := 0 to cycles
        invariant Sane() && db.Now() == Leasing.Run(START, past + trace)
        invariant AllPlaced(past + trace, made, cycle, i, outside)
      {
        ghost var more, attempt := Cycle(i, outside, locked, between, now, elsewhere, clock, past + trace);
        PlacesStay(past + trace, more, made, cycle, i, outside);
        Associates(past, trace, more);
        trace := trace + more;
        if attempt.Some? {
          made, cycle := made[attempt.value.0 := attempt.value.1], cycle[attempt.value.0 := i];
        }
      }
    }

    /** A turn in the history of the table: everything before the claim, the claim, and the attempt. */
    static lemma TurnFits(past: seq<Op>, upkeep: seq<Op>, claim: Op, rest: seq<Op>, claimed: World, after: World,
                          t: Token, events: seq<Event>)
      requires claimed == Leasing.Run(Leasing.Run(START, past), upkeep + [claim]) && after == Leasing.Run(claimed, rest)
      requires |claimed.issued| == |Leasing.Run(Leasing.Run(START, past), upkeep).issued| + 1 == t + 1
               && t < |after.issued| && Over(after, t)
      requires Replay(claimed.issued[t].seen, events).Some? && Saves(events) == Stored(claimed, rest, t)
      ensures after == Leasing.Run(START, past + (upkeep + [claim] + rest))
      ensures HasPlace(past + (upkeep + [claim] + rest), t, events)
    {
      Associates(past, upkeep, [claim]);
      Associates(past, upkeep + [claim], rest);
      ThreeRuns(past, upkeep + [claim], rest);
      RunConcat(START, past, upkeep);
      FinishedAttemptFits(past + upkeep, claim, rest, events);
    }

    static lemma Associates<T>(a: seq<T>, b: seq<T>, c: seq<T>)
      ensures a + (b + c) == a + b + c
    {
    }

    static lemma ThreeRuns(a: seq<Op>, b: seq<Op>, c: seq<Op>)
      ensures Leasing.Run(START, a + b) == Leasing.Run(Leasing.Run(START, a), b)
      ensures Leasing.Run(START, a + b + c) == Leasing.Run(Leasing.Run(Leasing.Run(START, a), b), c)
    {
      RunConcat(START, a, b);
      RunConcat(START, a + b, c);
    }
  }
}
