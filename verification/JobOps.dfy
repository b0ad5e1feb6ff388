/** runtime/worker.py, `JobOps`: the fenced surface a handler works through. Before each of its
    statements everybody else may do anything (`elsewhere`), at any time (`clock`), except use a token
    they do not know. A method that returns false is one that raises LeaseLostError. */
module JobOpsModule {
  import opened Common
  import opened Checkpoints
  import opened Leasing
  import opened LeasingRuns
  import opened Ownership
  import opened Pipeline
  import opened JobStoreModule

  /** A cancellation request that the handler saw: the table it found it in, where in the trace that
      was, and the number of its next statement. */
  datatype Asked = Asked(found: World, at: nat, next: nat)

  class JobOps {
    const db: JobStore
    const id: JobId
    const token: Token
    const version: nat
    const secs: int
    const elsewhere: nat -> seq<Op>
    const clock: nat -> int
    var seen: Checkpoint              // ctx.checkpoint
    var statements: nat
    ghost const start: World          // the table when the lease was claimed, just after
    ghost const quiet: bool           // nobody else does anything
    ghost const given: Checkpoint     // the checkpoint handed over with the claim
    ghost const commits: Unit -> bool // the units of work that do not raise
    ghost var trace: seq<Op>          // everything done to the table since
    ghost var events: seq<Event>      // what this attempt has done
    ghost var stored: seq<Checkpoint> // what was stored under this lease
    ghost var request: Option<Asked>  // the request that Cancel saw
    ghost var beats: nat              // heartbeats sent
    ghost var checks: nat             // times the handler looked for a cancellation

    /** The lease exists, held or not, and the table is where the trace leads. Only a proof that
        mentions Look sees what this says; everywhere else it is just kept. */
    ghost predicate Bound()
      reads this, db
    {
      id in db.jobs && forall n: nat {:trigger Look(n)} :: Look(n) ==> BoundNow()
    }

    ghost predicate BoundNow()
      reads this, db
    {
      db.Valid() && Tells(db.Now(), trace, seen, stored, request)
    }

    /** The ghost fields tell what happened to the table. Sealed in the same way, for proofs that mention
        Peek. */
    ghost predicate Tells(w: World, trace: seq<Op>, seen: Checkpoint, stored: seq<Checkpoint>, request: Option<Asked>) {
      forall n: nat {:trigger Peek(n)} :: Peek(n) ==> TellsNow(w, trace, seen, stored, request)
    }

    ghost predicate TellsNow(w: World, trace: seq<Op>, seen: Checkpoint, stored: seq<Checkpoint>,
                             request: Option<Asked>)
    {
      && SoundRows(w.jobs)
      && (forall n: nat :: AllForeign(elsewhere(n), token) && AllSound(elsewhere(n)))
      && (quiet ==> forall n: nat :: elsewhere(n) == [])
      && LeaseOf(w, id, token, version, seen)
      && Follows(start, trace, w, token, stored, request)
    }

    static predicate Peek(n: nat) {
      true
    }

    /** The table, what was stored under the lease and the request that was seen are those of the trace. */
    static ghost predicate Follows(start: World, trace: seq<Op>, now: World, token: Token, stored: seq<Checkpoint>,
                                   request: Option<Asked>)
    {
      && now == Run(start, trace)
      && stored == Stored(start, trace, token)
      && (request.Some? ==> request.value.at <= |trace| && request.value.found == Run(start, trace[..request.value.at]))
    }

    static lemma FollowsOn(start: World, trace: seq<Op>, now: World, token: Token, stored: seq<Checkpoint>,
                           request: Option<Asked>, more: seq<Op>)
      requires Follows(start, trace, now, token, stored, request)
      ensures Follows(start, trace + more, Run(now, more), token, stored + Stored(now, more, token), request)
    {
      RunConcat(start, trace, more);
      StoredConcat(start, trace, more, token);
      if request.Some? {
        assert (trace + more)[..request.value.at] == trace[..request.value.at];
      }
    }

    static lemma FollowsOne(start: World, trace: seq<Op>, now: World, token: Token, stored: seq<Checkpoint>,
                            request: Option<Asked>, op: Op)
      requires Follows(start, trace, now, token, stored, request)
      ensures Follows(start, trace + [op], Step(now, op), token,
                      if Takes(now, op, token) then stored + [op.write.checkpoint] else stored, request)
    {
      FollowsOn(start, trace, now, token, stored, request, [op]);
      assert [op][..0] == [] && Run(now, []) == now;
      assert Stored(now, [op], token) == if Takes(now, op, token) then [op.write.checkpoint] else [];
    }

    static predicate Look(n: nat) {
      true
    }

    /** Everybody else's turn before statement `n`. */
    lemma OthersTell(w: World, trace: seq<Op>, seen: Checkpoint, stored: seq<Checkpoint>, request: Option<Asked>,
                     n: nat)
      requires Inv(w) && Tells(w, trace, seen, stored, request)
      ensures Tells(Found(w, n), trace + elsewhere(n), seen, stored, request)
      ensures id in w.jobs && id in Found(w, n).jobs && OthersLeave(w.jobs[id], Found(w, n).jobs[id])
      ensures quiet ==> Found(w, n) == w
    {
      assert Peek(0);
      HeldAlone(w, elsewhere(n), id, token, version, seen);
      RunKeepsSoundRows(w, elsewhere(n));
      ForeignStoresNothing(w, elsewhere(n), token);
      FollowsOn(start, trace, w, token, stored, request, elsewhere(n));
      assert stored + [] == stored;
      if Terminal(w.jobs[id].state) {
        TerminalIsForever(w, elsewhere(n), id);
      }
    }

    /** What others may have done to the row. */
    predicate OthersLeave(before: Job, after: Job) {
      && (Holds(after, token, version) ==> Holds(before, token, version) && OnlyAsked(before, after))
      && (before.cancelRequested ==> after.cancelRequested)
      && (Terminal(before.state) ==> after.state == before.state)
    }

    lemma OwnTells(w: World, trace: seq<Op>, seen: Checkpoint, stored: seq<Checkpoint>, request: Option<Asked>,
                   write: Write, now: int)
      requires Inv(w) && Tells(w, trace, seen, stored, request) && (write.Save? ==> Sound(write.checkpoint))
      ensures id in w.jobs
      ensures var op := Fenced(id, token, version, write, now);
              var ok := Accepts(w.jobs[id], token, version, write);
              && Tells(Step(w, op), trace + [op], if ok && write.Save? then write.checkpoint else seen,
                       if ok && write.Save? then stored + [write.checkpoint] else stored, request)
              && id in Step(w, op).jobs
              && Step(w, op).jobs[id] == if ok then Written(w.jobs[id], write, now) else w.jobs[id]
    {
      assert Peek(0);
      var op := Fenced(id, token, version, write, now);
      OwnStep(w, id, token, version, seen, write, now);
      StepKeepsSoundRows(w, op);
      FollowsOne(start, trace, w, token, stored, request, op);
    }

    lemma BeatTells(w: World, trace: seq<Op>, seen: Checkpoint, stored: seq<Checkpoint>, request: Option<Asked>,
                    now: int)
      requires Inv(w) && Tells(w, trace, seen, stored, request)
      ensures var op := Op.Heartbeat(id, token, secs, now);
              && Tells(Step(w, op), trace + [op], seen, stored, request)
              && id in w.jobs && id in Step(w, op).jobs
              && Step(w, op).jobs[id].state == w.jobs[id].state
              && Step(w, op).jobs[id].cancelRequested == w.jobs[id].cancelRequested
              && (Holds(Step(w, op).jobs[id], token, version) <==> Holds(w.jobs[id], token, version))
              && (Beats(w.jobs[id], token) <==> Holds(w.jobs[id], token, version))
    {
      assert Peek(0);
      var op := Op.Heartbeat(id, token, secs, now);
      OwnBeat(w, id, token, version, seen, secs, now);
      HeartbeatFenceIsFull(w, token, id);
      StepKeepsSoundRows(w, op);
      FollowsOne(start, trace, w, token, stored, request, op);
    }

    ghost predicate Orderly()
      reads this
    {
      && Sound(given) && Replay(given, events).Some? && Replay(given, events).value.ck == seen
      && stored == Saves(events) && Committed(events, commits)
    }

    ghost predicate Held()
      reads this, db
    {
      id in db.jobs && Holds(db.jobs[id], token, version)
    }

    ghost predicate Valid()
      reads this, db
    {
      Bound() && Orderly() && (Held() ==> db.jobs[id].state != Cancelling)
    }

    /** The lease is held, and nobody else does anything. */
    ghost predicate Calm()
      reads this, db
    {
      quiet && Held()
    }

    twostate predicate KeepsCalm()
      reads this, db
    {
      id in old(db.jobs) && id in db.jobs && old(Calm()) ==>
        Calm() && db.jobs[id].cancelRequested == old(db.jobs)[id].cancelRequested
    }

    ghost predicate FoundHeld(w: World) {
      id in w.jobs && Holds(w.jobs[id], token, version)
    }

    /** The table as statement `n` finds it, after everybody else's turn. */
    ghost function Found(w: World, n: nat): World {
      Run(w, elsewhere(n))
    }

    ghost function Made(write: Write, n: nat): Op {
      Fenced(id, token, version, write, clock(n + 1))
    }

    /** From `w`, statement `n` was this write, on the table as it found it: `after` is what it left, and it
        took effect exactly if the lease was there. Sealed like Tells. */
    ghost predicate Wrote(w: World, n: nat, write: Write, ok: bool, after: World) {
      forall m: nat {:trigger Peek(m)} :: Peek(m) ==>
        after == Step(Found(w, n), Made(write, n)) && (ok <==> FoundHeld(Found(w, n)))
    }

    /** ... and this one the heartbeat, which renews the lease exactly if it was there. */
    ghost predicate Beat(w: World, n: nat, ok: bool, after: World) {
      forall m: nat {:trigger Peek(m)} :: Peek(m) ==>
        && after == Step(Found(w, n), Op.Heartbeat(id, token, secs, clock(n + 1)))
        && (ok <==> FoundHeld(Found(w, n)))
    }

    /** From statement `n` on, the lease is there when CANCELLING is written, and still there when
        CANCELLED is. */
    ghost predicate Lasts(w: World, n: nat) {
      FoundHeld(Found(w, n)) && FoundHeld(Found(Step(Found(w, n), Made(ApplyCancellation, n)), n + 1))
    }

    /** A request was seen by statement `n`. */
    ghost predicate Saw(request: Option<Asked>, w: World, n: nat) {
      && request.Some? && request.value.found == Found(w, n) && request.value.next == n + 1
      && id in Found(w, n).jobs && Found(w, n).jobs[id].cancelRequested
    }

    ghost predicate SawRequest()
      reads this`request
    {
      request.Some? && id in request.value.found.jobs && request.value.found.jobs[id].cancelRequested
    }

    /** The request that was seen found the lease there, and lasting long enough to be carried out. */
    ghost predicate CarriedOut()
      reads this`request
    {
      request.Some? && Lasts(request.value.found, request.value.next)
    }

    /** Nothing worked that is not recorded. */
    ghost predicate Settled()
      reads this
    {
      Replay(given, events) == Some(Progress(seen, false))
    }

    constructor (db: JobStore, id: JobId, token: Token, secs: int, elsewhere: nat -> seq<Op>, clock: nat -> int,
                 ghost commits: Unit -> bool)
      requires db.Valid() && id in db.jobs && Holds(db.jobs[id], token, db.jobs[id].version)
      requires db.jobs[id].state != Cancelling
      requires SoundRows(db.jobs) && forall n: nat :: AllForeign(elsewhere(n), token) && AllSound(elsewhere(n))
      ensures Valid() && Settled() && Held()
      ensures this.db == db && this.id == id && this.token == token && this.elsewhere == elsewhere
              && version == db.jobs[id].version
      ensures quiet <==> forall n: nat :: elsewhere(n) == []
      ensures start == db.Now() && trace == [] && given == seen == db.jobs[id].checkpoint && events == []
      ensures statements == 0 && request == None && this.commits == commits
    {
      this.db, this.id, this.token, this.secs, this.elsewhere, this.clock := db, id, token, secs, elsewhere, clock;
      this.quiet := forall n: nat :: elsewhere(n) == [];
      this.version, this.seen, this.statements := db.jobs[id].version, db.jobs[id].checkpoint, 0;
      this.start, this.given, this.trace, this.events := db.Now(), db.jobs[id].checkpoint, [], [];
      this.beats, this.checks, this.stored, this.request, this.commits := 0, 0, [], None, commits;
      new;
      assert Look(0) && Peek(0);
      assert RowInv(db.issued, db.jobs[id], id);
    }

    method Others()
      requires Bound()
      modifies this`statements, this`trace, db
      ensures Bound() && statements == old(statements) + 1
      ensures db.Now() == Found(old(db.Now()), old(statements))
      ensures OthersLeave(old(db.jobs[id]), db.jobs[id])
      ensures old(Calm()) ==> db.jobs[id] == old(db.jobs[id])
    {
      assert Look(0);
      OthersTell(db.Now(), trace, seen, stored, request, statements);
      db.Meanwhile(elsewhere(statements));
      trace := trace + elsewhere(statements);
      statements := statements + 1;
    }

    /** One fenced statement. `row` is the row it finds. */
    method Fence(write: Write) returns (ok: bool, ghost row: Job)
      requires Bound() && (write.Save? ==> Sound(write.checkpoint))
      modifies this`statements, this`trace, this`seen, this`stored, db
      ensures Bound() && seen == if ok && write.Save? then write.checkpoint else old(seen)
      ensures stored == if ok && write.Save? then old(stored) + [write.checkpoint] else old(stored)
      ensures statements == old(statements) + 1
      ensures id in Found(old(db.Now()), old(statements)).jobs && row == Found(old(db.Now()), old(statements)).jobs[id]
      ensures db.Now() == Step(Found(old(db.Now()), old(statements)), Made(write, old(statements)))
      ensures OthersLeave(old(db.jobs[id]), row)
      ensures Holds(row, token, version) ==> row.checkpoint == old(seen)
      ensures old(Calm()) ==> row == old(db.jobs[id])
      ensures ok <==> Accepts(row, token, version, write)
      ensures Leaves(row, write, ok, db.jobs[id])
    {
      Others();
      row := db.jobs[id];
      assert Holds(row, token, version) ==> row.checkpoint == seen by {
        assert Look(0) && Peek(0);
        assert RowInv(db.issued, row, id);
      }
      ok := Own(write);
    }

    static ghost predicate Leaves(before: Job, write: Write, ok: bool, after: Job) {
      exists now: int :: after == if ok then Written(before, write, now) else before
    }

    method Own(write: Write) returns (ok: bool)
      requires Bound() && (write.Save? ==> Sound(write.checkpoint))
      modifies this`trace, this`seen, this`stored, db
      ensures Bound() && seen == if ok && write.Save? then write.checkpoint else old(seen)
      ensures stored == if ok && write.Save? then old(stored) + [write.checkpoint] else old(stored)
      ensures db.Now() == Step(old(db.Now()), Fenced(id, token, version, write, clock(statements)))
      ensures ok <==> Accepts(old(db.jobs[id]), token, version, write)
      ensures Leaves(old(db.jobs[id]), write, ok, db.jobs[id])
    {
      assert Look(0);
      var now := clock(statements);
      ghost var before, op := db.jobs[id], Fenced(id, token, version, write, now);
      OwnTells(db.Now(), trace, seen, stored, request, write, now);
      ok := db.FencedWrite(id, token, version, write, now);
      assert db.jobs[id] == if ok then Written(before, write, now) else before;
      trace := trace + [op];
      if ok && write.Save? {
        seen, stored := write.checkpoint, stored + [write.checkpoint];
      }
    }

    /** `checkpoint`: the row first, then ctx.checkpoint. */
    method Checkpoint(data: Checkpoint, moveTo: Option<Phase>) returns (ok: bool)
      requires Valid() && MaySave(Replay(given, events).value, data) && moveTo != Some(Cancelling)
      modifies this`seen, this`statements, this`trace, this`events, this`stored, db
      ensures Valid()
      ensures Wrote(old(db.Now()), old(statements), Save(data, moveTo, secs), ok, db.Now())
      ensures ok ==> seen == data && Settled() && events == old(events) + [Saved(data)] && Held() && old(Held())
      ensures ok && moveTo.Some? ==> db.jobs[id].state == moveTo.value
      ensures KeepsCalm() && (old(Calm()) ==> ok)
      ensures !ok ==> seen == old(seen) && events == old(events) && !Held()
    {
      MaySaveSound(given, events, data);
      ghost var row;
      ok, row := Fence(Save(data, moveTo, secs));
      if ok {
        ReplayOneMore(given, events, Saved(data));
        CommittedOneMore(events, Saved(data), commits);
        events := events + [Saved(data)];
      }
    }

    method SetPhase(phase: Phase) returns (ok: bool)
      requires Valid() && phase != Cancelling
      modifies this`seen, this`statements, this`trace, this`stored, db
      ensures Valid() && seen == old(seen) && ok == Held() && (ok ==> old(Held()) && db.jobs[id].state == phase)
      ensures KeepsCalm()
      ensures Wrote(old(db.Now()), old(statements), Write.SetPhase(phase, secs), ok, db.Now())
    {
      ghost var row;
      ok, row := Fence(Write.SetPhase(phase, secs));
    }

    method Heartbeat() returns (ok: bool)
      requires Valid()
      modifies this`statements, this`trace, this`beats, db
      ensures Valid() && beats == old(beats) + 1
      ensures Beat(old(db.Now()), old(statements), ok, db.Now())
      ensures Held() ==> old(Held())
      ensures KeepsCalm()
    {
      beats := beats + 1;
      Others();
      ok := OwnHeartbeat();
    }

    method OwnHeartbeat() returns (ok: bool)
      requires Bound()
      modifies this`trace, db
      ensures Bound() && (Held() <==> old(Held()))
      ensures db.Now() == Step(old(db.Now()), Op.Heartbeat(id, token, secs, clock(statements))) && (ok <==> old(Held()))
      ensures db.jobs[id].state == old(db.jobs[id].state)
      ensures db.jobs[id].cancelRequested == old(db.jobs[id].cancelRequested)
    {
      assert Look(0);
      ghost var op := Op.Heartbeat(id, token, secs, clock(statements));
      BeatTells(db.Now(), trace, seen, stored, request, clock(statements));
      ok := db.Heartbeat(id, token, secs, clock(statements));
      trace := trace + [op];
    }

    method Park(reason: string) returns (ok: bool)
      requires Valid()
      modifies this`seen, this`statements, this`trace, this`stored, db
      ensures Valid() && !Held() && seen == old(seen)
      ensures Wrote(old(db.Now()), old(statements), Write.Park(reason), ok, db.Now())
      ensures ok ==> db.jobs[id].state == WaitingForCapacity && PARK_PREFIX <= db.jobs[id].lastError
      ensures old(Calm()) ==> ok
    {
      ghost var row;
      ok, row := Fence(Write.Park(reason));
    }

    /** `leasing.complete` under this lease. */
    method Complete(outcome: Outcome) returns (ok: bool)
      requires Valid()
      modifies this`seen, this`statements, this`trace, this`stored, db
      ensures Valid() && !Held() && seen == old(seen)
      ensures Wrote(old(db.Now()), old(statements), Write.Complete(outcome), ok, db.Now())
      ensures ok ==> old(Held()) && db.jobs[id].state == outcome && db.jobs[id].checkpoint == seen
      ensures old(Calm()) ==> ok
      ensures Terminal(old(db.jobs[id].state)) && !old(Held()) ==> db.jobs[id].state == old(db.jobs[id].state)
    {
      ghost var row;
      ok, row := Fence(Write.Complete(outcome));
    }

    /** `leasing.fail` under this lease. */
    method Fail(error: string) returns (ok: bool)
      requires Valid()
      modifies this`seen, this`statements, this`trace, this`stored, db
      ensures Valid() && !Held() && seen == old(seen)
      ensures Wrote(old(db.Now()), old(statements), Write.Fail(error), ok, db.Now())
      ensures ok <==> FoundHeld(Found(old(db.Now()), old(statements)))
      ensures ok ==>
                && old(Held()) && db.jobs[id].attempts == old(db.jobs[id].attempts)
                && db.jobs[id].state == (if db.jobs[id].attempts < db.jobs[id].maxAttempts then Queued else Failed)
      ensures old(Calm()) ==> ok
      ensures Terminal(old(db.jobs[id].state)) && !old(Held()) ==> db.jobs[id].state == old(db.jobs[id].state)
    {
      ghost var row;
      ok, row := Fence(Write.Fail(error));
    }

    method CancelRequested() returns (asked: bool)
      requires Valid()
      modifies this`statements, this`trace, db
      ensures Valid() && statements == old(statements) + 1
      ensures db.Now() == Found(old(db.Now()), old(statements))
      ensures Held() ==> old(Held())
      ensures KeepsCalm()
      ensures asked == db.jobs[id].cancelRequested
      ensures old(db.jobs[id].cancelRequested) ==> asked
    {
      Others();
      asked := db.jobs[id].cancelRequested;
    }

    /** `apply_cancellation`, then `finish_cancelled` if it was applied. The job ends CANCELLED if the
        lease lasts, exactly. */
    method Finish() returns (ghost lasted: bool)
      requires Valid() && db.jobs[id].cancelRequested
      modifies this`seen, this`statements, this`trace, this`stored, db
      ensures Valid() && seen == old(seen)
      ensures !Held() && db.jobs[id].cancelRequested
      ensures lasted <==> Lasts(old(db.Now()), old(statements))
      ensures lasted ==> old(Held()) && db.jobs[id].state == Cancelled
      ensures old(Calm()) ==> lasted
    {
      var applied, done: bool;
      ghost var row;
      lasted := false;
      applied, row := Fence(ApplyCancellation);
      assert applied <==> Holds(row, token, version);
      if applied {
        done, row := Fence(FinishCancelled);
        lasted := done;
      }
    }

    /** A request was seen. */
    ghost method See()
      requires Valid()
      modifies this`request
      ensures Valid() && request == Some(Asked(db.Now(), |trace|, statements))
    {
      assert Look(0) && Peek(0);
      assert trace[..|trace|] == trace;
      request := Some(Asked(db.Now(), |trace|, statements));
    }

    /** `_cancelled` of the handler: look, and carry out what was asked for. */
    method Cancel() returns (asked: bool, ghost lasted: bool)
      requires Valid()
      modifies this`seen, this`statements, this`trace, this`checks, this`stored, this`request, db
      ensures Valid() && seen == old(seen) && checks == old(checks) + 1
      ensures !asked ==> KeepsCalm() && (Held() ==> old(Held()))
      ensures asked ==> !Held() && db.jobs[id].cancelRequested
      ensures asked ==> Saw(request, old(db.Now()), old(statements))
      ensures !asked ==> request == old(request)
      ensures lasted <==> asked && CarriedOut()
      ensures lasted ==> old(Held()) && db.jobs[id].state == Cancelled
      ensures old(db.jobs[id].cancelRequested) ==> asked
      ensures old(Calm()) ==> (lasted <==> asked) && (asked <==> old(db.jobs[id].cancelRequested))
    {
      lasted := false;
      checks := checks + 1;
      asked := CancelRequested();
      if asked {
        See();
        lasted := Finish();
      }
    }

    /** A unit of work was committed. */
    ghost method Did(u: Unit)
      requires Orderly() && MayWork(Replay(given, events).value, u) && commits(u)
      modifies this`events
      ensures Orderly() && events == old(events) + [Worked(u)] && Replay(given, events) == Some(Progress(seen, true))
    {
      ReplayOneMore(given, events, Worked(u));
      CommittedOneMore(events, Worked(u), commits);
      events := events + [Worked(u)];
    }
  }
}
