/** application/handlers/pipeline.py and manus_stage.py: the phases of one attempt and their
    checkpointed loops. What the business code inside a unit of work finds or refuses comes from
    `Outside`; what it writes is not modelled. */
module PipelineHandlerModule {
  import opened Common
  import opened Checkpoints
  import opened Leasing
  import opened Pipeline
  import opened JobOpsModule
  import opened ManusTurns

  datatype Plan = Refused(error: string) | Planned(manus: bool, queries: nat)

  /** A turn of the Manus engine. `NotReady`: it raises before anything is submitted; `Exhausted`: after. */
  datatype ManusTurn = NotReady | Exhausted | Polled(verified: seq<Option<nat>>, stored: bool, finished: bool)

  datatype Outside = Outside(
    plan: Plan,
    manus: ManusTurn,
    search: nat -> Option<seq<Option<nat>>>,   // companies ingested for a query, or the unit raised
    commits: Unit -> bool,                     // the unit of work of a company did not raise
    qualify: Option<string>,                   // a refusal
    closes: bool)                              // the campaign state could be written

  /** How a phase ends. `Stopped`: it saw a cancellation request; `Gone`: LeaseLostError. */
  datatype Exit = Going | Stopped | Gone | Waiting | Raised

  datatype Result = Returned(outcome: Outcome) | Parked | LostLease | Failed

  predicate Once(s: seq<nat>) {
    forall i, j | 0 <= i < j < |s| :: s[i] != s[j]
  }

  /** `company_ids` after the companies of one query: new ones appended, in order, once each. */
  method AddNew(known: seq<nat>, found: seq<Option<nat>>) returns (r: seq<nat>)
    ensures known <= r
    ensures forall c :: c in r <==> c in known || Some(c) in found
    ensures Once(known) ==> Once(r)
  {
    r := known;
    for k := 0 to |found|
      invariant known <= r
      invariant forall c :: c in r <==> c in known || Some(c) in found[..k]
      invariant Once(known) ==> Once(r)
    {
      if found[k].Some? && found[k].value !in r {
        r := r + [found[k].value];
      }
    }
  }

  class PipelineHandler {

    /** The local copy, the context's copy and the last save agree, and nothing is half done. */
    static ghost predicate InStep(ops: JobOps, ck: Checkpoint, stage: Stage)
      reads ops, ops.db
    {
      ops.Valid() && ops.Settled() && ck == ops.seen && ck.stage == stage
    }

    /** The job waits where `wake_parked` will find it. */
    static ghost predicate IsParked(ops: JobOps)
      reads ops, ops.db
    {
      && ops.id in ops.db.jobs && ops.db.jobs[ops.id].state == WaitingForCapacity
      && PARK_PREFIX <= ops.db.jobs[ops.id].lastError
    }

    /** What every phase leaves behind: `next` is the phase it hands over to. Going through takes the
        lease; stopping or losing it leaves none; nothing raises unless something outside does. As long
        as nobody else does anything, no lease is lost, no cancellation is made up, and one that is seen
        is carried out (`lasted`); whatever others do, it is carried out exactly if the lease lasts from
        where it was seen. */
    static twostate predicate Ends(ops: JobOps, outside: Outside, exit: Exit, ck: Checkpoint, next: Stage, lasted: bool)
      reads ops, ops.db
    {
      && ops.Valid()
      && (ops.Held() ==> old(ops.Held()))
      && (exit.Going? ==> InStep(ops, ck, next) && (next == InQualification ==> ops.Held()))
      && (exit.Stopped? || exit.Gone? || exit.Waiting? ==> !ops.Held())
      && (exit.Stopped? ==> ops.db.jobs[ops.id].cancelRequested && ck == ops.seen.(stage := InCancelling))
      && (lasted ==> exit.Stopped? && old(ops.Held()) && ops.db.jobs[ops.id].state == Cancelled)
      && (if exit.Stopped? then ops.SawRequest() && (lasted <==> ops.CarriedOut()) else ops.request == old(ops.request))
      && (exit.Raised? ==> Raises(outside))
      && (exit.Waiting? ==> outside.manus.Polled? && !outside.manus.finished && IsParked(ops))
      && (old(ops.Calm()) ==> !exit.Gone? && (if exit.Stopped? then lasted else exit.Waiting? || ops.KeepsCalm()))
    }

    /** The unit of work does not raise. */
    static predicate Commits(outside: Outside, u: Unit) {
      if u.stage == InDiscovery then outside.search(u.index).Some? else outside.commits(u)
    }

    /** The attempt can only claim units of work that were committed. */
    static ghost predicate Heeds(ops: JobOps, outside: Outside) {
      forall u :: ops.commits(u) == Commits(outside, u)
    }

    /** None of the units [from, to) of a phase raises. */
    static predicate AllCommit(outside: Outside, stage: Stage, from: nat, to: nat) {
      to <= from || (AllCommit(outside, stage, from, to - 1) && Commits(outside, Unit(stage, to - 1)))
    }

    static lemma {:induction false} AllCommitIff(outside: Outside, stage: Stage, from: nat, to: nat)
      ensures AllCommit(outside, stage, from, to)
              <==> forall i: nat | from <= i < to :: Commits(outside, Unit(stage, i))
    {
      if from < to {
        AllCommitIff(outside, stage, from, to - 1);
        assert AllCommit(outside, stage, from, to) ==> Commits(outside, Unit(stage, to - 1));
      }
    }

    /** Everything worked was committed. */
    static ghost predicate WorkedCommits(events: seq<Event>, outside: Outside) {
      forall u | Times(events, u) > 0 :: Commits(outside, u)
    }

    static lemma WorkedIsCommitted(ops: JobOps, outside: Outside)
      requires Heeds(ops, outside) && Committed(ops.events, ops.commits)
      ensures WorkedCommits(ops.events, outside)
    {
      forall u | Times(ops.events, u) > 0 ensures Commits(outside, u) {
        CommittedEach(ops.events, ops.commits, u);
      }
    }

    /** The units [from, to) that an attempt has recorded since `before` have been committed. */
    static lemma RecordedCommits(ops: JobOps, before: seq<Event>, outside: Outside, stage: Stage, from: nat, to: nat)
      requires Heeds(ops, outside) && Sound(ops.given) && Committed(ops.events, ops.commits)
      requires Replay(ops.given, before).Some? && !Replay(ops.given, before).value.pending
      requires Replay(ops.given, ops.events).Some?
      requires IndexIn(Replay(ops.given, before).value.ck, stage) == from
      requires IndexIn(Replay(ops.given, ops.events).value.ck, stage) >= to
      ensures AllCommit(outside, stage, from, to)
    {
      forall i: nat | from <= i < to ensures Commits(outside, Unit(stage, i)) {
        WorkedWhatItRecorded(ops.given, before, Unit(stage, i));
        RecordedIsCommitted(ops.given, ops.events, ops.commits, Unit(stage, i));
      }
      AllCommitIff(outside, stage, from, to);
    }

    static lemma {:induction false} OneRaises(outside: Outside, stage: Stage, from: nat, i: nat, to: nat)
      requires from <= i < to && !Commits(outside, Unit(stage, i))
      ensures !AllCommit(outside, stage, from, to)
    {
      if i < to - 1 {
        OneRaises(outside, stage, from, i, to - 1);
      }
    }

    /** Something a phase calls raises. */
    static ghost predicate Raises(outside: Outside) {
      || outside.plan.Refused?
      || ManusRaises(outside)
      || (exists q :: outside.search(q).None?)
      || (exists u :: !outside.commits(u))
    }

    /** Company `c` was found by one of the queries in [from, to). */
    static ghost predicate FoundBetween(outside: Outside, from: nat, to: nat, c: nat) {
      exists q | from <= q < to :: outside.search(q).Some? && Some(c) in outside.search(q).value
    }

    /** The loop over queries [from, to): the companies known before, in place, and those found. */
    static ghost predicate Gathered(outside: Outside, before: seq<nat>, from: nat, to: nat, after: seq<nat>) {
      before <= after && forall c :: c in after <==> c in before || FoundBetween(outside, from, to, c)
    }

    static lemma GatherOneMore(outside: Outside, before: seq<nat>, from: nat, to: nat, mid: seq<nat>, after: seq<nat>)
      requires from <= to && Gathered(outside, before, from, to, mid) && outside.search(to).Some?
      requires mid <= after && forall c :: c in after <==> c in mid || Some(c) in outside.search(to).value
      ensures Gathered(outside, before, from, to + 1, after)
    {
      forall c ensures c in after <==> c in before || FoundBetween(outside, from, to + 1, c) {
        if FoundBetween(outside, from, to, c) {
          var q :| from <= q < to && outside.search(q).Some? && Some(c) in outside.search(q).value;
          assert from <= q < to + 1;
        }
      }
    }

    static method Plan(ops: JobOps, outside: Outside) returns (exit: Exit, ck: Checkpoint)
      requires InStep(ops, EMPTY, InPlanning)
      modifies ops, ops.db
      ensures var next := if outside.plan.Planned? && outside.plan.manus then InManus else InDiscovery;
              Ends(ops, outside, exit, ck, next, false)
      ensures !exit.Stopped? && !exit.Waiting?
      ensures exit.Going? ==>
                && outside.plan.Planned? && ck == EMPTY.(stage := ck.stage, queries := outside.plan.queries)
                && ops.db.jobs[ops.id].state == Discovering
      ensures exit.Raised? ==> outside.plan.Refused?
    {
      ck := EMPTY;
      var ok := ops.SetPhase(Planning);
      if !ok {
        return Gone, ck;
      }
      match outside.plan {
        case Refused(_) =>
          exit := Raised;
        case Planned(manus, queries) =>
          ck := Checkpoint(if manus then InManus else InDiscovery, queries, [], [], 0, 0, 0, 0);
          ok := ops.Checkpoint(ck, Some(Discovering));
          exit := if ok then Going else Gone;
      }
    }

    /** The results of one more query. */
    static method Gather(outside: Outside, ghost before: seq<nat>, ghost from: nat, q: nat, known: seq<nat>)
      returns (r: seq<nat>)
      requires from <= q && outside.search(q).Some? && Gathered(outside, before, from, q, known)
      ensures Gathered(outside, before, from, q + 1, r) && known <= r
    {
      r := AddNew(known, outside.search(q).value);
      GatherOneMore(outside, before, from, q, known, r);
    }

    /** The end of a turn: the unit of work has been committed; a heartbeat (not when scoring); the save. */
    static method Record(ops: JobOps, ck: Checkpoint, beat: bool) returns (ok: bool)
      requires ops.Valid() && ops.Settled() && MayWork(Progress(ops.seen, false), Frontier(ops.seen))
      requires ops.commits(Frontier(ops.seen))
      requires MaySave(Progress(ops.seen, true), ck)
      modifies ops`seen, ops`statements, ops`trace, ops`events, ops`beats, ops`stored, ops.db
      ensures ops.Valid() && (ops.Held() ==> old(ops.Held()))
      ensures ok ==> ops.Settled() && ops.seen == ck
      ensures !ok ==> !ops.Held()
      ensures ops.beats == old(ops.beats) + (if beat then 1 else 0)
      ensures ops.KeepsCalm() && (old(ops.Calm()) ==> ok)
    {
      ops.Did(Frontier(ops.seen));
      if beat {
        var _ := ops.Heartbeat();
      }
      ok := ops.Checkpoint(ck, None);
    }

    /** The save at the end of a phase: the next phase with its index at 0. The local copy that is handed
        over gets no such index; it reads as 0 anyway. */
    static method HandOver(ops: JobOps, ck0: Checkpoint, next: Stage, state: Phase, outside: Outside)
      returns (exit: Exit, ck: Checkpoint)
      requires InStep(ops, ck0, ck0.stage) && Loops(ck0.stage) && IndexIn(ck0, ck0.stage) == Limit(ck0)
      requires Moved(ck0).stage == next && state != Cancelling
      modifies ops`seen, ops`statements, ops`trace, ops`events, ops`stored, ops.db
      ensures Ends(ops, outside, exit, ck, next, false) && (exit.Going? || exit.Gone?)
      ensures exit.Going? ==> ck == ck0.(stage := next) && ops.db.jobs[ops.id].state == state
    {
      ReplayIsWellPlaced(ops.given, ops.events);
      var ok := ops.Checkpoint(Moved(ck0), Some(state));
      exit, ck := if ok then Going else Gone, ck0.(stage := next);
    }

    /** One query: look for a cancellation, search and ingest, record. */
    static method Search(ops: JobOps, ck0: Checkpoint, outside: Outside, ghost before: seq<nat>, ghost from: nat)
      returns (exit: Exit, ck: Checkpoint, ghost lasted: bool)
      requires InStep(ops, ck0, InDiscovery) && Heeds(ops, outside) && from <= ck0.queryIndex < ck0.queries
      requires Gathered(outside, before, from, ck0.queryIndex, ck0.companies)
      modifies ops, ops.db
      ensures Ends(ops, outside, exit, ck, InDiscovery, lasted) && !exit.Waiting?
      ensures exit.Going? ==>
                && ck == ck0.(queryIndex := ck0.queryIndex + 1, companies := ck.companies)
                && Gathered(outside, before, from, ck.queryIndex, ck.companies)
                && ops.beats == old(ops.beats) + 1 && ops.checks == old(ops.checks) + 1
      ensures exit.Stopped? ==> ops.seen.stage == InDiscovery
      ensures exit.Raised? ==> ck == ck0 && !Commits(outside, Frontier(ck0))
      ensures old(ops.Calm()) ==> (exit.Stopped? <==> old(ops.db.jobs[ops.id].cancelRequested))
    {
      ck := ck0;
      var asked;
      asked, lasted := ops.Cancel();
      if asked {
        return Stopped, ck.(stage := InCancelling), lasted;
      }
      var found := outside.search(ck.queryIndex);
      if found.None? {
        return Raised, ck, false;
      }
      var companies := Gather(outside, before, from, ck.queryIndex, ck.companies);
      ck := ck.(queryIndex := ck.queryIndex + 1, companies := companies);
      var ok := Record(ops, ck, true);
      exit := if ok then Going else Gone;
    }

    /** The queries from where the checkpoint stands. */
    static method SearchAll(ops: JobOps, ck0: Checkpoint, outside: Outside)
      returns (exit: Exit, ck: Checkpoint, ghost lasted: bool)
      requires InStep(ops, ck0, InDiscovery) && Heeds(ops, outside)
      modifies ops, ops.db
      ensures Ends(ops, outside, exit, ck, InDiscovery, lasted) && !exit.Waiting?
      ensures exit.Going? ==>
                && ck == ck0.(queryIndex := ck0.queries, companies := ck.companies) && ck0.queryIndex <= ck0.queries
                && Gathered(outside, ck0.companies, ck0.queryIndex, ck0.queries, ck.companies)
                && ops.beats - old(ops.beats) == ops.checks - old(ops.checks) == ck0.queries - ck0.queryIndex
      ensures exit.Stopped? ==> ops.seen.stage == InDiscovery
      ensures exit.Going? ==> AllCommit(outside, InDiscovery, ck0.queryIndex, ck0.queries)
      ensures exit.Raised? ==>
                && ck.stage == InDiscovery && ck0.queryIndex <= ck.queryIndex < ck0.queries
                && !Commits(outside, Frontier(ck))
      ensures old(ops.Calm()) ==>
                (exit.Stopped? <==> old(ops.db.jobs[ops.id].cancelRequested) && ck0.queryIndex < ck0.queries)
    {
      exit, ck, lasted := Going, ck0, false;
      ghost var before := ops.events;
      ReplayIsWellPlaced(ops.given, ops.events);
      while ck.queryIndex < ck.queries
        invariant exit.Going? && !lasted && InStep(ops, ck, InDiscovery) && (ops.Held() ==> old(ops.Held()))
        invariant ck == ck0.(queryIndex := ck.queryIndex, companies := ck.companies)
        invariant ck0.queryIndex <= ck.queryIndex <= ck0.queries
        invariant Gathered(outside, ck0.companies, ck0.queryIndex, ck.queryIndex, ck.companies)
        invariant ops.beats - old(ops.beats) == ops.checks - old(ops.checks) == ck.queryIndex - ck0.queryIndex
        invariant ops.KeepsCalm() && ops.request == old(ops.request)
        invariant old(ops.Calm()) && old(ops.db.jobs[ops.id].cancelRequested) ==> ck.queryIndex == ck0.queryIndex
        decreases ck0.queries - ck.queryIndex
      {
        exit, ck, lasted := Search(ops, ck, outside, ck0.companies, ck0.queryIndex);
        if !exit.Going? {
          return;
        }
      }
      RecordedCommits(ops, before, outside, InDiscovery, ck0.queryIndex, ck0.queries);
    }

    static method Discover(ops: JobOps, ck0: Checkpoint, outside: Outside)
      returns (exit: Exit, ck: Checkpoint, ghost lasted: bool)
      requires InStep(ops, ck0, InDiscovery) && Heeds(ops, outside)
      modifies ops, ops.db
      ensures Ends(ops, outside, exit, ck, InEnrichment, lasted) && !exit.Waiting?
      ensures exit.Going? ==>
                && ck == ck0.(stage := InEnrichment, queryIndex := ck0.queries, companies := ck.companies)
                && Gathered(outside, ck0.companies, ck0.queryIndex, ck0.queries, ck.companies)
                && ops.beats - old(ops.beats) == ops.checks - old(ops.checks) == ck0.queries - ck0.queryIndex
                && ops.db.jobs[ops.id].state == Enriching
      ensures exit.Stopped? ==> ops.seen.stage == InDiscovery
      ensures exit.Going? ==> AllCommit(outside, InDiscovery, ck0.queryIndex, ck0.queries)
      ensures exit.Raised? ==> !AllCommit(outside, InDiscovery, ck0.queryIndex, ck0.queries)
      ensures old(ops.Calm()) ==>
                (exit.Stopped? <==> old(ops.db.jobs[ops.id].cancelRequested) && ck0.queryIndex < ck0.queries)
      ensures old(ops.Calm()) && !exit.Stopped? ==>
                (exit.Raised? <==> !AllCommit(outside, InDiscovery, ck0.queryIndex, ck0.queries))
    {
      exit, ck, lasted := SearchAll(ops, ck0, outside);
      if exit.Raised? {
        OneRaises(outside, InDiscovery, ck0.queryIndex, ck.queryIndex, ck0.queries);
      }
      if exit.Going? {
        exit, ck := HandOver(ops, ck, InEnrichment, Enriching, outside);
      }
    }

    static function WithIndex(ck: Checkpoint, i: nat): Checkpoint {
      match ck.stage
      case InEnrichment => ck.(enrichIndex := i)
      case InVerification => ck.(verifyIndex := i)
      case InScoring => ck.(scoreIndex := i)
      case _ => ck
    }

    static lemma IndexIsSet(ck: Checkpoint)
      requires ck.stage in {InEnrichment, InVerification, InScoring}
      ensures WithIndex(ck, IndexIn(ck, ck.stage)) == ck
      ensures forall i: nat :: WithIndex(ck, i).stage == ck.stage && WithIndex(ck, i).companies == ck.companies
                               && IndexIn(WithIndex(ck, i), ck.stage) == i
      ensures forall i: nat, j: nat :: WithIndex(WithIndex(ck, i), j) == WithIndex(ck, j)
    {
    }

    /** One company. `looks`: the turn begins by looking for a cancellation and ends with a heartbeat. */
    static method Company(ops: JobOps, ck0: Checkpoint, looks: bool, outside: Outside)
      returns (exit: Exit, ck: Checkpoint, ghost lasted: bool)
      requires InStep(ops, ck0, ck0.stage) && ck0.stage in {InEnrichment, InVerification, InScoring}
      requires Heeds(ops, outside) && IndexIn(ck0, ck0.stage) < |ck0.companies|
      modifies ops, ops.db
      ensures Ends(ops, outside, exit, ck, ck0.stage, lasted) && !exit.Waiting?
      ensures exit.Going? ==>
                && ck == WithIndex(ck0, IndexIn(ck0, ck0.stage) + 1)
                && ops.beats == old(ops.beats) + (if looks then 1 else 0)
                && ops.checks == old(ops.checks) + (if looks then 1 else 0)
      ensures exit.Stopped? ==> looks && ops.seen.stage == ck0.stage
      ensures exit.Raised? ==> ck == ck0 && !Commits(outside, Frontier(ck0))
      ensures old(ops.Calm()) && looks ==> (exit.Stopped? <==> old(ops.db.jobs[ops.id].cancelRequested))
    {
      ck, lasted := ck0, false;
      if looks {
        var asked;
        asked, lasted := ops.Cancel();
        if asked {
          return Stopped, ck.(stage := InCancelling), lasted;
        }
      }
      var index := IndexIn(ck, ck.stage);
      if !outside.commits(Unit(ck.stage, index)) {
        return Raised, ck, false;
      }
      ck := WithIndex(ck, index + 1);
      var ok := Record(ops, ck, looks);
      exit := if ok then Going else Gone;
    }

    /** The loop that enriching, verifying and scoring have in common: one company a turn from where the
        checkpoint stands. */
    static method EachCompany(ops: JobOps, ck0: Checkpoint, looks: bool, outside: Outside)
      returns (exit: Exit, ck: Checkpoint, ghost lasted: bool)
      requires InStep(ops, ck0, ck0.stage) && ck0.stage in {InEnrichment, InVerification, InScoring}
      requires Heeds(ops, outside)
      modifies ops, ops.db
      ensures Ends(ops, outside, exit, ck, ck0.stage, lasted) && !exit.Waiting?
      ensures exit.Going? ==>
                && ck == WithIndex(ck0, |ck0.companies|) && IndexIn(ck0, ck0.stage) <= |ck0.companies|
                && ops.beats - old(ops.beats) == ops.checks - old(ops.checks)
                   == (if looks then |ck0.companies| - IndexIn(ck0, ck0.stage) else 0)
      ensures exit.Stopped? ==> looks && ops.seen.stage == ck0.stage
      ensures exit.Going? ==> AllCommit(outside, ck0.stage, IndexIn(ck0, ck0.stage), |ck0.companies|)
      ensures exit.Raised? ==>
                && ck.stage == ck0.stage && IndexIn(ck0, ck0.stage) <= IndexIn(ck, ck0.stage) < |ck0.companies|
                && !Commits(outside, Frontier(ck))
      ensures old(ops.Calm()) && looks ==>
                (exit.Stopped? <==>
                   old(ops.db.jobs[ops.id].cancelRequested) && IndexIn(ck0, ck0.stage) < |ck0.companies|)
    {
      exit, ck, lasted := Going, ck0, false;
      var companies, index := ck.companies, IndexIn(ck, ck.stage);
      ghost var before := ops.events;
      IndexIsSet(ck0);
      ReplayIsWellPlaced(ops.given, ops.events);
      while index < |companies|
        invariant exit.Going? && !lasted && InStep(ops, ck, ck0.stage) && (ops.Held() ==> old(ops.Held()))
        invariant IndexIn(ck0, ck0.stage) <= index <= |companies| && ck == WithIndex(ck0, index)
        invariant ops.beats - old(ops.beats) == ops.checks - old(ops.checks)
                  == (if looks then index - IndexIn(ck0, ck0.stage) else 0)
        invariant ops.KeepsCalm() && ops.request == old(ops.request)
        invariant old(ops.Calm()) && looks && old(ops.db.jobs[ops.id].cancelRequested) ==>
                    index == IndexIn(ck0, ck0.stage)
      {
        exit, ck, lasted := Company(ops, ck, looks, outside);
        if !exit.Going? {
          return;
        }
        index := index + 1;
      }
      RecordedCommits(ops, before, outside, ck0.stage, IndexIn(ck0, ck0.stage), |companies|);
    }

    static method Enrich(ops: JobOps, ck0: Checkpoint, outside: Outside)
      returns (exit: Exit, ck: Checkpoint, ghost lasted: bool)
      requires InStep(ops, ck0, InEnrichment) && Heeds(ops, outside)
      modifies ops, ops.db
      ensures Ends(ops, outside, exit, ck, InVerification, lasted) && !exit.Waiting?
      ensures exit.Going? ==>
                && ck == ck0.(stage := InVerification, enrichIndex := |ck0.companies|)
                && ops.beats - old(ops.beats) == ops.checks - old(ops.checks) == |ck0.companies| - ck0.enrichIndex
                && ops.db.jobs[ops.id].state == Verifying
      ensures exit.Stopped? ==> ops.seen.stage == InEnrichment
      ensures exit.Going? ==> AllCommit(outside, InEnrichment, ck0.enrichIndex, |ck0.companies|)
      ensures exit.Raised? ==> !AllCommit(outside, InEnrichment, ck0.enrichIndex, |ck0.companies|)
      ensures old(ops.Calm()) && !exit.Stopped? ==>
                (exit.Raised? <==> !AllCommit(outside, InEnrichment, ck0.enrichIndex, |ck0.companies|))
      ensures old(ops.Calm()) ==>
                (exit.Stopped? <==> old(ops.db.jobs[ops.id].cancelRequested) && ck0.enrichIndex < |ck0.companies|)
    {
      exit, ck, lasted := EachCompany(ops, ck0, true, outside);
      if exit.Raised? {
        OneRaises(outside, InEnrichment, ck0.enrichIndex, ck.enrichIndex, |ck0.companies|);
      }
      if exit.Going? {
        exit, ck := HandOver(ops, ck, InVerification, Verifying, outside);
      }
    }

    static method Verify(ops: JobOps, ck0: Checkpoint, outside: Outside)
      returns (exit: Exit, ck: Checkpoint, ghost lasted: bool)
      requires InStep(ops, ck0, InVerification) && Heeds(ops, outside)
      modifies ops, ops.db
      ensures Ends(ops, outside, exit, ck, InScoring, lasted) && !exit.Waiting?
      ensures exit.Going? ==>
                && ck == ck0.(stage := InScoring, verifyIndex := |ck0.companies|)
                && ops.beats - old(ops.beats) == ops.checks - old(ops.checks) == |ck0.companies| - ck0.verifyIndex
                && ops.db.jobs[ops.id].state == Scoring
      ensures exit.Stopped? ==> ops.seen.stage == InVerification
      ensures exit.Going? ==> AllCommit(outside, InVerification, ck0.verifyIndex, |ck0.companies|)
      ensures exit.Raised? ==> !AllCommit(outside, InVerification, ck0.verifyIndex, |ck0.companies|)
      ensures old(ops.Calm()) && !exit.Stopped? ==>
                (exit.Raised? <==> !AllCommit(outside, InVerification, ck0.verifyIndex, |ck0.companies|))
      ensures old(ops.Calm()) ==>
                (exit.Stopped? <==> old(ops.db.jobs[ops.id].cancelRequested) && ck0.verifyIndex < |ck0.companies|)
    {
      exit, ck, lasted := EachCompany(ops, ck0, true, outside);
      if exit.Raised? {
        OneRaises(outside, InVerification, ck0.verifyIndex, ck.verifyIndex, |ck0.companies|);
      }
      if exit.Going? {
        exit, ck := HandOver(ops, ck, InScoring, Scoring, outside);
      }
    }

    /** Unlike the phases before it, scoring neither looks for a cancellation nor renews the lease. */
    static method Score(ops: JobOps, ck0: Checkpoint, outside: Outside) returns (exit: Exit, ck: Checkpoint)
      requires InStep(ops, ck0, InScoring) && Heeds(ops, outside)
      modifies ops, ops.db
      ensures Ends(ops, outside, exit, ck, InQualification, false) && !exit.Waiting? && !exit.Stopped?
      ensures exit.Going? ==>
                && ck == ck0.(stage := InQualification, scoreIndex := |ck0.companies|)
                && ops.beats == old(ops.beats) && ops.checks == old(ops.checks)
                && ops.db.jobs[ops.id].state == Qualifying
      ensures exit.Going? ==> AllCommit(outside, InScoring, ck0.scoreIndex, |ck0.companies|)
      ensures exit.Raised? ==> !AllCommit(outside, InScoring, ck0.scoreIndex, |ck0.companies|)
      ensures old(ops.Calm()) ==> (exit.Raised? <==> !AllCommit(outside, InScoring, ck0.scoreIndex, |ck0.companies|))
    {
      ghost var lasted;
      exit, ck, lasted := EachCompany(ops, ck0, false, outside);
      if exit.Raised? {
        OneRaises(outside, InScoring, ck0.scoreIndex, ck.scoreIndex, |ck0.companies|);
      }
      if exit.Going? {
        exit, ck := HandOver(ops, ck, InQualification, Qualifying, outside);
      }
    }

    static predicate ManusRaises(outside: Outside) {
      || outside.manus.NotReady? || outside.manus.Exhausted?
      || (outside.manus.Polled? && outside.manus.verified != [] && !outside.manus.stored)
    }

    /** What Manus has answered with in this turn. */
    static function Answered(outside: Outside): seq<Option<nat>> {
      if outside.manus.Polled? then outside.manus.verified else []
    }

    /** The saves made since. */
    static twostate function SavesMade(ops: JobOps): int
      reads ops
    {
      |ops.events| - |old(ops.events)|
    }

    /** Since then there were saves only, of what the row holds after so many saves of the turn. */
    static twostate predicate SavesInTurn(ops: JobOps, before: Checkpoint, verified: seq<Option<nat>>, done: nat)
      reads ops
    {
      && old(ops.events) <= ops.events
      && forall k | |old(ops.events)| <= k < |ops.events| ::
           && ops.events[k].Saved?
           && Turned(before, verified, done + k + 1 - |old(ops.events)|, ops.events[k].checkpoint)
    }

    /** `run_stage`: the engine's state is saved before anything else, and again with the tasks it
        collected before their companies are ingested; if its tasks are not finished the job is parked,
        unless a cancellation was asked for. Wherever it ends or dies, the row holds what the saves so far
        make of it, and a unit of work that raises leaves the answers collected and not ingested. */
    static method RunStage(ops: JobOps, ck0: Checkpoint, outside: Outside) returns (exit: Exit, ck: Checkpoint)
      requires InStep(ops, ck0, InManus)
      modifies ops, ops.db
      ensures Ends(ops, outside, exit, ck, InManus, false) && !exit.Stopped?
      ensures exit.Raised? ==> ManusRaises(outside)
      ensures exit.Going? || exit.Waiting? ==> !ManusRaises(outside)
      ensures old(ops.Calm()) ==> (exit.Raised? <==> ManusRaises(outside))
      ensures old(ops.Calm()) && old(ops.db.jobs[ops.id].cancelRequested) ==> exit.Going? || exit.Raised?
      ensures exit.Going? ==> outside.manus.Polled? && Ingested(ck0, outside.manus.verified, ck)
      ensures exit.Going? && !outside.manus.finished ==> ops.db.jobs[ops.id].cancelRequested
      ensures SavesInTurn(ops, ck0, Answered(outside), 0)
      ensures Turned(ck0, Answered(outside), SavesMade(ops), ops.seen)
      ensures exit.Raised? && outside.manus.Polled? ==> SavesMade(ops) == 2 && outside.manus.verified != []
      ensures exit.Going? || exit.Waiting? ==> SavesMade(ops) == if Answered(outside) == [] then 2 else 3
    {
      ck := ck0;
      if outside.manus.NotReady? {
        return Raised, ck;
      }
      var ok := ops.Checkpoint(ck, None);
      if !ok {
        return Gone, ck;
      }
      if outside.manus.Exhausted? {
        return Raised, ck;
      }
      exit, ck := Poll(ops, ck, outside);
    }

    /** The unit of work that ingests what was answered, if anything was. */
    static method Ingest(ops: JobOps, ghost before: Checkpoint, ck0: Checkpoint, outside: Outside)
      returns (exit: Exit, ck: Checkpoint)
      requires InStep(ops, ck0, InManus) && outside.manus.Polled?
      requires Turned(before, outside.manus.verified, 2, ck0)
      modifies ops, ops.db
      ensures Ends(ops, outside, exit, ck, InManus, false) && (exit.Going? || exit.Gone? || exit.Raised?)
      ensures exit.Going? ==> Ingested(before, outside.manus.verified, ck)
      ensures SavesInTurn(ops, before, outside.manus.verified, 2)
      ensures Turned(before, outside.manus.verified, SavesMade(ops) + 2, ops.seen)
      ensures exit.Raised? ==> SavesMade(ops) == 0 && ManusRaises(outside)
      ensures exit.Going? ==> !ManusRaises(outside)
      ensures exit.Going? ==> SavesMade(ops) == if outside.manus.verified == [] then 0 else 1
    {
      ck := ck0;
      if outside.manus.verified == [] {
        return Going, ck;
      }
      if !outside.manus.stored {
        return Raised, ck;
      }
      var companies := AddNew(ck.companies, outside.manus.verified);
      ck := ck.(companies := companies);
      var ok := ops.Checkpoint(ck, None);
      exit := if ok then Going else Gone;
    }

    /** From `poll` on. */
    static method Poll(ops: JobOps, ck0: Checkpoint, outside: Outside) returns (exit: Exit, ck: Checkpoint)
      requires InStep(ops, ck0, InManus) && outside.manus.Polled?
      modifies ops, ops.db
      ensures Ends(ops, outside, exit, ck, InManus, false) && !exit.Stopped?
      ensures exit.Raised? ==> ManusRaises(outside)
      ensures exit.Going? || exit.Waiting? ==> !ManusRaises(outside)
      ensures old(ops.Calm()) && old(ops.db.jobs[ops.id].cancelRequested) ==> exit.Going? || exit.Raised?
      ensures exit.Going? ==> Ingested(ck0, outside.manus.verified, ck)
      ensures exit.Going? && !outside.manus.finished ==> ops.db.jobs[ops.id].cancelRequested
      ensures SavesInTurn(ops, ck0, outside.manus.verified, 1)
      ensures Turned(ck0, outside.manus.verified, SavesMade(ops) + 1, ops.seen)
      ensures exit.Raised? ==> SavesMade(ops) == 1 && outside.manus.verified != []
      ensures exit.Going? || exit.Waiting? ==> SavesMade(ops) == if outside.manus.verified == [] then 1 else 2
    {
      ck := ck0.(answers := ck0.answers + outside.manus.verified);
      var ok := ops.Checkpoint(ck, None);
      if !ok {
        return Gone, ck;
      }
      exit, ck := Ingest(ops, ck0, ck, outside);
      if exit.Going? {
        exit := Await(ops, ck, outside);
      }
    }

    /** The end of the stage: on, if the tasks are finished or a cancellation was asked for. */
    static method Await(ops: JobOps, ghost ck: Checkpoint, outside: Outside) returns (exit: Exit)
      requires InStep(ops, ck, InManus) && outside.manus.Polled?
      modifies ops`seen, ops`statements, ops`trace, ops`stored, ops.db
      ensures Ends(ops, outside, exit, ck, InManus, false) && (exit.Going? || exit.Gone? || exit.Waiting?)
      ensures ops.seen == old(ops.seen)
      ensures outside.manus.finished ==> exit.Going?
      ensures old(ops.Calm()) && old(ops.db.jobs[ops.id].cancelRequested) ==> exit.Going?
      ensures exit.Going? && !outside.manus.finished ==> ops.db.jobs[ops.id].cancelRequested
    {
      if outside.manus.finished {
        return Going;
      }
      var asked := ops.CancelRequested();
      if asked {
        return Going;
      }
      var ok := ops.Park("waiting on manus");
      exit := if ok then Waiting else Gone;
    }

    /** The MANUS branch of `__call__`. */
    static method Manus(ops: JobOps, ck0: Checkpoint, outside: Outside)
      returns (exit: Exit, ck: Checkpoint, ghost lasted: bool)
      requires InStep(ops, ck0, InManus)
      modifies ops, ops.db
      ensures Ends(ops, outside, exit, ck, InEnrichment, lasted)
      ensures exit.Going? ==>
                && outside.manus.Polled? && outside.manus.finished
                && Ingested(ck0, outside.manus.verified, ck.(stage := InManus))
                && ops.db.jobs[ops.id].state == Enriching
      ensures exit.Stopped? ==> ops.seen.stage == InManus
      ensures exit.Raised? ==> ManusRaises(outside)
      ensures exit.Going? || exit.Waiting? || exit.Stopped? ==> !ManusRaises(outside)
      ensures old(ops.Calm()) ==> (exit.Raised? <==> ManusRaises(outside))
      ensures old(ops.Calm()) && old(ops.db.jobs[ops.id].cancelRequested) ==> exit.Stopped? || exit.Raised?
      ensures old(ops.Calm()) && !old(ops.db.jobs[ops.id].cancelRequested) ==> !exit.Stopped?
    {
      lasted := false;
      exit, ck := RunStage(ops, ck0, outside);
      if exit.Going? {
        exit, ck, lasted := LeaveManus(ops, ck, outside);
      }
    }

    /** What follows a stage that did not park: CANCELLED on the spot, or on to ENRICHING. */
    static method LeaveManus(ops: JobOps, ck0: Checkpoint, outside: Outside)
      returns (exit: Exit, ck: Checkpoint, ghost lasted: bool)
      requires InStep(ops, ck0, InManus)
      modifies ops, ops.db
      ensures Ends(ops, outside, exit, ck, InEnrichment, lasted) && (exit.Going? || exit.Gone? || exit.Stopped?)
      ensures old(ops.db.jobs[ops.id].cancelRequested) ==> exit.Stopped?
      ensures exit.Going? ==> ck == ck0.(stage := InEnrichment) && ops.db.jobs[ops.id].state == Enriching
      ensures exit.Stopped? ==> ops.seen.stage == InManus
      ensures old(ops.Calm()) && !old(ops.db.jobs[ops.id].cancelRequested) ==> !exit.Stopped?
    {
      ck, lasted := ck0, false;
      var asked := ops.CancelRequested();
      if asked {
        asked, lasted := ops.Cancel();
        return Stopped, ck.(stage := InCancelling), lasted;
      }
      ReplayIsWellPlaced(ops.given, ops.events);
      ck := ck.(stage := InEnrichment, enrichIndex := 0);
      var ok := ops.Checkpoint(ck, Some(Enriching));
      exit := if ok then Going else Gone;
    }

    /** A handler that starts from `ck` comes to a place where it looks for a cancellation. */
    static predicate WillLook(ck: Checkpoint, outside: Outside) {
      match ck.stage
      case InPlanning => outside.plan.Planned? && (outside.plan.manus || outside.plan.queries > 0)
      case InManus => true
      case InDiscovery => ck.queryIndex < ck.queries || ck.companies != []
      case InEnrichment => ck.companies != []
      case InVerification => ck.verifyIndex < |ck.companies|
      case _ => false
    }

    /** The phases in order, each entered if the one before handed over to it. */
    static method Phases(ops: JobOps, outside: Outside) returns (exit: Exit, ck: Checkpoint, ghost lasted: bool)
      requires ops.Valid() && ops.Settled() && ops.Held() && Heeds(ops, outside)
      modifies ops, ops.db
      ensures Ends(ops, outside, exit, ck, InQualification, lasted)
      ensures old(ops.Calm()) ==>
                && (exit.Stopped? ==> old(ops.db.jobs[ops.id].cancelRequested) && WillLook(old(ops.seen), outside))
                && (old(ops.db.jobs[ops.id].cancelRequested) && WillLook(old(ops.seen), outside) ==>
                      exit.Stopped? || exit.Raised?)
                && (old(ops.db.jobs[ops.id].cancelRequested) ==> !exit.Waiting?)
      ensures exit.Raised? && old(ops.Calm()) && old(ops.db.jobs[ops.id].cancelRequested)
              && WillLook(old(ops.seen), outside) ==>
                ManusRaises(outside)
    {
      exit, ck, lasted := Going, ops.seen, false;
      ReplayIsWellPlaced(ops.given, ops.events);
      if ck.stage == InPlanning {
        exit, ck := Plan(ops, outside);
      }
      if exit.Going? && ck.stage == InManus {
        exit, ck, lasted := Manus(ops, ck, outside);
      }
      if exit.Going? {
        exit, ck, lasted := Rest(ops, ck, outside);
      }
    }

    /** From discovery, or wherever the checkpoint stands after it, to qualification. */
    static method Rest(ops: JobOps, ck0: Checkpoint, outside: Outside)
      returns (exit: Exit, ck: Checkpoint, ghost lasted: bool)
      requires InStep(ops, ck0, ck0.stage) && Heeds(ops, outside) && ck0.stage !in {InPlanning, InManus}
      requires ck0.stage == InQualification ==> ops.Held()
      modifies ops, ops.db
      ensures Ends(ops, outside, exit, ck, InQualification, lasted) && !exit.Waiting?
      ensures exit.Stopped? ==> ops.seen.stage != InManus
      ensures old(ops.Calm()) ==>
                (exit.Stopped? <==> old(ops.db.jobs[ops.id].cancelRequested) && WillLook(ck0, outside))
    {
      exit, ck, lasted := Going, ck0, false;
      if ck.stage == InDiscovery {
        exit, ck, lasted := Discover(ops, ck, outside);
        assert ck0.queryIndex >= ck0.queries && exit.Going? && ck.companies != [] ==> ck.companies[0] in ck0.companies;
      }
      if exit.Going? {
        exit, ck, lasted := Companies(ops, ck, outside);
      }
    }

    static method Companies(ops: JobOps, ck0: Checkpoint, outside: Outside)
      returns (exit: Exit, ck: Checkpoint, ghost lasted: bool)
      requires InStep(ops, ck0, ck0.stage) && Heeds(ops, outside) && ck0.stage !in {InPlanning, InManus, InDiscovery}
      requires ck0.stage == InQualification ==> ops.Held()
      modifies ops, ops.db
      ensures Ends(ops, outside, exit, ck, InQualification, lasted) && !exit.Waiting?
      ensures exit.Stopped? ==> ops.seen.stage != InManus
      ensures old(ops.Calm()) ==>
                (exit.Stopped? <==> old(ops.db.jobs[ops.id].cancelRequested) && WillLook(ck0, outside))
    {
      exit, ck, lasted := Going, ck0, false;
      ReplayIsWellPlaced(ops.given, ops.events);
      if ck.stage == InEnrichment {
        exit, ck, lasted := Enrich(ops, ck, outside);
      }
      if exit.Going? && ck.stage == InVerification {
        exit, ck, lasted := Verify(ops, ck, outside);
      }
      if exit.Going? && ck.stage == InScoring {
        exit, ck := Score(ops, ck, outside);
      }
    }

    /** `__call__`. A handler that saw a cancellation request in a loop falls through to the same two
        outcomes as one that went all the way, and closes the campaign on the way (`closed`); by then it
        holds no lease. As long as nobody else does anything, a request is carried out exactly if the
        handler still comes to a place where it looks for one; without a request it returns with its
        lease, unless it parked the job or something outside raised. */
    static method Handle(ops: JobOps, outside: Outside) returns (r: Result, closed: bool, ghost lasted: bool)
      requires ops.Valid() && ops.Settled() && ops.Held() && Heeds(ops, outside) && ops.request == None
      modifies ops, ops.db
      ensures ops.Valid()
      ensures lasted <==> ops.CarriedOut()
      ensures ops.request.Some? ==> ops.SawRequest() && !ops.Held() && (r.Returned? || r.Failed?)
      ensures r.Parked? ==> !ops.Held() && outside.manus.Polled? && !outside.manus.finished && IsParked(ops)
      ensures r.LostLease? ==> !ops.Held()
      ensures r.Failed? ==> Raises(outside) || outside.qualify.Some? || !outside.closes
      ensures r.Returned? && ops.Held() ==>
                && ops.Settled() && ops.seen.stage == InQualification && outside.qualify.None?
      ensures r == Returned(ReadyForReview) ==> outside.closes
      ensures r.Returned? && !ops.Held() ==> ops.db.jobs[ops.id].cancelRequested
      ensures r.Returned? ==>
                if r.outcome == Cancelled then !ops.Held() && ops.seen.stage == InManus
                else r.outcome == if ops.seen.companies == [] then PartialSuccess else ReadyForReview
      ensures closed <==> r == Returned(ReadyForReview)
      ensures lasted ==> !ops.Held() && ops.db.jobs[ops.id].state == Cancelled && (r.Returned? || r.Failed?)
      ensures lasted ==> (closed <==> ops.seen.stage != InManus && ops.seen.companies != [] && outside.closes)
      ensures old(ops.Calm()) ==>
                if old(ops.db.jobs[ops.id].cancelRequested) then
                  && (lasted ==> WillLook(old(ops.seen), outside))
                  && (WillLook(old(ops.seen), outside) && !ManusRaises(outside) ==> lasted)
                  && (!lasted ==> (r.Failed? || r.Returned?) && ops.Held() && ops.Calm())
                else !lasted && (r.Parked? || ((r.Failed? || r.Returned?) && ops.Calm()))
    {
      var exit, ck;
      closed := false;
      exit, ck, lasted := Phases(ops, outside);
      match exit {
        case Gone => return LostLease, false, lasted;
        case Waiting => return Parked, false, lasted;
        case Raised => return Result.Failed, false, lasted;
        case Going =>
          if outside.qualify.Some? {
            return Result.Failed, false, lasted;
          }
          ck := ck.(stage := Finished);
        case Stopped =>
          if ops.seen.stage == InManus {
            return Returned(Cancelled), false, lasted;
          }
      }
      if ck.companies == [] {
        return Returned(PartialSuccess), false, lasted;
      }
      if !outside.closes {
        return Result.Failed, false, lasted;
      }
      r, closed := Returned(ReadyForReview), true;
    }
  }
}
