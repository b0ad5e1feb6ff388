/** What one attempt of the acquisition pipeline does to its checkpoint, unit by unit, and what the
    attempts of one job add up to, whoever runs them and wherever they die. */
module Pipeline {
  import opened Common
  import opened Checkpoints
  import opened Leasing
  import opened LeasingRuns
  import opened Ownership

  /** One query searched, or one company enriched, verified or scored. */
  datatype Unit = Unit(stage: Stage, index: nat)

  /** What an attempt did, in order: a unit of work, or a save that the fence accepted. */
  datatype Event = Worked(unit: Unit) | Saved(checkpoint: Checkpoint)

  /** `pending`: the next unit has been worked but not yet recorded. */
  datatype Progress = Progress(ck: Checkpoint, pending: bool)

  function IndexIn(ck: Checkpoint, s: Stage): nat {
    match s
    case InDiscovery => ck.queryIndex
    case InEnrichment => ck.enrichIndex
    case InVerification => ck.verifyIndex
    case InScoring => ck.scoreIndex
    case _ => 0
  }

  predicate Loops(s: Stage) {
    s in {InDiscovery, InEnrichment, InVerification, InScoring}
  }

  function Limit(ck: Checkpoint): nat {
    if ck.stage == InDiscovery then ck.queries else if Loops(ck.stage) then |ck.companies| else 0
  }

  /** The checkpoint records this unit as done. */
  predicate Recorded(u: Unit, ck: Checkpoint) {
    u.index < IndexIn(ck, u.stage)
  }

  function Frontier(ck: Checkpoint): Unit {
    Unit(ck.stage, IndexIn(ck, ck.stage))
  }

  /** {**ck, "<phase>_index": index + 1}. */
  function Advanced(ck: Checkpoint): Checkpoint {
    match ck.stage
    case InDiscovery => ck.(queryIndex := ck.queryIndex + 1)
    case InEnrichment => ck.(enrichIndex := ck.enrichIndex + 1)
    case InVerification => ck.(verifyIndex := ck.verifyIndex + 1)
    case InScoring => ck.(scoreIndex := ck.scoreIndex + 1)
    case _ => ck
  }

  /** {**ck, "phase": <next>, "<next>_index": 0}. */
  function Moved(ck: Checkpoint): Checkpoint {
    match ck.stage
    case InManus => ck.(stage := InEnrichment, enrichIndex := 0)
    case InDiscovery => ck.(stage := InEnrichment, enrichIndex := 0)
    case InEnrichment => ck.(stage := InVerification, verifyIndex := 0)
    case InVerification => ck.(stage := InScoring, scoreIndex := 0)
    case InScoring => ck.(stage := InQualification)
    case _ => ck
  }

  /** The stored checkpoints: indices of stages to come are 0, those of stages gone are complete. */
  predicate Sound(ck: Checkpoint) {
    var n := |ck.companies|;
    match ck.stage
    case InPlanning => ck == EMPTY
    case InManus => ck.queryIndex == ck.enrichIndex == ck.verifyIndex == ck.scoreIndex == 0
    case InDiscovery => ck.queryIndex <= ck.queries && ck.enrichIndex == ck.verifyIndex == ck.scoreIndex == 0
    case InEnrichment =>
      ck.queryIndex in {0, ck.queries} && ck.enrichIndex <= n && ck.verifyIndex == ck.scoreIndex == 0
    case InVerification =>
      ck.queryIndex in {0, ck.queries} && ck.enrichIndex == n && ck.verifyIndex <= n && ck.scoreIndex == 0
    case InScoring => ck.queryIndex in {0, ck.queries} && ck.enrichIndex == ck.verifyIndex == n && ck.scoreIndex <= n
    case InQualification =>
      ck.queryIndex in {0, ck.queries} && ck.enrichIndex == ck.verifyIndex == ck.scoreIndex == n
    case _ => false
  }

  /** The saves a pipeline attempt may make. */
  predicate MaySave(p: Progress, ck: Checkpoint) {
    match p.ck.stage
    case InPlanning =>
      ck.stage in {InManus, InDiscovery} && ck == EMPTY.(stage := ck.stage, queries := ck.queries)
    case InManus =>
      || ck == Moved(p.ck)
      || (ck == p.ck.(companies := ck.companies, answers := ck.answers)
          && p.ck.companies <= ck.companies && p.ck.answers <= ck.answers)
    case InDiscovery =>
      if p.pending then ck == Advanced(p.ck).(companies := ck.companies) && p.ck.companies <= ck.companies
      else p.ck.queryIndex == p.ck.queries && ck == Moved(p.ck)
    case _ =>
      Loops(p.ck.stage) &&
      if p.pending then ck == Advanced(p.ck) else IndexIn(p.ck, p.ck.stage) == Limit(p.ck) && ck == Moved(p.ck)
  }

  predicate MayWork(p: Progress, u: Unit) {
    Loops(p.ck.stage) && !p.pending && u == Frontier(p.ck) && u.index < Limit(p.ck)
  }

  predicate May(p: Progress, e: Event) {
    match e
    case Worked(u) => MayWork(p, u)
    case Saved(ck) => MaySave(p, ck)
  }

  function Next(p: Progress, e: Event): Progress {
    match e
    case Worked(u) => Progress(p.ck, true)
    case Saved(ck) => Progress(ck, false)
  }

  /** Where a list of events leads from a checkpoint, if every one of them is in its place. */
  function Replay(from: Checkpoint, events: seq<Event>): Option<Progress> {
    if events == [] then Some(Progress(from, false))
    else
      var before := Replay(from, events[..|events| - 1]);
      var e := events[|events| - 1];
      if before.Some? && May(before.value, e) then Some(Next(before.value, e)) else None
  }

  lemma ReplayOneMore(from: Checkpoint, events: seq<Event>, e: Event)
    requires Replay(from, events).Some? && May(Replay(from, events).value, e)
    ensures Replay(from, events + [e]) == Some(Next(Replay(from, events).value, e))
    ensures Saves(events + [e]) == if e.Saved? then Saves(events) + [e.checkpoint] else Saves(events)
  {
    assert (events + [e])[..|events|] == events;
  }

  /** The checkpoints an attempt has saved, in order. */
  function Saves(events: seq<Event>): seq<Checkpoint> {
    if events == [] then []
    else
      var before, e := Saves(events[..|events| - 1]), events[|events| - 1];
      if e.Saved? then before + [e.checkpoint] else before
  }

  function Latest(from: Checkpoint, saves: seq<Checkpoint>): Checkpoint {
    if saves == [] then from else saves[|saves| - 1]
  }

  lemma {:induction false} ReplayEndsAtSave(from: Checkpoint, events: seq<Event>)
    requires Replay(from, events).Some?
    ensures Replay(from, events).value.ck == Latest(from, Saves(events))
  {
    if events != [] {
      ReplayEndsAtSave(from, events[..|events| - 1]);
    }
  }

  lemma {:induction false} ReplaysSoFar(from: Checkpoint, events: seq<Event>, k: nat)
    requires Replay(from, events).Some? && k <= |events|
    ensures Replay(from, events[..k]).Some?
  {
    if k < |events| {
      ReplaysSoFar(from, events[..|events| - 1], k);
      assert events[..|events| - 1][..k] == events[..k];
    } else {
      assert events[..k] == events;
    }
  }

  /** Every shorter list of saves was the list at some point. */
  lemma {:induction false} SavedSoFar(events: seq<Event>, m: nat) returns (k: nat)
    requires m <= |Saves(events)|
    ensures k <= |events| && Saves(events[..k]) == Saves(events)[..m]
  {
    if m == |Saves(events)| {
      k := |events|;
      assert events[..k] == events && Saves(events)[..m] == Saves(events);
    } else {
      var before := events[..|events| - 1];
      k := SavedSoFar(before, m);
      assert before[..k] == events[..k] && Saves(before)[..m] == Saves(events)[..m];
    }
  }

  /** Every unit of work in the list is one that commits. */
  predicate Committed(events: seq<Event>, commits: Unit -> bool) {
    events == [] ||
    (Committed(events[..|events| - 1], commits) &&
     (events[|events| - 1].Worked? ==> commits(events[|events| - 1].unit)))
  }

  lemma CommittedOneMore(events: seq<Event>, e: Event, commits: Unit -> bool)
    ensures Committed(events + [e], commits) <==> Committed(events, commits) && (e.Worked? ==> commits(e.unit))
  {
    assert (events + [e])[..|events|] == events;
  }

  lemma {:induction false} CommittedEach(events: seq<Event>, commits: Unit -> bool, u: Unit)
    requires Committed(events, commits) && Times(events, u) > 0
    ensures commits(u)
  {
    if events[|events| - 1] != Worked(u) {
      CommittedEach(events[..|events| - 1], commits, u);
    }
  }

  function Times(events: seq<Event>, u: Unit): nat {
    if events == [] then 0
    else Times(events[..|events| - 1], u) + (if events[|events| - 1] == Worked(u) then 1 else 0)
  }

  function One(b: bool): nat {
    if b then 1 else 0
  }

  // ---------------------------------------------------------------- one attempt

  lemma SaveKeepsSound(p: Progress, ck: Checkpoint)
    requires Sound(p.ck) && MaySave(p, ck)
    requires p.pending ==> Loops(p.ck.stage) && IndexIn(p.ck, p.ck.stage) < Limit(p.ck)
    ensures Sound(ck) && AtOrAfter(p.ck, ck)
  {
  }

  lemma SaveRecords(p: Progress, ck: Checkpoint, u: Unit)
    requires Sound(p.ck) && MaySave(p, ck)
    requires p.pending ==> Loops(p.ck.stage)
    ensures Recorded(u, ck) <==> Recorded(u, p.ck) || (p.pending && u == Frontier(p.ck))
  {
  }

  ghost predicate WellPlaced(p: Progress) {
    Sound(p.ck) && (p.pending ==> Loops(p.ck.stage) && IndexIn(p.ck, p.ck.stage) < Limit(p.ck))
  }

  lemma {:induction false} ReplayIsWellPlaced(from: Checkpoint, events: seq<Event>)
    requires Sound(from) && Replay(from, events).Some?
    ensures WellPlaced(Replay(from, events).value)
    ensures AtOrAfter(from, Replay(from, events).value.ck)
  {
    if events != [] {
      var before := events[..|events| - 1];
      ReplayIsWellPlaced(from, before);
      if events[|events| - 1].Saved? {
        SaveKeepsSound(Replay(from, before).value, events[|events| - 1].checkpoint);
      }
    }
  }

  lemma MaySaveSound(from: Checkpoint, events: seq<Event>, ck: Checkpoint)
    requires Sound(from) && Replay(from, events).Some? && MaySave(Replay(from, events).value, ck)
    ensures Sound(ck)
  {
    ReplayIsWellPlaced(from, events);
    SaveKeepsSound(Replay(from, events).value, ck);
  }

  /** An attempt drops no company, and does not come back to planning or to Manus. */
  lemma {:induction false} ReplayGrows(from: Checkpoint, events: seq<Event>)
    requires Sound(from) && Replay(from, events).Some?
    ensures var ck := Replay(from, events).value.ck;
            && from.companies <= ck.companies
            && (from.stage !in {InPlanning, InManus} ==> ck.stage !in {InPlanning, InManus})
  {
    if events != [] {
      ReplayGrows(from, events[..|events| - 1]);
      ReplayIsWellPlaced(from, events[..|events| - 1]);
    }
  }

  /** Within one attempt a unit is worked exactly if the attempt moved the record past it, or worked it
      and stopped before recording it; and never twice. */
  lemma {:induction false} WorkedWhatItRecorded(from: Checkpoint, events: seq<Event>, u: Unit)
    requires Sound(from) && Replay(from, events).Some?
    ensures var p := Replay(from, events).value;
            One(Recorded(u, from)) + Times(events, u) == One(Recorded(u, p.ck)) + One(p.pending && u == Frontier(p.ck))
  {
    if events != [] {
      var before, e := events[..|events| - 1], events[|events| - 1];
      WorkedWhatItRecorded(from, before, u);
      ReplayIsWellPlaced(from, before);
      if e.Saved? {
        SaveRecords(Replay(from, before).value, e.checkpoint, u);
      }
    }
  }

  /** What an attempt records as done that was not on record, it has done and committed: a unit of work
      that raises is never recorded. */
  lemma RecordedIsCommitted(from: Checkpoint, events: seq<Event>, commits: Unit -> bool, u: Unit)
    requires Sound(from) && Replay(from, events).Some? && Committed(events, commits)
    requires !Recorded(u, from) && Recorded(u, Replay(from, events).value.ck)
    ensures Times(events, u) == 1 && commits(u)
  {
    WorkedWhatItRecorded(from, events, u);
    ReplayIsWellPlaced(from, events);
    CommittedEach(events, commits, u);
  }

  /** After its last accepted save an attempt works at most one unit: the next save stops a worker that
      has lost its lease. */
  lemma StaleWorksAtMostOne(from: Checkpoint, events: seq<Event>, saved: nat)
    requires Replay(from, events).Some? && saved <= |events|
    requires forall i | saved <= i < |events| :: events[i].Worked?
    ensures |events| <= saved + 1
  {
    assert |events| >= 2 ==> events[..|events| - 1][|events| - 2] == events[|events| - 2];
  }

  // ---------------------------------------------------------------- stored checkpoints

  /** A save by anybody is of a checkpoint a pipeline attempt may store. */
  predicate SavesSound(op: Op) {
    op.Fenced? && op.write.Save? ==> Sound(op.write.checkpoint)
  }

  ghost predicate AllSound(ops: seq<Op>) {
    forall i | 0 <= i < |ops| :: SavesSound(ops[i])
  }

  ghost predicate SoundRows(jobs: map<JobId, Job>) {
    forall j | j in jobs :: Sound(jobs[j].checkpoint)
  }

  lemma StepKeepsSoundRows(w: World, op: Op)
    requires SoundRows(w.jobs) && SavesSound(op)
    ensures SoundRows(Step(w, op).jobs)
  {
    forall j | j in w.jobs ensures Sound(RowAfter(w, op, j).checkpoint) {
      if !(op.Fenced? && op.write.Save?) {
        CheckpointChangesOnlyBySave(w, op, j);
      }
    }
  }

  lemma {:induction false} RunKeepsSoundRows(w: World, ops: seq<Op>)
    requires SoundRows(w.jobs) && AllSound(ops)
    ensures SoundRows(Run(w, ops).jobs)
  {
    if ops != [] {
      var before := ops[..|ops| - 1];
      assert AllSound(before) by {
        forall i | 0 <= i < |before| ensures SavesSound(before[i]) {
          assert before[i] == ops[i];
        }
      }
      RunKeepsSoundRows(w, before);
      StepKeepsSoundRows(Run(w, before), ops[|ops| - 1]);
    }
  }

  // ---------------------------------------------------------------- the chain of leases

  /** What the last lease of a job among `issued` saw last; nothing, before the first. */
  function LastSeen(issued: seq<Lease>, j: JobId): Checkpoint {
    if issued == [] then EMPTY
    else if issued[|issued| - 1].job == j then issued[|issued| - 1].seen
    else LastSeen(issued[..|issued| - 1], j)
  }

  /** The checkpoint that lease `t` was handed when it was claimed. */
  function GivenTo(ops: seq<Op>, t: Token): Checkpoint
    requires t < |Run(START, ops).issued|
  {
    var before := ops[..|ops| - 1];
    if t < |Run(START, before).issued| then GivenTo(before, t) else Run(START, ops).issued[t].seen
  }

  lemma {:induction false} LastSeenUnchanged(a: seq<Lease>, b: seq<Lease>, j: JobId)
    requires |a| == |b|
    requires forall i | 0 <= i < |a| :: a[i].job == b[i].job && (a[i].job == j ==> a[i].seen == b[i].seen)
    ensures LastSeen(a, j) == LastSeen(b, j)
  {
    if a != [] {
      LastSeenUnchanged(a[..|a| - 1], b[..|b| - 1], j);
    }
  }

  lemma {:induction false} LastSeenIs(issued: seq<Lease>, t: nat)
    requires t < |issued|
    requires forall i | t < i < |issued| :: issued[i].job != issued[t].job
    ensures LastSeen(issued, issued[t].job) == issued[t].seen
  {
    if t < |issued| - 1 {
      LastSeenIs(issued[..|issued| - 1], t);
    }
  }

  /** A row carries what its last lease saw last, leased or not. */
  ghost predicate Carries(w: World) {
    forall j | j in w.jobs :: w.jobs[j].checkpoint == LastSeen(w.issued, j)
  }

  /** Nobody is issued a lease of the job after the one that holds it. */
  lemma HolderIsLast(w: World, j: JobId, token: Token, version: nat)
    requires Inv(w) && j in w.jobs && Holds(w.jobs[j], token, version)
    ensures token < |w.issued| && w.issued[token].job == j
    ensures forall i | token < i < |w.issued| :: w.issued[i].job != j
  {
    assert RowInv(w.issued, w.jobs[j], j);
  }

  lemma SaveCarries(w: World, op: Op, j: JobId)
    requires Inv(w) && Carries(w) && j in w.jobs
    requires op.Fenced? && op.write.Save? && op.id in w.jobs && Holds(w.jobs[op.id], op.token, op.version)
    ensures RowAfter(w, op, j).checkpoint == LastSeen(Step(w, op).issued, j)
  {
    HolderIsLast(w, op.id, op.token, op.version);
    var after := Step(w, op).issued;
    if j == op.id {
      LastSeenIs(after, op.token);
    } else {
      LastSeenUnchanged(w.issued, after, j);
    }
  }

  lemma ClaimCarries(w: World, op: Op, j: JobId)
    requires Carries(w) && j in w.jobs && op.Claim?
    ensures RowAfter(w, op, j).checkpoint == LastSeen(IssuedAfter(w, op), j)
  {
    assert |IssuedAfter(w, op)| > |w.issued| ==> IssuedAfter(w, op)[..|w.issued|] == w.issued;
  }

  lemma StepCarriesRow(w: World, op: Op, j: JobId)
    requires Inv(w) && Carries(w) && j in w.jobs
    ensures RowAfter(w, op, j).checkpoint == LastSeen(Step(w, op).issued, j)
  {
    if op.Fenced? && op.write.Save? && op.id in w.jobs && Holds(w.jobs[op.id], op.token, op.version) {
      SaveCarries(w, op, j);
    } else if op.Claim? {
      ClaimCarries(w, op, j);
    } else {
      assert IssuedAfter(w, op) == w.issued;
      CheckpointChangesOnlyBySave(w, op, j);
    }
  }

  lemma StepCarries(w: World, op: Op)
    requires Inv(w) && Carries(w)
    ensures Carries(Step(w, op))
  {
    var w' := Step(w, op);
    forall j | j in w'.jobs ensures w'.jobs[j].checkpoint == LastSeen(w'.issued, j) {
      if j in w.jobs {
        StepCarriesRow(w, op, j);
      } else {
        NeverLeased(w, j);
      }
    }
  }

  lemma NeverLeased(w: World, j: JobId)
    requires Inv(w) && j !in w.jobs
    ensures LastSeen(w.issued, j) == EMPTY
  {
    forall i | 0 <= i < |w.issued| ensures w.issued[i].job != j {
    }
    NobodySaw(w.issued, j);
  }

  lemma {:induction false} NobodySaw(issued: seq<Lease>, j: JobId)
    requires forall i | 0 <= i < |issued| :: issued[i].job != j
    ensures LastSeen(issued, j) == EMPTY
  {
    if issued != [] {
      NobodySaw(issued[..|issued| - 1], j);
    }
  }

  lemma {:induction false} RunCarries(ops: seq<Op>)
    ensures Carries(Run(START, ops))
  {
    if ops != [] {
      RunCarries(ops[..|ops| - 1]);
      ReachableInv(ops[..|ops| - 1]);
      StepCarries(Run(START, ops[..|ops| - 1]), ops[|ops| - 1]);
    }
  }

  lemma ChainKept(w: World, op: Op, t: Token)
    requires Inv(w) && t < |w.issued|
    ensures t < |Step(w, op).issued| && Step(w, op).issued[t].job == w.issued[t].job
    ensures LastSeen(Step(w, op).issued[..t], w.issued[t].job) == LastSeen(w.issued[..t], w.issued[t].job)
  {
    var j, w' := w.issued[t].job, Step(w, op);
    if op.Fenced? && op.write.Save? && op.id in w.jobs && Holds(w.jobs[op.id], op.token, op.version) {
      HolderIsLast(w, op.id, op.token, op.version);
    }
    LastSeenUnchanged(w.issued[..t], w'.issued[..t], j);
  }

  /** Every lease was handed exactly what the job's lease before it saw last, and the first one nothing:
      across crashes, zombies and reapers the attempts of a job are links of one chain. */
  lemma {:induction false} LeasesAreAChain(ops: seq<Op>, t: Token)
    requires t < |Run(START, ops).issued|
    ensures GivenTo(ops, t) == LastSeen(Run(START, ops).issued[..t], Run(START, ops).issued[t].job)
  {
    var before, op := ops[..|ops| - 1], ops[|ops| - 1];
    var w := Run(START, before);
    ReachableInv(before);
    if t < |w.issued| {
      LeasesAreAChain(before, t);
      ChainKept(w, op, t);
    } else {
      RunCarries(before);
      assert op.Claim?;
      assert Run(START, ops).issued[..t] == w.issued;
    }
  }

  lemma {:induction false} GivenStays(ops: seq<Op>, more: seq<Op>, t: Token)
    requires t < |Run(START, ops).issued|
    ensures t < |Run(START, ops + more).issued| && GivenTo(ops + more, t) == GivenTo(ops, t)
  {
    if more == [] {
      assert ops + more == ops;
    } else {
      var before := more[..|more| - 1];
      GivenStays(ops, before, t);
      assert (ops + more)[..|ops + more| - 1] == ops + before;
      LeasesAfter(Run(START, ops + before), more[|more| - 1]);
    }
  }

  lemma GivenAtClaim(ops: seq<Op>, claim: Op)
    requires |Run(START, ops + [claim]).issued| == |Run(START, ops).issued| + 1
    ensures var t := |Run(START, ops).issued|; GivenTo(ops + [claim], t) == Run(START, ops + [claim]).issued[t].seen
  {
    assert (ops + [claim])[..|ops + [claim]| - 1] == ops;
  }

  /** The record of a lease that is lost does not change any more. */
  lemma {:induction false} LostLeaseIsClosed(w: World, ops: seq<Op>, t: Token)
    requires Inv(w) && t < |w.issued| && w.issued[t].job in w.jobs
    requires !Holds(w.jobs[w.issued[t].job], t, w.issued[t].version)
    ensures t < |Run(w, ops).issued| && Run(w, ops).issued[t] == w.issued[t]
  {
    if ops != [] {
      var w1 := Run(w, ops[..|ops| - 1]);
      LostLeaseIsClosed(w, ops[..|ops| - 1], t);
      LostStaysLost(w, ops[..|ops| - 1], w.issued[t].job, t, w.issued[t].version);
      RunKeepsInv(w, ops[..|ops| - 1]);
      LostLeaseInStep(w1, ops[|ops| - 1], t);
    }
  }

  lemma LostLeaseInStep(w: World, op: Op, t: Token)
    requires Inv(w) && t < |w.issued| && w.issued[t].job in w.jobs
    requires !Holds(w.jobs[w.issued[t].job], t, w.issued[t].version)
    ensures t < |Step(w, op).issued| && Step(w, op).issued[t] == w.issued[t]
  {
    if op.Fenced? && op.write.Save? && op.id in w.jobs && Holds(w.jobs[op.id], op.token, op.version) {
      assert RowInv(w.issued, w.jobs[op.id], op.id);
    }
  }

  // ---------------------------------------------------------------- all attempts of a job

  /** Every lease of the job was used by a pipeline attempt: `history` says what the attempt of each
      lease did, from what it was given to what it saw last. */
  ghost predicate AttemptsOf(ops: seq<Op>, j: JobId, history: seq<seq<Event>>) {
    && |history| == |Run(START, ops).issued|
    && forall t | 0 <= t < |history| && Run(START, ops).issued[t].job == j :: AttemptFits(ops, t, history[t])
  }

  ghost predicate AttemptFits(ops: seq<Op>, t: Token, events: seq<Event>)
    requires t < |Run(START, ops).issued|
  {
    var r := Replay(GivenTo(ops, t), events);
    r.Some? && r.value.ck == Run(START, ops).issued[t].seen
  }

  /** A save under lease `t` that the fence lets through. */
  predicate Takes(w: World, op: Op, t: Token) {
    op.Fenced? && op.token == t && op.write.Save? && op.id in w.jobs && Holds(w.jobs[op.id], t, op.version)
  }

  /** The checkpoints stored under lease `t` in the course of a run. */
  function Stored(w: World, ops: seq<Op>, t: Token): seq<Checkpoint> {
    if ops == [] then []
    else
      var before, op := ops[..|ops| - 1], ops[|ops| - 1];
      if Takes(Run(w, before), op, t) then Stored(w, before, t) + [op.write.checkpoint] else Stored(w, before, t)
  }

  lemma StoredOneMore(w: World, ops: seq<Op>, op: Op, t: Token)
    ensures Stored(w, ops + [op], t)
            == if Takes(Run(w, ops), op, t) then Stored(w, ops, t) + [op.write.checkpoint] else Stored(w, ops, t)
  {
    assert (ops + [op])[..|ops|] == ops;
  }

  lemma {:induction false} StoredConcat(w: World, a: seq<Op>, b: seq<Op>, t: Token)
    ensures Stored(w, a + b, t) == Stored(w, a, t) + Stored(Run(w, a), b, t)
  {
    if b == [] {
      assert a + b == a;
    } else {
      var before, op := b[..|b| - 1], b[|b| - 1];
      StoredConcat(w, a, before, t);
      RunConcat(w, a, before);
      StoredAlong(w, a, before, op, t);
      LastApart(a, b);
    }
  }

  lemma StoredAlong(w: World, a: seq<Op>, b: seq<Op>, op: Op, t: Token)
    requires Stored(w, a + b, t) == Stored(w, a, t) + Stored(Run(w, a), b, t) && Run(w, a + b) == Run(Run(w, a), b)
    ensures Stored(w, a + b + [op], t) == Stored(w, a, t) + Stored(Run(w, a), b + [op], t)
  {
    StoredOneMore(w, a + b, op, t);
    StoredOneMore(Run(w, a), b, op, t);
  }

  lemma LastApart(a: seq<Op>, b: seq<Op>)
    requires b != []
    ensures a + b == a + b[..|b| - 1] + [b[|b| - 1]] && b == b[..|b| - 1] + [b[|b| - 1]]
  {
  }

  lemma {:induction false} ForeignStoresNothing(w: World, ops: seq<Op>, t: Token)
    requires AllForeign(ops, t)
    ensures Stored(w, ops, t) == []
  {
    if ops != [] {
      var before := ops[..|ops| - 1];
      assert AllForeign(before, t) by {
        forall i | 0 <= i < |before| ensures Foreign(before[i], t) {
          assert before[i] == ops[i];
        }
      }
      ForeignStoresNothing(w, before, t);
      assert Foreign(ops[|ops| - 1], t);
    }
  }

  lemma TakesFromHolder(w: World, op: Op, t: Token)
    requires Inv(w) && Takes(w, op, t)
    ensures t < |w.issued| && w.issued[t].job == op.id && w.issued[t].version == op.version
  {
    assert RowInv(w.issued, w.jobs[op.id], op.id);
  }

  lemma {:induction false} NothingStoredYet(ops: seq<Op>, t: Token)
    requires t >= |Run(START, ops).issued|
    ensures Stored(START, ops, t) == []
  {
    if ops != [] {
      var before, op := ops[..|ops| - 1], ops[|ops| - 1];
      LeasesAfter(Run(START, before), op);
      NothingStoredYet(before, t);
      ReachableInv(before);
      if Takes(Run(START, before), op, t) {
        TakesFromHolder(Run(START, before), op, t);
      }
    }
  }

  lemma {:induction false} LostStoresNothing(w: World, ops: seq<Op>, t: Token)
    requires Inv(w) && t < |w.issued| && Over(w, t)
    ensures Stored(w, ops, t) == []
  {
    if ops != [] {
      var before, op := ops[..|ops| - 1], ops[|ops| - 1];
      LostStoresNothing(w, before, t);
      LostLeaseIsClosed(w, before, t);
      LostStaysLost(w, before, w.issued[t].job, t, w.issued[t].version);
      RunKeepsInv(w, before);
      if Takes(Run(w, before), op, t) {
        TakesFromHolder(Run(w, before), op, t);
      }
    }
  }

  /** What a lease saw last is what was last stored under it. */
  lemma {:induction false} SeenIsLatest(ops: seq<Op>, t: Token)
    requires t < |Run(START, ops).issued|
    ensures Run(START, ops).issued[t].seen == Latest(GivenTo(ops, t), Stored(START, ops, t))
  {
    var before, op := ops[..|ops| - 1], ops[|ops| - 1];
    ReachableInv(before);
    if t < |Run(START, before).issued| {
      SeenIsLatest(before, t);
      SeenAfter(Run(START, before), op, t);
    } else {
      NothingStoredYet(before, t);
      if Takes(Run(START, before), op, t) {
        TakesFromHolder(Run(START, before), op, t);
      }
    }
  }

  lemma SeenAfter(w: World, op: Op, t: Token)
    requires Inv(w) && t < |w.issued|
    ensures t < |Step(w, op).issued|
    ensures Step(w, op).issued[t].seen == if Takes(w, op, t) then op.write.checkpoint else w.issued[t].seen
  {
  }

  /** The attempt under lease `t` as it tells it: everything in its place, from what the claim handed
      over, and its saves are those that were stored under the lease. */
  ghost predicate Told(ops: seq<Op>, t: Token, events: seq<Event>) {
    && t < |Run(START, ops).issued|
    && Replay(GivenTo(ops, t), events).Some?
    && Saves(events) == Stored(START, ops, t)
  }

  lemma ToldFits(ops: seq<Op>, t: Token, events: seq<Event>)
    requires Told(ops, t, events)
    ensures AttemptFits(ops, t, events)
  {
    SeenIsLatest(ops, t);
    ReplayEndsAtSave(GivenTo(ops, t), events);
  }

  /** An attempt that started from what its claim handed over, in the history it ran in. */
  lemma FinishedAttemptFits(ops: seq<Op>, claim: Op, rest: seq<Op>, events: seq<Event>)
    requires |Run(START, ops + [claim]).issued| == |Run(START, ops).issued| + 1
    requires var t := |Run(START, ops).issued|;
             && Replay(Run(START, ops + [claim]).issued[t].seen, events).Some?
             && Saves(events) == Stored(Run(START, ops + [claim]), rest, t)
    ensures var t := |Run(START, ops).issued|;
            Told(ops + [claim] + rest, t, events) && AttemptFits(ops + [claim] + rest, t, events)
  {
    var t := |Run(START, ops).issued|;
    GivenAtClaim(ops, claim);
    GivenStays(ops + [claim], rest, t);
    StoredConcat(START, ops + [claim], rest, t);
    SeenIsLatest(ops + [claim], t);
    FreshLeaseStoresNothing(ops, claim);
    ToldFits(ops + [claim] + rest, t, events);
  }

  lemma FreshLeaseStoresNothing(ops: seq<Op>, claim: Op)
    requires |Run(START, ops + [claim]).issued| == |Run(START, ops).issued| + 1
    ensures Stored(START, ops + [claim], |Run(START, ops).issued|) == []
  {
    assert (ops + [claim])[..|ops + [claim]| - 1] == ops;
    NothingStoredYet(ops, |Run(START, ops).issued|);
  }

  /** An attempt whose process dies: whatever statement `n` was its last, and whatever it had done by
      then that agrees with what was stored, it fits, and goes on to fit while others act. */
  lemma DeadAttemptFits(ops: seq<Op>, n: nat, more: seq<Op>, t: Token, events: seq<Event>, k: nat)
    requires Told(ops, t, events) && n <= |ops| && k <= |events|
    requires t < |Run(START, ops[..n]).issued| && Saves(events[..k]) == Stored(START, ops[..n], t)
    requires AllForeign(more, t)
    ensures Told(ops[..n] + more, t, events[..k]) && AttemptFits(ops[..n] + more, t, events[..k])
  {
    var past := ops[..n];
    assert past + ops[n..] == ops;
    GivenStays(past, ops[n..], t);
    ReplaysSoFar(GivenTo(ops, t), events, k);
    GivenStays(past, more, t);
    StoredConcat(START, past, more, t);
    ForeignStoresNothing(Run(START, past), more, t);
    ToldFits(past + more, t, events[..k]);
  }

  /** Wherever the process may die, there is such a part of what it did. */
  lemma DeadAttemptHasPart(ops: seq<Op>, n: nat, t: Token, events: seq<Event>) returns (k: nat)
    requires Told(ops, t, events) && n <= |ops|
    ensures k <= |events| && Saves(events[..k]) == Stored(START, ops[..n], t)
  {
    assert ops[..n] + ops[n..] == ops;
    StoredConcat(START, ops[..n], ops[n..], t);
    k := SavedSoFar(events, |Stored(START, ops[..n], t)|);
  }

  /** The lease is held by nobody. */
  ghost predicate Over(w: World, t: Token)
    requires t < |w.issued|
  {
    w.issued[t].job in w.jobs && !Holds(w.jobs[w.issued[t].job], t, w.issued[t].version)
  }

  /** An attempt that has its place in the history and whose lease is held by nobody. */
  ghost predicate HasPlace(ops: seq<Op>, t: Token, events: seq<Event>) {
    Told(ops, t, events) && Over(Run(START, ops), t)
  }

  /** A finished attempt keeps its place however the run goes on. */
  lemma PlaceStays(ops: seq<Op>, more: seq<Op>, t: Token, events: seq<Event>)
    requires HasPlace(ops, t, events)
    ensures HasPlace(ops + more, t, events)
  {
    var w := Run(START, ops);
    ReachableInv(ops);
    RunConcat(START, ops, more);
    LostLeaseIsClosed(w, more, t);
    LostStaysLost(w, more, w.issued[t].job, t, w.issued[t].version);
    GivenStays(ops, more, t);
    StoredConcat(START, ops, more, t);
    LostStoresNothing(w, more, t);
  }

  /** If every lease of the job was taken by a worker that tells what it did, be it one that returned
      (`HasPlace`) or one that died (`DeadAttemptFits`), its attempts are the job's. */
  lemma PlacesAreAttempts(ops: seq<Op>, j: JobId, made: map<Token, seq<Event>>)
    requires forall t: Token | t < |Run(START, ops).issued| && Run(START, ops).issued[t].job == j ::
               t in made && Told(ops, t, made[t])
    ensures AttemptsOf(ops, j, seq(|Run(START, ops).issued|, t => if t in made then made[t] else []))
  {
    forall t: Token | t < |Run(START, ops).issued| && Run(START, ops).issued[t].job == j
      ensures AttemptFits(ops, t, made[t])
    {
      ToldFits(ops, t, made[t]);
    }
  }

  /** How often the unit was worked under the first `n` leases. */
  function TimesInAll(issued: seq<Lease>, history: seq<seq<Event>>, j: JobId, u: Unit, n: nat): nat
    requires n <= |issued| == |history|
  {
    if n == 0 then 0
    else TimesInAll(issued, history, j, u, n - 1) + (if issued[n - 1].job == j then Times(history[n - 1], u) else 0)
  }

  /** How many of those attempts stopped after working the unit and before recording it. */
  function CutShort(ops: seq<Op>, history: seq<seq<Event>>, j: JobId, u: Unit, n: nat): nat
    requires n <= |Run(START, ops).issued| == |history|
  {
    if n == 0 then 0
    else
      var r := Replay(GivenTo(ops, n - 1), history[n - 1]);
      CutShort(ops, history, j, u, n - 1)
      + One(Run(START, ops).issued[n - 1].job == j && r.Some? && r.value.pending && u == Frontier(r.value.ck))
  }

  lemma {:induction false} ChainAddsUp(ops: seq<Op>, j: JobId, history: seq<seq<Event>>, u: Unit, n: nat)
    requires AttemptsOf(ops, j, history) && n <= |history|
    ensures var last := LastSeen(Run(START, ops).issued[..n], j);
            && Sound(last)
            && TimesInAll(Run(START, ops).issued, history, j, u, n)
               == One(Recorded(u, last)) + CutShort(ops, history, j, u, n)
  {
    if n > 0 {
      var issued := Run(START, ops).issued;
      ChainAddsUp(ops, j, history, u, n - 1);
      assert issued[..n][..n - 1] == issued[..n - 1];
      if issued[n - 1].job == j {
        assert AttemptFits(ops, n - 1, history[n - 1]);
        LeasesAreAChain(ops, n - 1);
        ReplayIsWellPlaced(GivenTo(ops, n - 1), history[n - 1]);
        WorkedWhatItRecorded(GivenTo(ops, n - 1), history[n - 1], u);
      }
    }
  }

  /** In every run of any number of workers, wherever they crash, however often the job is reaped,
      parked and claimed again: a unit has been worked once if the job's row records it and not at all
      otherwise, plus once for every attempt that was cut short between working and recording it. No
      unit is skipped, and none is repeated except for that. */
  lemma WorkedOncePlusCutShort(ops: seq<Op>, j: JobId, history: seq<seq<Event>>, u: Unit)
    requires AttemptsOf(ops, j, history) && j in Run(START, ops).jobs
    ensures var w := Run(START, ops);
            && Sound(w.jobs[j].checkpoint)
            && TimesInAll(w.issued, history, j, u, |history|)
               == One(Recorded(u, w.jobs[j].checkpoint)) + CutShort(ops, history, j, u, |history|)
  {
    var issued := Run(START, ops).issued;
    ChainAddsUp(ops, j, history, u, |history|);
    RunCarries(ops);
    assert issued[..|history|] == issued;
  }

  lemma {:induction false} OneOfThem(issued: seq<Lease>, history: seq<seq<Event>>, j: JobId, u: Unit, n: nat)
    returns (t: nat)
    requires n <= |issued| == |history| && TimesInAll(issued, history, j, u, n) > 0
    ensures t < n && issued[t].job == j && Times(history[t], u) > 0
  {
    if issued[n - 1].job == j && Times(history[n - 1], u) > 0 {
      t := n - 1;
    } else {
      t := OneOfThem(issued, history, j, u, n - 1);
    }
  }

  /** Whatever a job's row records as done was done, and committed, by one of its attempts: a unit of work
      that raises is never recorded, by nobody. `commits` says of each attempt what did not raise. */
  lemma RecordedWasCommitted(ops: seq<Op>, j: JobId, history: seq<seq<Event>>, commits: seq<Unit -> bool>, u: Unit)
    returns (t: nat)
    requires AttemptsOf(ops, j, history) && j in Run(START, ops).jobs && |commits| == |history|
    requires forall i | 0 <= i < |history| && Run(START, ops).issued[i].job == j :: Committed(history[i], commits[i])
    requires Recorded(u, Run(START, ops).jobs[j].checkpoint)
    ensures t < |history| && Run(START, ops).issued[t].job == j && Times(history[t], u) > 0 && commits[t](u)
  {
    WorkedOncePlusCutShort(ops, j, history, u);
    t := OneOfThem(Run(START, ops).issued, history, j, u, |history|);
    CommittedEach(history[t], commits[t], u);
  }

  /** A job that has reached qualification has had every company enriched, verified and scored, and,
      unless it went by way of Manus, every query searched. */
  lemma NothingIsSkipped(ops: seq<Op>, j: JobId, history: seq<seq<Event>>, u: Unit)
    requires AttemptsOf(ops, j, history) && j in Run(START, ops).jobs
    requires var ck := Run(START, ops).jobs[j].checkpoint;
             && ck.stage == InQualification
             && if u.stage == InDiscovery then u.index < ck.queries && ck.queryIndex > 0
                else Loops(u.stage) && u.index < |ck.companies|
    ensures TimesInAll(Run(START, ops).issued, history, j, u, |history|) >= 1
  {
    WorkedOncePlusCutShort(ops, j, history, u);
  }
}
