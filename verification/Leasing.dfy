/** The job table as values: what one SQL transaction does to every row.

    Each function of runtime/leasing.py is one `Op`; `Step` is the state after it. Choices the
    database makes on its own (which of several equal rows LIMIT returns, which rows are locked by
    somebody else) are carried by the operation and checked by `LegalClaim` and `LegalReclaim`.
    No clock discipline is assumed: every operation brings its own `now`. */
module Leasing {
  import opened Common
  import opened Checkpoints

  type JobId = nat
  type Token = nat

  datatype State =
    | Created | Queued | Planning | Discovering | Researching | Enriching | Verifying | Scoring
    | Qualifying | ReadyForReview | WaitingForCapacity | WaitingForUser | Paused | Cancelling
    | Cancelled | Failed | PartialSuccess

  predicate Active(s: State) {
    s in {Planning, Discovering, Researching, Enriching, Verifying, Scoring, Qualifying, Cancelling}
  }

  predicate Terminal(s: State) {
    s in {ReadyForReview, Cancelled, Failed, PartialSuccess}
  }

  /** The phases a handler moves a leased job through, and the outcomes it may return. */
  type Phase = s: State | Active(s) witness Planning
  type Outcome = s: State | Terminal(s) witness Failed

  const PARK_PREFIX := "parked:"

  datatype Job = Job(
    org: nat,
    queue: string,
    priority: int,
    createdAt: int,
    state: State,
    token: Option<Token>,
    version: nat,
    expires: Option<int>,
    attempts: nat,
    maxAttempts: nat,
    checkpoint: Checkpoint,
    cancelRequested: bool,
    lastError: string,
    updatedAt: int,
    finishedAt: Option<int>)

  /** What a claimer was handed: its job, the lease version, and its own copy of the checkpoint
      (`ctx.checkpoint`). Leases are numbered in the order they were issued; the number plays the
      part of `gen_random_uuid()`, a value that is never handed out twice. */
  datatype Lease = Lease(job: JobId, version: nat, seen: Checkpoint)

  datatype World = World(jobs: map<JobId, Job>, issued: seq<Lease>)

  /** The writes fenced on (lease_token, lease_version). */
  datatype Write =
    | SetPhase(phase: Phase, secs: int)
    | Save(checkpoint: Checkpoint, moveTo: Option<Phase>, secs: int)
    | Park(reason: string)
    | Complete(outcome: Outcome)
    | Fail(error: string)
    | ApplyCancellation
    | FinishCancelled

  datatype Op =
    | Create(id: JobId, org: nat, queue: string, maxAttempts: nat, priority: int, now: int)
    | Claim(choice: Option<JobId>, queues: set<string>, locked: set<JobId>, secs: int, now: int)
    | Heartbeat(id: JobId, token: Token, secs: int, now: int)
    | Fenced(id: JobId, token: Token, version: nat, write: Write, now: int)
    | RequestCancel(id: JobId, org: nat, now: int)
    | Resume(id: JobId, org: nat, now: int)
    | Wake(only: Option<set<string>>, minAge: int, now: int)
    | Reclaim(batch: nat, failed: set<JobId>, requeued: set<JobId>, now: int)

  function Truncated(s: string): string {
    if |s| <= 800 then s else s[..800]
  }

  function NewJob(org: nat, queue: string, maxAttempts: nat, priority: int, now: int): Job {
    Job(org, queue, priority, now, Queued, None, 0, None, 0, maxAttempts, EMPTY, false, "", now, None)
  }

  predicate Claimable(row: Job, queues: set<string>) {
    row.queue in queues && row.state == Queued && row.attempts < row.maxAttempts
  }

  /** ORDER BY priority, created_at; equal rows may come in either order. */
  predicate Before(a: Job, b: Job) {
    a.priority < b.priority || (a.priority == b.priority && a.createdAt <= b.createdAt)
  }

  predicate LegalClaim(jobs: map<JobId, Job>, choice: Option<JobId>, queues: set<string>, locked: set<JobId>) {
    match choice
    case None => forall k | k in jobs && k !in locked :: !Claimable(jobs[k], queues)
    case Some(j) =>
      && j in jobs && j !in locked && Claimable(jobs[j], queues)
      && forall k | k in jobs && k !in locked && Claimable(jobs[k], queues) :: Before(jobs[j], jobs[k])
  }

  function Claimed(row: Job, token: Token, secs: int, now: int): Job {
    row.(state := Planning, token := Some(token), version := row.version + 1,
    expires := Some(now + secs), attempts := row.attempts + 1, updatedAt := now)
  }

  /** The fence: WHERE lease_token = ... AND lease_version = .... */
  predicate Holds(row: Job, token: Token, version: nat) {
    row.token == Some(token) && row.version == version
  }

  predicate Accepts(row: Job, token: Token, version: nat, w: Write) {
    Holds(row, token, version) &&
    (w.ApplyCancellation? ==> row.cancelRequested && row.state != Cancelling)
  }

  function Released(row: Job, state: State, now: int): Job {
    row.(state := state, token := None, expires := None, updatedAt := now)
  }

  function Written(row: Job, w: Write, now: int): Job {
    match w
    case SetPhase(phase, secs) => row.(state := phase, expires := Some(now + secs), updatedAt := now)
    case Save(ck, moveTo, secs) =>
      row.(checkpoint := ck, state := if moveTo.Some? then moveTo.value else row.state,
      expires := Some(now + secs), updatedAt := now)
    case Park(reason) =>
      Released(row, WaitingForCapacity, now).(
      attempts := if row.attempts >= 1 then row.attempts - 1 else 0,
      lastError := Truncated(PARK_PREFIX + " " + reason))
    case Complete(outcome) => Released(row, outcome, now).(finishedAt := Some(now))
    case Fail(error) =>
      var spent := row.attempts >= row.maxAttempts;
      Released(row, if spent then Failed else Queued, now).(
      finishedAt := if spent then Some(now) else None,
      lastError := Truncated(error))
    case ApplyCancellation => row.(state := Cancelling, updatedAt := now)
    case FinishCancelled => Released(row, Cancelled, now).(finishedAt := Some(now))
  }

  predicate Open(s: State) {
    s !in {ReadyForReview, Cancelled, Failed}
  }

  predicate Beats(row: Job, token: Token) {
    row.token == Some(token) && Open(row.state)
  }

  predicate Resumable(row: Job) {
    row.state == Paused || row.state == WaitingForUser
  }

  predicate Wakes(row: Job, only: Option<set<string>>, minAge: int, now: int) {
    && row.state == WaitingForCapacity
    && PARK_PREFIX <= row.lastError
    && (only.Some? ==> row.queue in only.value)
    && row.updatedAt <= now - minAge
  }

  predicate Expired(row: Job, now: int) {
    Active(row.state) && row.expires.Some? && row.expires.value < now
  }

  predicate Spent(row: Job) {
    row.attempts >= row.maxAttempts
  }

  /** `picked` is what a SELECT ... LIMIT `limit` may return out of `eligible`. */
  predicate Limited(picked: set<JobId>, eligible: set<JobId>, limit: int) {
    picked <= eligible && |picked| <= limit && (|picked| < limit ==> picked == eligible)
  }

  function ExpiredSpent(jobs: map<JobId, Job>, now: int): set<JobId> {
    set j | j in jobs && Expired(jobs[j], now) && Spent(jobs[j])
  }

  /** What the reaper's second statement still sees after the first one failed some rows. */
  function ExpiredLeft(jobs: map<JobId, Job>, failed: set<JobId>, now: int): set<JobId> {
    set j | j in jobs && Expired(jobs[j], now) && j !in failed
  }

  predicate LegalReclaim(jobs: map<JobId, Job>, batch: nat, failed: set<JobId>, requeued: set<JobId>, now: int) {
    && Limited(failed, ExpiredSpent(jobs, now), batch)
    && Limited(requeued, ExpiredLeft(jobs, failed, now), batch - |failed|)
  }

  const REAPED_SPENT := "lease expired after max attempts; not requeued"
  const REAPED := "lease expired; requeued"

  function RowAfter(w: World, op: Op, j: JobId): Job
    requires j in w.jobs
  {
    var row := w.jobs[j];
    match op
    case Create(_, _, _, _, _, _) => row
    case Claim(choice, queues, locked, secs, now) =>
      if choice == Some(j) && LegalClaim(w.jobs, choice, queues, locked)
      then Claimed(row, |w.issued|, secs, now) else row
    case Heartbeat(id, token, secs, now) =>
      if id == j && Beats(row, token) then row.(expires := Some(now + secs), updatedAt := now) else row
    case Fenced(id, token, version, write, now) =>
      if id == j && Accepts(row, token, version, write) then Written(row, write, now) else row
    case RequestCancel(id, org, now) =>
      if id == j && row.org == org && Open(row.state)
      then row.(cancelRequested := true, updatedAt := now) else row
    case Resume(id, org, now) =>
      if id == j && row.org == org && Resumable(row)
      then row.(state := Queued, updatedAt := now) else row
    case Wake(only, minAge, now) =>
      if Wakes(row, only, minAge, now) then row.(state := Queued, updatedAt := now) else row
    case Reclaim(batch, failed, requeued, now) =>
      if !LegalReclaim(w.jobs, batch, failed, requeued, now) then row
      else if j in failed then Released(row, Failed, now).(finishedAt := Some(now), lastError := REAPED_SPENT)
      else if j in requeued then Released(row, Queued, now).(lastError := REAPED)
      else row
  }

  function IssuedAfter(w: World, op: Op): seq<Lease> {
    match op
    case Claim(choice, queues, locked, _, _) =>
      if choice.Some? && LegalClaim(w.jobs, choice, queues, locked)
      then w.issued + [Lease(choice.value, w.jobs[choice.value].version + 1, w.jobs[choice.value].checkpoint)]
      else w.issued
    case Fenced(id, token, version, Save(ck, _, _), _) =>
      if id in w.jobs && Holds(w.jobs[id], token, version) && token < |w.issued|
      then w.issued[token := w.issued[token].(seen := ck)] else w.issued
    case _ => w.issued
  }

  function Step(w: World, op: Op): World {
    var rows := map j | j in w.jobs :: RowAfter(w, op, j);
    World(
      if op.Create? && op.id !in w.jobs
      then rows[op.id := NewJob(op.org, op.queue, op.maxAttempts, op.priority, op.now)] else rows,
      IssuedAfter(w, op))
  }

  /** Any interleaving of any number of workers, reapers and users is some list of operations. */
  function Run(w: World, ops: seq<Op>): World {
    if ops == [] then w else Step(Run(w, ops[..|ops| - 1]), ops[|ops| - 1])
  }

  const START := World(map[], [])

  // ---------------------------------------------------------------- the invariant

  /** A row is leased exactly while it is in an active state; a leased row carries the lease that
      was issued for it, and its holder's copy of the checkpoint is the row's. */
  ghost predicate RowInv(issued: seq<Lease>, row: Job, j: JobId) {
    && (row.token.Some? <==> row.expires.Some?)
    && (row.token.Some? <==> Active(row.state))
    && (row.token.Some? ==>
          && row.token.value < |issued|
          && issued[row.token.value] == Lease(j, row.version, row.checkpoint)
          && row.attempts >= 1)
    && row.attempts <= row.maxAttempts
    && (row.state in {Queued, Paused, WaitingForUser, WaitingForCapacity} && row.maxAttempts >= 1
        ==> row.attempts < row.maxAttempts)
    && (row.state == WaitingForCapacity ==> PARK_PREFIX <= row.lastError)
  }

  /** Lease versions of one job grow with the order of issue and never pass the row's. */
  ghost predicate LeaseInv(jobs: map<JobId, Job>, issued: seq<Lease>) {
    && (forall t | 0 <= t < |issued| ::
          issued[t].job in jobs && issued[t].version <= jobs[issued[t].job].version)
    && (forall t, u | 0 <= t < u < |issued| && issued[t].job == issued[u].job ::
          issued[t].version < issued[u].version)
  }

  ghost predicate Inv(w: World) {
    (forall j | j in w.jobs :: RowInv(w.issued, w.jobs[j], j)) && LeaseInv(w.jobs, w.issued)
  }
}
