# A verified model of the lead engine's stateful cores

This project models, in Dafny, the parts of the repository whose correctness is not visible in any one
function body, and proves what they promise over every input, run or interleaving:

- the V6 durable job runtime: `Leasing`, `LeasingRuns` (every run of the job table) and `LeasingLaws` (what a
  statement means for a row), `JobStore` (the table updated in place), `Ownership`, `JobOps`,
  `PipelineHandler`, `Worker` (the imperative worker and handler), `Pipeline` (what all attempts of one job
  add up to), `ManusTurns` (which answers reach the job's companies), `CancelledCampaign` and
  `EscapedLease` (one attempt each);
- the truth layer: `Truth`, `TruthProofs`, `TruthTime`, `TruthLaws`, `TruthCases` (runs that break a promise), and
  `FactsStore` (the three tables in place);
- the Manus credit ledger and discovery engine: `Manus`, `ManusProofs`, `ManusLaws`, `ManusMoney` (one
  engine), `ManusRuns` (any number of engines over one job, one service call a step), `ManusPayments`,
  `ManusFloor`, `ManusCredits` (what holds in those runs), `ManusCases` (runs that pay twice) and
  `ManusDiscovery` (the objects in place);
- the effect ledger and provider waterfall: `Gateway`, `GatewayProofs`, `GatewayLaws`, `ProviderGateway`;
- the outbox relay with its idempotent consumer: `Relay`, `RelayProofs`, `RelayLaws`, `OutboxRelay`;
- the token bucket: `TokenClock`, `RateLimit`; the SQL placeholder scanner: `Placeholders`.

## How it is built

Each core has a specification on values and a class. The specification is a step function
(`Step(state, op)`) and the runs over it; the class has the source's fields and one method per function of
the source, with its loops, and every method is proved to be one step of the specification. The theorems
are about the steps and the runs, so they hold for the class by the methods' contracts. The `Laws` modules say
what each operation means on the columns of the tables, in words of their own that share no definition with
the step functions.

A SQL transaction is one atomic step. What the database decides on its own (which of several equal rows
LIMIT returns, which rows somebody else has locked) is carried by the operation and checked against what
the statement allows. Leases are numbered in the order they are issued, which stands for
`gen_random_uuid()`. In the job runtime no clock discipline is assumed at all: each operation brings its own
`now`; the truth layer assumes a nondecreasing clock only where a theorem is about time.

`JobOps` and `Worker` let everybody else run an arbitrary list of operations before each of their own
statements, maintenance and claim included, in answer to the token the worker holds if they like, as long
as they do not use that token and store only checkpoints a pipeline stores. `Worker.RunOnce` and
`Worker.Run` are therefore proved against every interleaving. What they did, other people's statements
included, is again a run of `Leasing`, and every attempt they made has its place in it (`Pipeline.HasPlace`):
it started from what its claim handed over, and its saves are those that the table stored under its lease
(`Pipeline.Told`). The same holds of an attempt whose process dies after any statement, for what it had done by
then (`Pipeline.DeadAttemptFits`). `Pipeline.PlacesAreAttempts` turns both into the histories that
`Pipeline.WorkedOncePlusCutShort` is about.

In `JobOps.Bound`, `JobOps.Tells` and `Worker.Sane` the invariant stands behind a quantifier whose trigger is
`Look` or `Peek`: it says the same, but only proofs that mention the trigger unfold it, which keeps the
handler's loops cheap to verify.

## What was found

The code is modelled as it is. Where a promise is not kept as stated, the exact condition is proved:

- Truth layer: "no field has two live values outside a conflict" holds for observing, refuting and reading
  (`TruthTime.ConflictsNeverMissed`), but `verify_fact` skips conflict detection and `resolve_conflict` makes
  its winner VERIFIED. `TruthTime.ConfirmedCompleteIff` and `TruthTime.ResolvedCompleteIff` say exactly when
  each keeps it. `TruthCases.ConfirmedLoserIsSecondTruth` and `TruthCases.ResolvedAgainIsSecondTruth` are runs
  from the empty store, for any two or three values seen, that break it: a confirmed loser, and a conflict
  that is resolved again after a third value was recorded.
- Two pages of one host can count as two independent sources: `TruthTime.SameHostIndependentIff` says exactly
  when.
- Manus: "a restarted worker carries on without paying for a task twice" (`manus_stage.py:8-10`) is not kept.
  A submit makes up to cities times keys HTTP calls without a heartbeat, so an attempt can lose its lease and
  go on paying until its next save stops it, while another has started from the same snapshot. In any run of
  attempts that overlap, crash and restart, an entry of the ICP is paid for again exactly when the engine that
  pays misses, in its own `submitted`, an entry that has been paid for (`ManusPayments.RepaysIff`,
  `ManusPayments.PaidOnceIff`). `ManusCases.StaleRestartPaysTwice` is a crash between the payment and the save;
  `ManusCases.OverlapPaysTwice` needs no crash, and the city is on record when it is paid for again. What the
  snapshot and everybody at work have on record is never paid for again (`ManusPayments.RestoredNeverRepays`),
  and because saves are fenced the record never shrinks (`ManusPayments.RecordOnlyGrows`). The floor survives
  all of this (`ManusFloor.FloorInAnyRun`); the balances of an engine lose exactly the reports it knows of
  (`ManusCredits.CreditsInAnyRun`).
- Manus: the stage stores a task as collected before its companies are ingested, so paid answers can be lost
  for good: exactly if a turn that was answered with the company is stopped between its second and its third
  save, by a crash, a lost lease or a unit of work that raises, and no other turn brings it
  (`ManusTurns.AnswerIsLostIff`, `ManusTurns.LostForGood`, `PipelineHandler.RunStage`).
- Gateway: the budget of a call without a job is not remembered from call to call
  (`GatewayProofs.NoJobNoMemory`). The row of an `uncertain` effect is not reserved, it stays `uncertain`, and its
  adapter is called again under the same condition as if nothing had happened
  (`GatewayProofs.UncertainIsCalledAgain`; `GatewayProofs.AmbiguousIsCalledTwice` are two such calls). If it can no
  longer be paid for, its row turns `failed`, although the effect may have happened (`GatewayLaws.RecordsMean`).
- Relay: the rows are no longer locked while they are delivered, so relays may overlap on an event. However
  they overlap and crash, the inbox and dead-letter guarantees hold all along a run exactly if every handler
  failure in it is recorded in time: before the event was dead-lettered, and, while it has attempts left,
  before it was published or about to be (`RelayProofs.RunKeepsGuaranteesIff`). One relay per event at a time is
  enough (`RelayProofs.AloneRunIsInTime`); `RelayProofs.TwoRelaysLoseTheRow` and
  `RelayProofs.TwoRelaysDeadLetterTwice` are late failures.
- Runtime: a job reaped while CANCELLING ends FAILED, not CANCELLED, exactly if its budget is spent
  (`LeasingRuns.CrashWhileCancelling`). After a cancellation in a loop the handler still falls through to its
  last unit of work, which is not fenced: the job is CANCELLED and the campaign is set to READY_FOR_REVIEW,
  exactly if a company is on record and that write commits (`PipelineHandler.Handle`); the input is
  `CancelledCampaign.CancelledButClosed`, and `CancelledCampaign.ReachesSuchAnAttempt` a run that leads there.
  Scoring neither looks for a cancellation nor renews the lease with a heartbeat. A job whose type has no handler
  is failed outside the `try`: LeaseLostError leaves `run_once` exactly if there is no handler and the lease is
  gone when the failure is to be recorded (`Worker.Ends`); `EscapedLease.ReapedThenEscapes` is such an attempt.
- Rate limiter: the window bound needs no assumption on the order of times at all. Retry-After is kept only
  if `burst >= 1` (`RateLimit.SmallBucketRefusesAll`); otherwise no wait helps.

## Model

| member | source | states |
|---|---|---|
| LeasingRuns.RunKeepsInv | runtime/leasing.py:44-285 | over any interleaving: token present iff expiry present iff state active; a leased row carries the lease issued for it; 0 <= attempts <= max_attempts; lease versions of a job grow with the order of issue |
| LeasingRuns.ReachableInv | runtime/leasing.py:26-41 | everything reachable from the empty job table satisfies that invariant |
| LeasingRuns.LostStaysLost | runtime/leasing.py:44-117 | a lease that is revoked, released or superseded is never held again in any run |
| LeasingRuns.StaleWritesChangeNothing | runtime/leasing.py:83-117 | after that, however the run goes on, a write carrying the lease changes nothing in the table |
| LeasingRuns.StaleHeartbeatsChangeNothing | runtime/leasing.py:70-80 | nor does its heartbeat |
| LeasingRuns.HeartbeatFenceIsFull | runtime/leasing.py:70-80 | the token-only fence of heartbeat accepts exactly when the full (token, version) fence would |
| LeasingRuns.AcceptedVersionsNondecreasing | runtime/leasing.py:83-117 | writes on a job that take effect come in nondecreasing lease_version order |
| LeasingRuns.ClaimReceivesLastSave | runtime/leasing.py:44-117 | a claim hands over exactly the checkpoint of the last save that took effect |
| LeasingRuns.FirstClaimReceivesNothing | runtime/leasing.py:26-67 | ... and the empty checkpoint if none ever did |
| LeasingRuns.AttemptsAreClaimsMinusParks | runtime/leasing.py:150-170 | attempts = claims - parks at every point of every run; GREATEST in park never clamps; claims not ended by a park are at most max_attempts |
| LeasingRuns.TerminalIsForever | runtime/leasing.py:19-23 | no step of anybody moves a job out of a terminal state |
| LeasingRuns.RequeuedHaveBudget | runtime/leasing.py:222-262 | the reaper's second statement never sees a spent row, and the two statements are disjoint and within the batch |
| LeasingRuns.ReaperIsSafe | runtime/leasing.py:222-262 | for every batch size and table: spent rows fail, rows with budget are requeued with attempts and checkpoint, none twice, nothing else touched, no lapsed lease left unless the batch was full; what lapsed means is LeasingLaws.ReapedIff |
| LeasingLaws.LiveLeaseIsLeft | runtime/leasing.py:222-262 | a reaper leaves a job alone that has no lease, or one that runs at the reaper's now |
| LeasingLaws.TakenHadLapsed | runtime/leasing.py:222-262 | whatever a reaper takes had lapsed, and the whole row it leaves: FAILED if it has had all its attempts, else back in the queue as it is |
| LeasingLaws.LapsedLeaseIsTaken | runtime/leasing.py:222-262 | with room left in the batch every lapsed lease is taken |
| LeasingLaws.ReapedIff | runtime/leasing.py:222-262 | so a lease is lost to a reaper with room exactly if it has lapsed by that reaper's clock |
| LeasingLaws.LeaseLasts | runtime/leasing.py:44-117 | a lease claimed or renewed at t for so many seconds is held until then in every run of others whose reapers are not past that time |
| LeasingLaws.ClaimIsInOrder | runtime/leasing.py:44-67 | a claim takes a queued job with an attempt left that none comes before by (priority, created_at), and comes back empty exactly if none waits |
| LeasingLaws.FailureIsRetriedIff | runtime/leasing.py:203-219 | a failure under a lease: claimable again with its checkpoint exactly while attempts are left, else FAILED for good |
| LeasingLaws.CompletionIsForever | runtime/leasing.py:189-200 | a completion under a lease is for good; the whole row it leaves |
| LeasingLaws.CancellationIsForever | runtime/leasing.py:278-285 | so is the last write of a cancellation |
| LeasingLaws.ParkedUntil | runtime/leasing.py:150-186 | a parked job is woken exactly by a wake-up for its queue, or for all, that comes at least the minimum age later |
| LeasingRuns.QueuedIsClaimable | runtime/leasing.py:44-67 | every queued job has budget left, so an empty claim saw no unlocked queued job |
| LeasingRuns.ParkedComesBack | runtime/leasing.py:150-186 | a park keeps the checkpoint and gives the attempt back; and at any later time, whatever happened meanwhile, a job that waits can be woken and claimed with its checkpoint and budget |
| LeasingRuns.CancelRequestNeverLost | runtime/leasing.py:120-132 | a cancellation request stays on the row through every run |
| LeasingRuns.CancellationSurvives | runtime/leasing.py:265-285 | with anything between and after the two statements: CANCELLED for good if the lease lasted, else the request is on record and the lease is dead |
| LeasingRuns.CrashWhileCancelling | runtime/leasing.py:222-262 | a job reaped in CANCELLING keeps the request and is requeued, or FAILED exactly if spent |
| LeasingRuns.ProgressIsMonotone | runtime/leasing.py:98-117 | if every holder saves forward from its own copy, the row's checkpoint never goes backwards |
| Checkpoints.NoWayBack | application/handlers/pipeline.py:77-115 | what not going backwards means, stage by stage |
| JobStoreModule.JobStore.CreateJob | runtime/leasing.py:26-41 | in place, is the creation step |
| JobStoreModule.JobStore.ClaimNext | runtime/leasing.py:44-67 | claims a first claimable unlocked row in (priority, created_at) order and stamps its columns, or does nothing if there is none; is the claim step |
| JobStoreModule.JobStore.Heartbeat | runtime/leasing.py:70-80 | renews the expiry exactly if the token matches a row that is not READY_FOR_REVIEW, CANCELLED or FAILED; is the heartbeat step |
| JobStoreModule.JobStore.FencedWrite | runtime/leasing.py:83-117 | set_phase, save_checkpoint, park, complete, fail and the cancellation writes: takes effect exactly if the fence accepts |
| JobStoreModule.JobStore.RequestCancel | runtime/leasing.py:120-132 | flags exactly a row of the organisation that is in none of those states; is the cancellation request step |
| JobStoreModule.JobStore.ResumeJob | runtime/leasing.py:135-144 | requeues exactly a PAUSED or WAITING_FOR_USER row of the organisation; is the resume step |
| JobStoreModule.JobStore.WakeParked | runtime/leasing.py:173-186 | is the wake step over all rows |
| JobStoreModule.JobStore.ReclaimExpired | runtime/leasing.py:222-262 | the two UPDATEs with the running `remaining` are one legal reclaim step; a lease that runs is left alone, and none that has lapsed is left unless the batch was full |
| JobStoreModule.TwoUpdatesAreReclaim | runtime/leasing.py:222-262 | failing rows and then requeueing from what is left equals the simultaneous step |
| Ownership.HeldAlone | runtime/leasing.py:3-9 | while a lease lasts nobody else changes the row except to ask for cancellation, and a lease held at the end was held all along |
| JobOpsModule.JobOps.Fence | runtime/worker.py:33-66 | any fenced statement: the row it finds is the one everybody else left, and it takes effect exactly if the fence accepts |
| JobOpsModule.JobOps.Checkpoint | runtime/worker.py:33-37 | row first, then ctx.checkpoint; the two agree; refused exactly when the lease is gone |
| JobOpsModule.JobOps.Park | runtime/worker.py:44-48 | after it the lease is not held; parked with the prefix if it took effect |
| JobOpsModule.JobOps.Fail | runtime/leasing.py:203-219 | recorded exactly if the lease is held when the statement finds the row; QUEUED while attempts are left, else FAILED; afterwards the lease is not held |
| JobOpsModule.JobOps.Heartbeat | runtime/worker.py:50-53 | one heartbeat statement on the table as others left it; true exactly if the lease was there |
| JobOpsModule.JobOps.Finish | runtime/leasing.py:265-285 | CANCELLING, then CANCELLED: the job ends CANCELLED if the lease is held at both statements, which is exactly `Lasts`, and always if nobody else does anything |
| JobOpsModule.JobOps.Cancel | application/handlers/pipeline.py:135-140 | a request is seen exactly if it is on the row; the lease is then gone and the request on record; it is carried out exactly if the lease lasts from there through both statements (`CarriedOut`), and always if nobody else does anything |
| PipelineHandlerModule.AddNew | application/handlers/pipeline.py:227-244 | company_ids only grows, gains exactly the found companies, once each |
| PipelineHandlerModule.PipelineHandler.Plan | application/handlers/pipeline.py:142-218 | sets the phase, then saves the plan in the discovery phase or stops; undisturbed and not refused, it goes through |
| PipelineHandlerModule.PipelineHandler.Discover | application/handlers/pipeline.py:221-251 | local copy, context and row agree at every turn; each unit is the one after the last recorded; going through means every remaining query searched, company_ids extended by exactly what they found, one cancellation check and one heartbeat per query, and the row in ENRICHING; otherwise it stopped for a cancellation, lost the lease, or something raised; undisturbed, it stops exactly if a request is on the row and a turn is left, and carries it out; going through means no remaining unit raised, and undisturbed it raises exactly if one does and no cancellation stops it |
| PipelineHandlerModule.PipelineHandler.EachCompany | application/handlers/pipeline.py:341-373 | the loop that enriching, verifying and scoring have in common: one unit, one record a turn, with or without looking for a cancellation; going through means no remaining unit raised, and one that raises ends the loop unrecorded |
| PipelineHandlerModule.PipelineHandler.Enrich | application/handlers/pipeline.py:341-373 | the same for the remaining companies, with nothing else in the checkpoint changed, ending in VERIFYING; going through means no remaining unit raised, and undisturbed it raises exactly if one does and no cancellation stops it |
| PipelineHandlerModule.PipelineHandler.Verify | application/handlers/pipeline.py:396-446 | the same, ending in SCORING; going through means no remaining unit raised, and undisturbed it raises exactly if one does and no cancellation stops it |
| PipelineHandlerModule.PipelineHandler.Score | application/handlers/pipeline.py:449-503 | the same without a cancellation check or heartbeat, ending in QUALIFYING; undisturbed it raises exactly if one of the remaining units does |
| PipelineHandlerModule.PipelineHandler.RunStage | application/handlers/manus_stage.py:46-98 | wherever the turn ends or dies, the row holds what its saves so far make of it: the answers are called collected from the second save on, their companies are on record from the third; a unit of work that raises leaves them collected and not ingested; exactly the confirmed companies are added; parks only with unfinished work; goes on with unfinished work only if a cancellation was asked for; undisturbed it raises exactly if the engine or the unit of work does |
| ManusTurns.AnswersReach | application/handlers/manus_stage.py:77-91 | over all turns of a job: an answer is called collected exactly if the second save of its turn was accepted, its company is among company_ids exactly if a third one was |
| ManusTurns.AnswerIsLostIff | application/handlers/manus_stage.py:77-91 | an answered company is called collected and yet not recorded exactly if one of its turns was stopped between the second and the third save and no other turn brought it |
| ManusTurns.LostForGood | application/handlers/pipeline.py:83-115 | an attempt that starts past Manus adds no company and leaves the answers alone |
| PipelineHandlerModule.PipelineHandler.Manus | application/handlers/pipeline.py:83-94 | goes on to ENRICHING only if Manus has finished; a cancellation seen there ends the attempt without its lease |
| PipelineHandlerModule.PipelineHandler.Handle | application/handlers/pipeline.py:77-140 | a returned outcome with the lease held means qualification was reached and did not refuse; READY_FOR_REVIEW iff a company is recorded, and exactly then the campaign was closed; fails only if something raised; in every run a cancellation is carried out exactly if a request was seen and the lease lasts from there; undisturbed, a request on the row is carried out if the handler comes to a place where it looks and Manus does not raise, and only if it comes to one; without a request it returns with its lease, parks or fails |
| WorkerModule.Worker.RunMaintenance | runtime/worker.py:97-101 | with others before either statement: reaps a batch, then wakes parked jobs of its own queues, and does nothing else to the job table |
| WorkerModule.Worker.RunOnce | runtime/worker.py:162-203 | against every interleaving: what happened is a run, checkpoints stay sound, the lease is held by nobody afterwards, and the attempt has its place in the history; it recorded no unit of work that raised; a completed job went through qualification; a failure is recorded only if something raised, and is retried while attempts are left; a job that waits is parked; a cancellation is carried out exactly if a request was seen and the lease lasts from there, and stands whatever the handler returned; LeaseLostError escapes exactly if there is no handler and the lease is gone before the failure is recorded; in quiet a cancellation is carried out as `Handle` says, and an attempt that is not cancelled completes, waits or raised |
| WorkerModule.Worker.Run | runtime/worker.py:205-211 | over any number of cycles every attempt of this worker has its place in the history they end in, and worked only what committed in its cycle |
| CancelledCampaign.CancelledButClosed | application/handlers/pipeline.py:110-115 | an attempt after which the job is CANCELLED and its campaign closed |
| CancelledCampaign.ReachesSuchAnAttempt | runtime/leasing.py:44-285 | a run from the empty table that leads to it |
| EscapedLease.ReapedThenEscapes | runtime/worker.py:182-186 | a job without a handler, reaped before the failure is recorded: LeaseLostError leaves run_once |
| EscapedLease.ReachesSuchALease | runtime/leasing.py:26-67 | a run from the empty table that leads to it |
| Pipeline.SaveKeepsSound | application/handlers/pipeline.py:221-251 | every save of the handler is at or after the checkpoint it started from |
| Pipeline.WorkedWhatItRecorded | application/handlers/pipeline.py:341-373 | within one attempt a unit is worked exactly if the record moves past it, or once unrecorded at the end |
| Pipeline.RecordedIsCommitted | application/handlers/pipeline.py:341-373 | what an attempt newly records as done it did, once, and committed: a unit of work that raises is never recorded |
| Pipeline.StaleWorksAtMostOne | application/handlers/pipeline.py:221-251 | after its last accepted save an attempt works at most one unit |
| Pipeline.LeasesAreAChain | runtime/leasing.py:44-117 | every lease is handed what the job's lease before it saw last, through crashes, zombies and reapers |
| Pipeline.FinishedAttemptFits | runtime/worker.py:162-203 | what a worker's turn guarantees, from its claim to the saves stored under its lease, is a place in the history of the job |
| Pipeline.SeenIsLatest | runtime/leasing.py:98-117 | what a lease saw last is the checkpoint last stored under it, or the one handed over |
| Pipeline.DeadAttemptFits | runtime/worker.py:162-203 | an attempt whose process dies after any statement: what it had done by then fits, and goes on to fit whatever others do |
| Pipeline.DeadAttemptHasPart | runtime/worker.py:33-37 | wherever it dies there is such a part of what it did |
| Pipeline.PlaceStays | runtime/worker.py:162-203 | once its lease is over, an attempt keeps that place however the run goes on |
| Pipeline.PlacesAreAttempts | runtime/worker.py:205-211 | if every lease of the job was taken by such a worker, be it one that returned or one that died, its attempts are the job's |
| Pipeline.ReplayGrows | application/handlers/pipeline.py:77-115 | an attempt drops no company and never comes back to planning or to Manus |
| Pipeline.WorkedOncePlusCutShort | application/handlers/pipeline.py:1-16 | over all attempts of a job in any run: a unit was worked once if recorded, plus once for each attempt cut short between working and recording it |
| Pipeline.RecordedWasCommitted | application/handlers/pipeline.py:341-373 | whatever a job's row records as done was done and committed by one of its attempts |
| Pipeline.NothingIsSkipped | application/handlers/pipeline.py:77-115 | a job in qualification has had every company enriched, verified and scored, and, unless it went by way of Manus (its query_index is then 0), every query searched |
| TruthProofs.RunKeepsInv | lead_engine/truth.py:119-331 | in every run: a fact in an OPEN conflict is CONFLICTED or STALE, a CONFLICTED fact is in one, a pair has at most one, and a VERIFIED fact has two independent domains, an explicit verification or a won conflict |
| TruthProofs.DetectedJoinsRivals | lead_engine/truth.py:204-223 | detection joins the fact with every live rival |
| TruthProofs.DetectedJoinsOnlyRivals | lead_engine/truth.py:204-223 | ... and opens no other conflict |
| TruthLaws.RecordedDeserves | lead_engine/truth.py:119-201 | after a recording the fact is CONFLICTED exactly if in an OPEN conflict, else VERIFIED exactly if it was or two sightings are at different places, else UNVERIFIED exactly if seen at all, else INFERRED; a promotion sets min(0.95, 0.5 + 0.15 * (places - 1)); the clock is restarted and the source on the trail |
| TruthLaws.TwoSightingsVerify | lead_engine/truth.py:366-392 | one value seen at two places, from the empty store: VERIFIED, at 0.65 |
| TruthLaws.RecordedLeavesOthers | lead_engine/truth.py:204-244 | every other fact stays as it is, but for live rivals, which turn CONFLICTED |
| TruthLaws.ResolvingMeans | lead_engine/truth.py:267-298 | resolving closes the row for the winner, turns the loser STALE and the winner VERIFIED at 0.85 or more unless it is in another OPEN conflict, and changes nothing else |
| TruthLaws.VerifyingMeans | lead_engine/truth.py:301-331 | confirmed: VERIFIED with its clock restarted; refuted: STALE at 0.1; else only the trail; never another place, and no other fact |
| TruthLaws.AgeingMeans | lead_engine/truth.py:400-409 | a sourced fact of the subject turns STALE exactly once its time is up |
| TruthLaws.SourceIsAddedOnce | lead_engine/truth.py:347-360 | the trail only grows, holds the source, under a known kind, and none twice |
| TruthTime.ObservingRunIsComplete | lead_engine/truth.py:119-244 | in every run of observations, refutations and snapshots any two live distinct values of a field are joined by an OPEN conflict |
| TruthTime.ConflictsNeverMissed | lead_engine/truth.py:119-244 | hence no field has two live unconflicted sourced values, at every later moment |
| TruthTime.ConfirmedCompleteIff | lead_engine/truth.py:301-331 | confirming keeps that exactly if the field has no other live value |
| TruthTime.ResolvedCompleteIff | lead_engine/truth.py:267-298 | resolving, or resolving again, keeps it exactly if the winner is in another OPEN conflict, is no longer fresh, or meets no live value besides the loser |
| TruthCases.ConfirmedLoserIsSecondTruth | lead_engine/truth.py:301-331 | a run from the empty store, for any two values seen, that ends in two live VERIFIED values and no conflict |
| TruthCases.ResolvedAgainIsSecondTruth | lead_engine/truth.py:267-298 | a run from the empty store, for any three values seen, where resolving a closed conflict again leaves two live values that no conflict joins |
| TruthTime.ChecksNeverCount | lead_engine/truth.py:366-392 | email_verify and llm_inference sources never add an observation domain |
| TruthTime.SameHostIndependentIff | lead_engine/truth.py:67-79 | exactly when two pages of one host count as two sources |
| TruthLaws.IdentityMeans | lead_engine/truth.py:67-79 | a page counts under its host however spelled, a provider's own site and a source without a page under the provider |
| TruthLaws.StripIsTrim | lead_engine/truth.py:135-139 | trimming takes white space off both ends and nothing else |
| TruthLaws.NormalValueMeans | lead_engine/truth.py:135-139 | e-mail addresses are compared in lower case, other text as it is |
| FactsStoreModule.FactsStore.RecordFact | lead_engine/truth.py:119-202 | in place, is the recording step, whose result TruthLaws.RecordedDeserves describes; rejects exactly an empty value and one without a source that is not inferred, and then changes nothing |
| FactsStoreModule.FactsStore.DetectConflicts | lead_engine/truth.py:204-244 | the loop over the rows queried beforehand is the detection function |
| FactsStoreModule.FactsStore.ResolveConflict | lead_engine/truth.py:267-298 | is the resolution step |
| FactsStoreModule.FactsStore.VerifyFact | lead_engine/truth.py:301-331 | is the verification step |
| FactsStoreModule.FactsStore.ApplyFreshness | lead_engine/truth.py:400-409 | expired sourced facts of the subject become STALE, nothing else changes |
| FactsStoreModule.FactsStore.Snapshot | lead_engine/truth.py:411-467 | every field of the subject is reported, by its best fact; VERIFIED only if that fact is VERIFIED and fresh and no fact of the field is in an OPEN conflict |
| FactsStoreModule.BestInOrder | lead_engine/truth.py:433-440 | the best fact of a field: VERIFIED before UNVERIFIED before INFERRED before CONFLICTED before STALE, then the surer, then the newer |
| ManusRuns.StepKeepsInv | infrastructure/providers/manus_engine.py:70-200 | under any mix of calls, polls, saves and starts of any number of engines, in each of them and in the snapshot: each hold is the estimate times the tasks in flight on the key; submitted + unsubmitted = the ICP's cities in order; submitted = in flight + collected + timed out |
| ManusRuns.SubmitAllIsARun | infrastructure/providers/manus_engine.py:120-148 | an uninterrupted submit is a run of single calls of its engine |
| ManusRuns.PollAllIsARun | infrastructure/providers/manus_engine.py:159-193 | an uninterrupted poll is a run of single polls of its tasks |
| ManusProofs.LeftHolds | infrastructure/providers/manus.py:69-78 | a task that leaves takes exactly its own hold, so the clamp in release never bites |
| ManusLaws.DeadlineIsKept | infrastructure/providers/manus_engine.py:159-200 | a task that has not ended is left alone up to its deadline and abandoned after it, charged exactly if the service could still say what it cost |
| ManusLaws.EndedIsCollected | infrastructure/providers/manus_engine.py:176-191 | a task that has ended is collected and charged, and counted as failed unless it succeeded and its answer was read |
| ManusLaws.PollKeepsDeadlines | infrastructure/providers/manus_engine.py:159-193 | after a whole poll exactly the tasks that have not ended and are in time are in flight, in order; the ended are collected, the others counted as timed out |
| ManusLaws.UsableMeans | infrastructure/providers/manus_engine.py:105-109 | exactly the keys not retired and not tried that can pay for one more task above the floor |
| ManusLaws.RichestIsFirst | infrastructure/providers/manus_engine.py:150-156 | the richest key is taken, the first of equals |
| ManusLaws.RefusalMeans | infrastructure/providers/manus_engine.py:136-143 | AUTH retires exactly the key, CAPACITY empties it, any other refusal leaves no trace |
| ManusLaws.RetiredForGood | infrastructure/providers/manus_engine.py:138-139 | a retired key stays retired in every run |
| ManusLaws.CallSparesRetired | infrastructure/providers/manus_engine.py:105-109 | ... and no call goes to it |
| ManusProofs.RestartIsFaithful | infrastructure/providers/manus_engine.py:70-93 | rebuilding from state() gives the same tasks, cities and holds, balances rounded |
| ManusProofs.SnapshotRoundTrip | infrastructure/providers/manus.py:81-91 | snapshot, restore, snapshot is the first snapshot, rounding and all |
| ManusProofs.Round2Near | infrastructure/providers/manus.py:81-83 | rounding moves a balance by at most half a hundredth and is idempotent |
| ManusLaws.TiesGoToEven | infrastructure/providers/manus.py:81-83 | half way between two hundredths the even one is taken |
| ManusMoney.OneCallPerKey | infrastructure/providers/manus_engine.py:127-156 | one city makes at most one create_task call per key not tried, all failing but possibly the last; hence submit terminates |
| ManusMoney.CallsPerCity | infrastructure/providers/manus_engine.py:127-156 | at most as many calls per city as there are keys |
| ManusMoney.ExhaustedIffNoCall | infrastructure/providers/manus_engine.py:98-109 | with cities left, exhausted exactly if the next submit makes no call whatever the service would say |
| ManusMoney.FinishedIff | infrastructure/providers/manus_engine.py:159-193 | nothing in flight or unsubmitted exactly if every city was collected or timed out |
| ManusMoney.SubmitPays | infrastructure/providers/manus_engine.py:120-148 | a submit pays for exactly the cities it moves to submitted, in ICP order |
| ManusPayments.RepaysIff | infrastructure/providers/manus_engine.py:127-148 | a payment is for the entry after those the paying engine has submitted, and a second one for it exactly if that engine misses an entry that has been paid for |
| ManusPayments.PaidOnceIff | application/handlers/manus_stage.py:8-10 | in every run of attempts that overlap, crash and restart: every entry is paid for at most once exactly if whoever pays misses no payment made before |
| ManusPayments.CitiesPaidOnceIff | application/handlers/manus_stage.py:8-10 | the same of cities, if the ICP names each once |
| ManusPayments.EachCityPaidOnce | application/handlers/manus_stage.py:68-72 | attempts that follow one another, each from an up-to-date snapshot, meet that condition |
| ManusPayments.CityOnRecordIsPaidOnce | infrastructure/providers/manus_engine.py:111-148 | with each city named once, a city on record with the snapshot and everybody at work is paid for exactly as often after any run |
| ManusCases.StaleRestartPaysTwice | application/handlers/manus_stage.py:68-72 | one key, one city: submit, crash before the save, restart, submit pays twice |
| ManusCases.OverlapPaysTwice | application/handlers/manus_stage.py:68-72 | two attempts from the same up-to-date snapshot, the second pays and saves: the first pays again for a city on record |
| ManusPayments.RestoredNeverRepays | infrastructure/providers/manus_engine.py:70-148 | however a run goes on: what the snapshot and every engine at work have on record when it begins is never paid for again, every later payment is for a later entry of the ICP |
| ManusPayments.RecordOnlyGrows | application/handlers/manus_stage.py:68-81 | because saves are fenced, the stored list of submitted cities only grows, whoever overlaps with whom |
| ManusFloor.SettleKeepsFloorIff | infrastructure/providers/manus.py:75-78 | settling keeps a key at its floor exactly if the cost is within the hold plus what the key had to spare |
| ManusFloor.CapacityKeepsFloorIff | infrastructure/providers/manus_engine.py:134-143 | a CAPACITY refusal leaves a key at its floor exactly if the floor is 0 and the key holds nothing |
| ManusFloor.FloorInAnyRun | infrastructure/providers/manus_engine.py:105-200 | in every run of attempts that overlap, crash and restart, with costs of any precision: in the books of everybody at work and in the snapshot every key that ever paid keeps balance - hold >= floor |
| ManusFloor.NewEngineIsSafe | infrastructure/providers/manus.py:45-51 | a new engine meets everything the run theorems start from |
| ManusCredits.CreditsInAnyRun | infrastructure/providers/manus_engine.py:159-200 | in every such run: what an engine's balances have lost is what was reported, less the reports it misses; so the two are equal exactly if it misses none |
| ManusCredits.PromptMissesNothing | infrastructure/providers/manus_engine.py:111-118 | with one attempt at a time, each from an up-to-date snapshot, nobody at work misses anything |
| ManusCredits.RestartKeepsWorth | infrastructure/providers/manus_engine.py:70-93 | an attempt starts with exactly the worth of the snapshot, if its balances come in hundredths |
| ManusDiscoveryModule.KeyLedger.Reserve | infrastructure/providers/manus.py:56-67 | holds the estimate on the richest key that can afford it, or on none |
| ManusDiscoveryModule.ManusDiscovery.SubmitCity | infrastructure/providers/manus_engine.py:127-156 | the `while True` loop is the recursive specification |
| ManusDiscoveryModule.ManusDiscovery.SubmitCities | infrastructure/providers/manus_engine.py:120-125 | the loop over a copy of the cities is the specification |
| ManusDiscoveryModule.ManusDiscovery.IsExhausted | infrastructure/providers/manus_engine.py:98-109 | true exactly with cities left and no key that is not retired able to pay for one more task |
| ManusDiscoveryModule.ManusDiscovery.PollTasks | infrastructure/providers/manus_engine.py:159-193 | the loop over a copy of the tasks is the specification; exactly the ended, successful, answered tasks are returned, in order; what stays in flight is what has not ended and is in time, and the counts of failed and timed out are theirs |
| ManusDiscoveryModule.ManusDiscovery.Restore | infrastructure/providers/manus_engine.py:70-93 | the constructor rebuilds the engine the specification restores |
| GatewayProofs.WaterfallIsFirstStop | infrastructure/providers/gateway.py:105-149 | judged on the ledger before the call: the result is that of the first adapter that is already done, unaffordable, ok or terminally failing (in classes, GatewayLaws.ExecuteMeans); all before it were called once, in order, and failed retriably; nobody after it was |
| GatewayLaws.ExecuteMeans | infrastructure/providers/gateway.py:105-149 | the same on rows and failure classes: on past adapters that can be called and fail TRANSIENT, RATE_LIMIT, CAPACITY or AMBIGUOUS, up to the first that is done, unaffordable, ok or fails otherwise |
| GatewayLaws.FailurePassesOn | infrastructure/providers/gateway.py:143-146 | after such a failure the caller does not hear of it and the next adapter is called exactly if it can be |
| GatewayLaws.AnswerIsFinal | infrastructure/providers/gateway.py:137-147 | a success, and a failure of any other class or none, is the result, and nobody after it is called |
| GatewayLaws.RecordsMean | infrastructure/providers/gateway.py:34-80 | what every call leaves on record: succeeded with its cost, uncertain exactly if ambiguous, else failed; the one that could not be paid for as failed; nothing else changes |
| GatewayProofs.StillAlike | infrastructure/providers/gateway.py:105-149 | a failed call books nothing, so `spent` read once stays exact inside the loop |
| GatewayProofs.CalledIff | infrastructure/providers/gateway.py:105-149 | an adapter whose provider is listed once is called exactly if its effect has not succeeded, the waterfall comes to it and it is not too dear |
| GatewayProofs.UncertainIsCalledAgain | infrastructure/providers/gateway.py:34-59 | the row of an uncertain effect is left as it is, and its adapter is called under that same condition |
| GatewayProofs.AmbiguousIsCalledTwice | infrastructure/providers/gateway.py:105-149 | one adapter, an ambiguous answer, the same request again: two calls for one effect |
| GatewayProofs.SucceededNeverCalledAgain | infrastructure/providers/gateway.py:34-59 | over any sequence of calls a succeeded effect stays succeeded and its adapter is never called for it again |
| GatewayProofs.BudgetNeverExceeded | infrastructure/providers/gateway.py:93-149 | over any sequence of calls, other jobs' among them: what is booked for a job stays within its fixed budget if adapters charge at most their price |
| GatewayProofs.OtherJobsUnbooked | infrastructure/providers/gateway.py:93-103 | a call for another job books nothing for this one |
| GatewayProofs.NoJobNoMemory | infrastructure/providers/gateway.py:93-103 | a call without a job is refused exactly if it alone is dearer than the whole budget |
| ProviderGatewayModule.ProviderGateway.Register | infrastructure/providers/gateway.py:86-88 | after append and stable sort: the same adapters and the new one, by priority and then registration; other capabilities untouched |
| ProviderGatewayModule.OrderIsUnique | infrastructure/providers/gateway.py:86-88 | that order of given adapters is unique |
| ProviderGatewayModule.StopIsLeast | infrastructure/providers/gateway.py:105-149 | the adapter that answers is the least by priority and registration among those that do not pass the request on |
| ProviderGatewayModule.ProviderGateway.ReserveEffect | infrastructure/providers/gateway.py:34-59 | already done exactly if a succeeded row of the key exists, else the row is reserved |
| ProviderGatewayModule.ProviderGateway.Execute | infrastructure/providers/gateway.py:105-149 | the loop with the lazily read `spent` computes the waterfall that GatewayLaws.ExecuteMeans and RecordsMean describe |
| RelayProofs.RunKeepsInv | infrastructure/events/relay.py:41-138 | under crashes anywhere and redelivery at will, one relay per event at a time: published implies an inbox row, "ok" implies the handler returned normally |
| RelayProofs.AtMostOneDeadLetter | infrastructure/events/relay.py:91-138 | an event has a dead letter exactly if its row is dead-lettered, and at most one |
| RelayProofs.ConsumedIsNotHandledAgain | infrastructure/events/relay.py:91-113 | once an event has its inbox row, the row stays and the handler is never called for the event again in any run |
| RelayProofs.StepKeepsGuaranteesIff | infrastructure/events/relay.py:91-138 | with any number of relays on an event, a step breaks a guarantee exactly if it is a failure recorded late |
| RelayProofs.RunKeepsGuaranteesIff | infrastructure/events/relay.py:41-138 | hence the guarantees hold all along a run exactly if every failure in it is recorded in time |
| RelayProofs.AloneRunIsInTime | infrastructure/events/relay.py:41-78 | one relay per event at a time is enough for that |
| RelayProofs.TwoRelaysLoseTheRow | infrastructure/events/relay.py:41-78 | two relays on one event can leave it published with no inbox row |
| RelayProofs.TwoRelaysDeadLetterTwice | infrastructure/events/relay.py:115-138 | ... or dead-letter it twice |
| RelayProofs.DeliveryIsARun | infrastructure/events/relay.py:56-78 | a crash-free delivery is a run of the atomic steps |
| RelayProofs.OutboxDrains | infrastructure/events/relay.py:41-78 | crash-free: N unpublished events are published within (max_attempts + 1) * N ticks, with at most max_attempts further failing calls each |
| RelayLaws.BatchIsTheFirst | infrastructure/events/relay.py:41-52 | a batch is exactly the first `batch_size` unpublished events |
| RelayLaws.TriedMaxTimes | infrastructure/events/relay.py:91-138 | an event that keeps failing is given to the handler exactly max_attempts times, is then, and not before, a dead letter, and is published by the next delivery without a call |
| OutboxRelayModule.OutboxRelay.Consume | infrastructure/events/relay.py:91-138 | in place, handler call, inbox row, dead letter and re-raise as specified |
| OutboxRelayModule.OutboxRelay.Tick | infrastructure/events/relay.py:41-78 | the loop over the batch is the specified tick |
| TokenClock.WindowBound | lead_engine/ratelimit.py:98-113 | with a clock that ticks once per token, at most burst + (t - s) requests are allowed in [s, t] |
| RateLimit.AllowedInTicks | lead_engine/ratelimit.py:98-113 | the limiter in seconds allows exactly what the limiter in ticks allows |
| RateLimit.WindowIsBounded | lead_engine/ratelimit.py:98-113 | for every request sequence in any order of times and every window: at most burst + rps * (t - s) allowed |
| RateLimit.BurstIsGranted | lead_engine/ratelimit.py:98-113 | on a fresh bucket exactly floor(burst) of n simultaneous requests are allowed, or all n if fewer |
| RateLimit.ServedOnceRefilled | lead_engine/ratelimit.py:98-113 | after a refusal, with nobody served in between, the next request is allowed exactly if the wait earns the deficit |
| RateLimit.RetryAfterSuffices | lead_engine/ratelimit.py:98-113 | waiting retry_after suffices, and coming back more than a second sooner does not; the wait of section 10.2.3 of RFC 9110 |
| RateLimit.SmallBucketRefusesAll | lead_engine/ratelimit.py:98-113 | with burst < 1 every request is refused |
| RateLimit.OthersDoNotMatter | lead_engine/ratelimit.py:62-68 | what others ask for never changes what a bucket grants |
| RateLimiterModule.RateLimiter.Allow | lead_engine/ratelimit.py:98-113 | in place, is the specified answer and new bucket |
| Placeholders.TranslatePlaceholders | lead_engine/db_pg.py:78-124 | the index-jumping scanner equals the three-state automaton without lookahead, for every string |
| Placeholders.FindClosing | lead_engine/db_pg.py:98-118 | from an opening quote to its closing quote or the end, doubled quotes skipped, everything in between is copied |
| Placeholders.EachCharacter | lead_engine/db_pg.py:78-124 | at every position: %s for an unquoted ?, the character itself otherwise |
| Placeholders.RewriteKeepsQuoting | lead_engine/db_pg.py:78-124 | the output is quoted like the input, has no marker left, and is longer by one character per marker |
| Placeholders.RewriteIsIdempotent | lead_engine/db_pg.py:78-124 | rewriting twice is rewriting once |
| Placeholders.PiecewiseIff | lead_engine/db_pg.py:78-124 | statements may be rewritten piece by piece exactly at cuts outside quotes |
| Placeholders.QuotedTextIsVerbatim | lead_engine/db_pg.py:78-90 | a literal (section 5.3 of ISO/IEC 9075-2) or delimited identifier (section 5.2) with any text comes through verbatim |

## Left out

- ManusFloor.FloorInAnyRun: assumes that no cost is above the estimate, that floor and estimate are whole hundredths, and that no key that ever pays is zeroed by a CAPACITY error; ManusFloor.CapacityKeepsFloorIff says what one does.
- ManusCredits.CreditsInAnyRun: assumes that no cost is above the estimate, that costs come in hundredths (a restart rounds others) and that no key is zeroed by a CAPACITY error.
- PipelineHandlerModule.PipelineHandler.RunStage: whether the engine is exhausted is given, so `companies_seen` is not counted; of the engine in the checkpoint the answers collected are kept there, the rest is in ManusRuns.
- RelayProofs.AtMostOneDeadLetter: assumes no two relays are on one event at once; RelayProofs.RunKeepsGuaranteesIff is the exact condition.
- RelayProofs.ConsumedIsNotHandledAgain: assumes the same; a relay that looked before the row was written calls the handler after it.
- LeasingRuns.ProgressIsMonotone: assumes that every holder saves forward; for the pipeline handler that is Pipeline.SaveKeepsSound.
- WorkerModule.Worker.Run: cycles without work do not sleep.
- PipelineHandlerModule.PipelineHandler.Discover: the shared list object behind `company_ids` is a value here; the source's checkpoint and local copy alias it, which no branch observes.
- Job arguments: phases are active states and outcomes terminal states, as in the shown handler. Handlers pausing a job (PAUSED, WAITING_FOR_USER) are not part of this model beyond `resume_job`.
- job_events, worker_id, started_at and the other columns nothing reads back; worker heartbeats, the doctor, and the reconciliation of uncertain effects.
- The business body of the pipeline: policy decisions, ingest, contacts, scoring and qualification records. A unit of work either commits or raises. No claim is made that a resumed run finds the same companies as an uninterrupted one.
- Truth layer: one tenant; insertion order for queries without ORDER BY; the host of a URL is a parameter (no URL parsing); lower-casing and trimming are for ASCII; visits, open questions and exports.
- Manus: the HTTP client, prompts, answer parsing and page verification; keys are distinct and the pool and estimate are the same after a restart; task ids are fresh.
- Gateway: idempotency keys are their ingredients (hashes are injective); the exception classifier is a parameter; data and error texts of results.
- Relay: envelopes and transactions inside the handler; the handler's effects are its own business.
- Rate limiter: computing the key and the exemptions from a request are parameters; exact reals stand for floats.
- Placeholder scanner: comments, dollar quoting and backslash escapes are not quotes to the source either, so a ? inside them is rewritten.
- HTTP routes, UI, SMTP and DNS probing, encryption, authentication, the legacy queue, router and registry.
