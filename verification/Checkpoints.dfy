/** The execution state a pipeline job keeps in its row, and how far it has got.

    The checkpoint is a dictionary in the source; an index key that is absent reads as 0, and an
    empty dictionary reads as phase PLANNING. `answers` stands for what the Manus tasks that the stored
    engine calls collected have answered: each company by the id that ingesting it gives, if any. */
module Checkpoints {
  import opened Common

  datatype Stage =
    | InPlanning | InManus | InDiscovery | InEnrichment | InVerification
    | InScoring | InQualification | InCancelling | Finished

  datatype Checkpoint = Checkpoint(
    stage: Stage,
    queries: nat,
    companies: seq<nat>,
    answers: seq<Option<nat>>,
    queryIndex: nat,
    enrichIndex: nat,
    verifyIndex: nat,
    scoreIndex: nat)

  const EMPTY := Checkpoint(InPlanning, 0, [], [], 0, 0, 0, 0)

  function Rank(s: Stage): nat {
    match s
    case InPlanning => 0
    case InManus => 1
    case InDiscovery => 1
    case InEnrichment => 2
    case InVerification => 3
    case InScoring => 4
    case InQualification => 5
    case InCancelling => 6
    case Finished => 6
  }

  /** Units finished inside the current stage. */
  function Done(ck: Checkpoint): nat {
    match ck.stage
    case InDiscovery => ck.queryIndex
    case InEnrichment => ck.enrichIndex
    case InVerification => ck.verifyIndex
    case InScoring => ck.scoreIndex
    case _ => 0
  }

  /** `b` is at or after `a`: a later stage, or the same stage with at least as many units done. */
  predicate AtOrAfter(a: Checkpoint, b: Checkpoint) {
    Rank(a.stage) < Rank(b.stage) || (Rank(a.stage) == Rank(b.stage) && Done(a) <= Done(b))
  }

  /** Who is at or after a checkpoint has not gone back: to no earlier stage, and within a stage to no
      unit done before. */
  lemma NoWayBack(a: Checkpoint, b: Checkpoint)
    requires AtOrAfter(a, b)
    ensures match b.stage
            case InPlanning => a.stage == InPlanning
            case InManus => a.stage in {InPlanning, InManus} || (a.stage == InDiscovery && a.queryIndex == 0)
            case InDiscovery =>
              a.stage in {InPlanning, InManus} || (a.stage == InDiscovery && a.queryIndex <= b.queryIndex)
            case InEnrichment =>
              a.stage in {InPlanning, InManus, InDiscovery}
              || (a.stage == InEnrichment && a.enrichIndex <= b.enrichIndex)
            case InVerification =>
              a.stage in {InPlanning, InManus, InDiscovery, InEnrichment}
              || (a.stage == InVerification && a.verifyIndex <= b.verifyIndex)
            case InScoring =>
              a.stage in {InPlanning, InManus, InDiscovery, InEnrichment, InVerification}
              || (a.stage == InScoring && a.scoreIndex <= b.scoreIndex)
            case InQualification => a.stage !in {InCancelling, Finished}
            case _ => true
  {
  }
}
