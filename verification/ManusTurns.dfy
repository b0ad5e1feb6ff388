/** application/handlers/manus_stage.py: which answers of the discovery service reach `company_ids`. A turn
    of the stage saves up to three times: the engine after `submit`, the engine after `poll`, with the
    tasks it collected, and the companies, once they are ingested. No later turn asks about a collected
    task again. */
module ManusTurns {
  import opened Common
  import opened Checkpoints
  import opened Pipeline

  /** The answered companies have been added, in order, once each. */
  ghost predicate Ingested(before: Checkpoint, verified: seq<Option<nat>>, after: Checkpoint) {
    && after == before.(companies := after.companies, answers := before.answers + verified)
    && before.companies <= after.companies
    && forall c :: c in after.companies <==> c in before.companies || Some(c) in verified
  }

  /** What the row holds after `saves` accepted saves of a turn that was answered with `verified`. */
  ghost predicate Turned(before: Checkpoint, verified: seq<Option<nat>>, saves: nat, after: Checkpoint) {
    match saves
    case 0 => after == before
    case 1 => after == before
    case 2 => after == before.(answers := before.answers + verified)
    case 3 => Ingested(before, verified, after)
    case _ => false
  }

  datatype Turn = Turn(verified: seq<Option<nat>>, saves: nat)

  /** Turn after turn of one job, whichever attempt makes it: each starts from what the one before left. */
  ghost predicate Follow(cks: seq<Checkpoint>, turns: seq<Turn>) {
    && |cks| == |turns| + 1
    && forall i | 0 <= i < |turns| :: Turned(cks[i], turns[i].verified, turns[i].saves, cks[i + 1])
  }

  ghost predicate Collected(turns: seq<Turn>, c: nat) {
    exists i | 0 <= i < |turns| :: turns[i].saves >= 2 && Some(c) in turns[i].verified
  }

  ghost predicate Brought(turns: seq<Turn>, c: nat) {
    exists i | 0 <= i < |turns| :: turns[i].saves == 3 && Some(c) in turns[i].verified
  }

  /** A turn answered with `c` was stopped after its second save and before its third. */
  ghost predicate CutOff(turns: seq<Turn>, c: nat) {
    exists i | 0 <= i < |turns| :: turns[i].saves == 2 && Some(c) in turns[i].verified
  }

  lemma OneMoreTurn(turns: seq<Turn>, c: nat)
    requires turns != []
    ensures var before, last := turns[..|turns| - 1], turns[|turns| - 1];
            && (Collected(turns, c) <==> Collected(before, c) || (last.saves >= 2 && Some(c) in last.verified))
            && (Brought(turns, c) <==> Brought(before, c) || (last.saves == 3 && Some(c) in last.verified))
  {
    var before, last := turns[..|turns| - 1], turns[|turns| - 1];
    assert turns == before + [last];
    forall i | 0 <= i < |before| ensures before[i] == turns[i] {
    }
  }

  /** After any turns an answer is among those called collected exactly if the second save of its turn
      was accepted, and its company among `company_ids` exactly if a third one was. */
  lemma {:induction false} AnswersReach(cks: seq<Checkpoint>, turns: seq<Turn>, c: nat)
    requires Follow(cks, turns)
    ensures Some(c) in cks[|turns|].answers <==> Some(c) in cks[0].answers || Collected(turns, c)
    ensures c in cks[|turns|].companies <==> c in cks[0].companies || Brought(turns, c)
  {
    if turns != [] {
      var n := |turns| - 1;
      AnswersReach(cks[..n + 1], turns[..n], c);
      OneMoreTurn(turns, c);
      assert Turned(cks[n], turns[n].verified, turns[n].saves, cks[n + 1]);
    }
  }

  /** So from the plan on an answered company is called collected and yet not among `company_ids` exactly
      if a turn that was answered with it was stopped between its second and its third save, and no other
      turn has brought it. */
  lemma AnswerIsLostIff(cks: seq<Checkpoint>, turns: seq<Turn>, c: nat)
    requires Follow(cks, turns) && cks[0].answers == [] && cks[0].companies == []
    ensures Some(c) in cks[|turns|].answers && c !in cks[|turns|].companies <==> CutOff(turns, c) && !Brought(turns, c)
  {
    AnswersReach(cks, turns, c);
    forall i | 0 <= i < |turns| ensures turns[i].saves <= 3 {
      assert Turned(cks[i], turns[i].verified, turns[i].saves, cks[i + 1]);
    }
  }

  /** And it is lost for good: an attempt that starts past Manus leaves companies and answers alone. */
  lemma {:induction false} LostForGood(from: Checkpoint, events: seq<Event>)
    requires Sound(from) && Replay(from, events).Some?
    requires from.stage in {InEnrichment, InVerification, InScoring, InQualification}
    ensures var ck := Replay(from, events).value.ck;
            && ck.companies == from.companies && ck.answers == from.answers
            && ck.stage in {InEnrichment, InVerification, InScoring, InQualification}
  {
    if events != [] {
      LostForGood(from, events[..|events| - 1]);
      ReplayIsWellPlaced(from, events[..|events| - 1]);
    }
  }
}
