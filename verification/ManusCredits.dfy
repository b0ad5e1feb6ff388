/** Where the credits went. In any run every engine's balances, and the snapshot's, have lost what was
    reported, less the reports it does not know of: those of attempts that overlap with it, and those
    made after the snapshot it started from. */
module ManusCredits {
  import opened Common
  import opened Manus
  import opened ManusProofs
  import opened ManusRuns
  import opened ManusFloor
  import ManusPayments

  function Worth(e: Engine): real
    requires LedgerOk(e.ledger)
  {
    Total(e.ledger.keys, e.ledger.balances)
  }

  // ---------------------------------------------------------------- one step of one engine

  /** A call that is not refused for CAPACITY leaves the balances alone. */
  lemma AttemptSpendsNothing(s: System, reply: Option<ErrorKind>, city: string, key: string, now: real)
    requires LedgerOk(s.e.ledger) && key in s.e.ledger.keys && reply != Some(Capacity)
    ensures var s' := Attempt(s, _ => reply, city, key, now);
            s'.e.ledger == s.e.ledger.(held := s'.e.ledger.held) && s'.e.estimate == s.e.estimate
  {
  }

  lemma CallSpendsNothing(w: World, k: nat, reply: Option<ErrorKind>, now: real, cities: seq<string>)
    requires k in w.hands && EngineOk(w.hands[k].e) && reply != Some(Capacity)
    ensures var w' := Called(w, k, reply, now, cities);
            && k in w'.hands && w'.hands == w.hands[k := w'.hands[k]] && w'.stored == w.stored
            && w'.hands.Keys == w.hands.Keys && w'.reported == w.reported
            && w'.hands[k].e.ledger == w.hands[k].e.ledger.(held := w'.hands[k].e.ledger.held)
            && w'.hands[k].e.estimate == w.hands[k].e.estimate
  {
    var s := SystemOf(w, k).(e := Begun(w.hands[k].e, cities));
    var usable := Usable(s.e, w.hands[k].tried, 0);
    if s.e.unsubmitted == [] {
      assert w.hands == w.hands[k := w.hands[k]];
    } else if usable != [] {
      AttemptSpendsNothing(s, reply, s.e.unsubmitted[0], Richest(s.e.ledger, usable), now);
    }
  }

  lemma PollCharges(s: System, o: Engine, i: nat, answer: Reply, now: real, payers: iset<nat>)
    requires Paired(s.e, o, s.calls, payers) && i < |s.e.tasks| && TasksOk(s.e, s.minted)
    requires Credits(answer) <= s.e.estimate && Whole(Credits(answer)) && WholeBooks(s.e)
    ensures var s' := PollTask(s, s.e.tasks[i], answer, now);
            && EngineOk(s'.e) && WholeBooks(s'.e)
            && Worth(s'.e) + s'.reported == Worth(s.e) + s.reported
  {
    PollTaskKeepsKeys(s, s.e.tasks[i], answer, now);
    TaskIsCovered(s.e, s.calls, s.minted, i);
    SettleCharges(s.e.ledger, s.e.tasks[i].key, s.e.estimate, Credits(answer));
  }

  lemma SettleCharges(l: Ledger, p: nat, estimate: real, credits: real)
    requires LedgerOk(l) && p < |l.keys|
    requires l.held[l.keys[p]] >= estimate >= credits && l.balances[l.keys[p]] >= credits && Whole(credits)
    requires forall k | k in l.keys :: Whole(l.balances[k])
    ensures var l' := Settle(l, l.keys[p], estimate, credits);
            && LedgerOk(l') && (forall k | k in l.keys :: Whole(l'.balances[k]))
            && Total(l.keys, l'.balances) + credits == Total(l.keys, l.balances)
  {
    SettleTakesCost(l, p, estimate, credits);
    TotalUpdate(l.keys, l.balances, p, l.balances[l.keys[p]] - credits);
    WholeSum(l.balances[l.keys[p]], credits);
  }

  /** An attempt starts with the balances of the snapshot, if they come in hundredths. */
  lemma RestartKeepsWorth(o: Engine)
    requires EngineOk(o) && HoldsExact(o) && WholeBooks(o)
    ensures EngineOk(Restarted(o)) && WholeBooks(Restarted(o)) && Worth(Restarted(o)) == Worth(o)
  {
    RestartIsFaithful(o);
    forall k | k in o.ledger.keys ensures Restarted(o).ledger.balances[k] == o.ledger.balances[k] {
      WholeRound(o.ledger.balances[k]);
    }
    TotalOf(o.ledger.keys, Restarted(o).ledger.balances, o.ledger.balances);
  }

  // ---------------------------------------------------------------- runs

  /** Costs within the estimate and in hundredths; no CAPACITY refusal. */
  ghost predicate Honest(op: Op, estimate: real) {
    && (op.DoCall? ==> op.reply != Some(Capacity))
    && (op.DoPoll? ==> Credits(op.answer) <= estimate && Whole(Credits(op.answer)))
  }

  ghost predicate HonestRun(ops: seq<Op>, estimate: real) {
    forall i | 0 <= i < |ops| :: Honest(ops[i], estimate)
  }

  ghost predicate AllWhole(w: World)
    requires EnginesOk(w)
  {
    WholeBooks(w.stored) && forall k | k in w.hands :: WholeBooks(w.hands[k].e)
  }

  predicate AnyKey(p: nat) {
    true
  }

  /** Any key may pay, as none is refused for CAPACITY. */
  ghost function Anybody(): iset<nat> {
    iset p: nat | AnyKey(p)
  }

  lemma HonestIsFrugal(w: World, op: Op, cities: seq<string>)
    requires WorldOk(w, cities) && Honest(op, w.stored.estimate)
    ensures Frugal(w, op, cities, Anybody())
  {
    match op
    case DoCall(k, reply, now) =>
      if k in w.hands {
        CallAddsReply(w, k, reply, now, cities);
      }
    case DoPoll(k, task, answer, now) =>
      if k in w.hands && task < |w.hands[k].e.tasks| {
        PollTaskKeepsInv(SystemOf(w, k), task, answer, now, cities);
      }
    case DoSave(_) =>
    case DoStart =>
    case DoStop(_) =>
  }

  lemma CallAddsReply(w: World, k: nat, reply: Option<ErrorKind>, now: real, cities: seq<string>)
    requires k in w.hands && EngineOk(w.hands[k].e)
    ensures forall i | |w.calls| <= i < |Called(w, k, reply, now, cities).calls| ::
              Called(w, k, reply, now, cities).calls[i].error == reply
              && AnyKey(Called(w, k, reply, now, cities).calls[i].key)
  {
  }

  /** The reported credits that each engine at work does not know of, and that the snapshot does not. */
  datatype Missing = Missing(hands: map<nat, real>, stored: real)

  /** A poll is missed by everybody but its engine; a save hands what its attempt misses to the snapshot,
      and the start of an attempt takes over what the snapshot misses. */
  ghost function Missed(w: World, ops: seq<Op>, cities: seq<string>): (m: Missing)
    requires WorldOk(w, cities)
    ensures m.hands.Keys == Run(w, ops, cities).hands.Keys
  {
    if ops == [] then Missing(map k | k in w.hands :: 0.0, 0.0)
    else
      var w1 := Run(w, ops[..|ops| - 1], cities);
      Misses(w1, Missed(w, ops[..|ops| - 1], cities), ops[|ops| - 1], cities)
  }

  ghost function Misses(w: World, m: Missing, op: Op, cities: seq<string>): (m': Missing)
    requires EnginesOk(w) && m.hands.Keys == w.hands.Keys
    ensures m'.hands.Keys == Step(w, op, cities).hands.Keys
  {
    match op
    case DoCall(_, _, _) => m
    case DoPoll(k, _, _, _) =>
      MissedBy(m, k, Step(w, op, cities).reported - w.reported)
    case DoSave(k) => if k in w.hands && k + 1 == w.started then m.(stored := m.hands[k]) else m
    case DoStart => m.(hands := m.hands[w.started := m.stored])
    case DoStop(k) => m.(hands := m.hands - {k})
  }

  /** Everybody's balances are down from `worth` by what has been reported beyond `reported`, except for
      what they miss. */
  ghost predicate Balanced(w: World, m: Missing, worth: real, reported: real)
    requires EnginesOk(w)
  {
    && m.hands.Keys == w.hands.Keys
    && Worth(w.stored) == worth - (w.reported - reported - m.stored)
    && forall k | k in w.hands :: Worth(w.hands[k].e) == worth - (w.reported - reported - m.hands[k])
  }

  /** What the others miss after `more` has been reported to hand `k`. */
  function MissedBy(m: Missing, k: nat, more: real): Missing {
    Missing(map j | j in m.hands :: if j == k then m.hands[j] else m.hands[j] + more, m.stored + more)
  }

  /** Only the engine of hand `k` is another, and its balances by what was reported. */
  ghost predicate OneCharged(w: World, w': World, k: nat)
    requires EnginesOk(w) && EnginesOk(w')
  {
    && k in w.hands && k in w'.hands && w'.hands == w.hands[k := w'.hands[k]] && w'.stored == w.stored
    && WholeBooks(w'.hands[k].e) && Worth(w'.hands[k].e) + w'.reported == Worth(w.hands[k].e) + w.reported
  }

  lemma OneHandBalances(w: World, w': World, k: nat, m: Missing, worth: real, reported: real)
    requires EnginesOk(w) && EnginesOk(w') && AllWhole(w) && Balanced(w, m, worth, reported) && OneCharged(w, w', k)
    ensures AllWhole(w') && Balanced(w', MissedBy(m, k, w'.reported - w.reported), worth, reported)
  {
    forall j | j in w'.hands
      ensures WholeBooks(w'.hands[j].e)
      ensures var m' := MissedBy(m, k, w'.reported - w.reported);
              Worth(w'.hands[j].e) == worth - (w'.reported - reported - m'.hands[j])
    {
      assert j != k ==> w'.hands[j] == w.hands[j];
    }
  }

  lemma SameWorth(e: Engine, e': Engine)
    requires EngineOk(e) && EngineOk(e') && WholeBooks(e)
    requires e'.ledger == e.ledger.(held := e'.ledger.held)
    ensures WholeBooks(e') && Worth(e') == Worth(e)
  {
  }

  /** A call changes one engine, and not its balances. */
  lemma CallFacts(w: World, k: nat, reply: Option<ErrorKind>, now: real, cities: seq<string>)
    requires EnginesOk(w) && k in w.hands && EnginesOk(Called(w, k, reply, now, cities))
    requires reply != Some(Capacity) && WholeBooks(w.hands[k].e)
    ensures var w' := Called(w, k, reply, now, cities);
            OneCharged(w, w', k) && w'.reported == w.reported
  {
    CallSpendsNothing(w, k, reply, now, cities);
    SameWorth(w.hands[k].e, Called(w, k, reply, now, cities).hands[k].e);
  }

  lemma CallBalances(w: World, w': World, k: nat, m: Missing, worth: real, reported: real)
    requires EnginesOk(w) && EnginesOk(w') && AllWhole(w) && Balanced(w, m, worth, reported) && OneCharged(w, w', k)
    requires w'.reported == w.reported
    ensures AllWhole(w') && Balanced(w', m, worth, reported)
  {
    OneHandBalances(w, w', k, m, worth, reported);
    IdlePoll(m, k);
  }

  /** A poll changes one engine, and its balances by what is reported. */
  lemma PollFacts(w: World, k: nat, task: nat, answer: Reply, now: real)
    requires EnginesOk(w) && k in w.hands && task < |w.hands[k].e.tasks| && EnginesOk(Polled(w, k, task, answer, now))
    requires Paired(w.hands[k].e, w.stored, w.calls, Anybody()) && TasksOk(w.hands[k].e, w.minted)
    requires Credits(answer) <= w.stored.estimate && Whole(Credits(answer)) && WholeBooks(w.hands[k].e)
    ensures OneCharged(w, Polled(w, k, task, answer, now), k)
  {
    PollCharges(SystemOf(w, k), w.stored, task, answer, now, Anybody());
  }

  lemma StartBalances(w: World, m: Missing, worth: real, reported: real, hand: Hand)
    requires EnginesOk(w) && EngineOk(hand.e) && AllWhole(w) && Balanced(w, m, worth, reported)
    requires WholeBooks(hand.e) && Worth(hand.e) == Worth(w.stored)
    ensures var w' := w.(hands := w.hands[w.started := hand], started := w.started + 1);
            EnginesOk(w') && AllWhole(w') && Balanced(w', m.(hands := m.hands[w.started := m.stored]), worth, reported)
  {
  }

  lemma IdlePoll(m: Missing, k: nat)
    ensures MissedBy(m, k, 0.0) == m
  {
    assert MissedBy(m, k, 0.0).hands == m.hands;
  }

  lemma SaveBalances(w: World, m: Missing, worth: real, reported: real, k: nat)
    requires EnginesOk(w) && AllWhole(w) && Balanced(w, m, worth, reported) && k in w.hands
    ensures var w' := w.(stored := w.hands[k].e);
            EnginesOk(w') && AllWhole(w') && Balanced(w', m.(stored := m.hands[k]), worth, reported)
  {
  }

  lemma StopBalances(w: World, m: Missing, worth: real, reported: real, k: nat)
    requires EnginesOk(w) && AllWhole(w) && Balanced(w, m, worth, reported)
    ensures var w' := w.(hands := w.hands - {k});
            EnginesOk(w') && AllWhole(w') && Balanced(w', m.(hands := m.hands - {k}), worth, reported)
  {
  }

  lemma CallStepBalances(w: World, op: Op, cities: seq<string>, m: Missing, worth: real, reported: real)
    requires EnginesOk(w) && EnginesOk(Step(w, op, cities)) && AllWhole(w) && Balanced(w, m, worth, reported)
    requires op.DoCall? && Honest(op, w.stored.estimate)
    ensures AllWhole(Step(w, op, cities)) && Balanced(Step(w, op, cities), Misses(w, m, op, cities), worth, reported)
  {
    if op.k in w.hands {
      CallFacts(w, op.k, op.reply, op.now, cities);
      CallBalances(w, Called(w, op.k, op.reply, op.now, cities), op.k, m, worth, reported);
    }
  }

  lemma PollStepBalances(w: World, op: Op, cities: seq<string>, m: Missing, worth: real, reported: real)
    requires EnginesOk(w) && EnginesOk(Step(w, op, cities)) && AllWhole(w) && Balanced(w, m, worth, reported)
    requires op.DoPoll? && Honest(op, w.stored.estimate)
    requires op.k in w.hands ==>
               && Paired(w.hands[op.k].e, w.stored, w.calls, Anybody()) && TasksOk(w.hands[op.k].e, w.minted)
    ensures AllWhole(Step(w, op, cities)) && Balanced(Step(w, op, cities), Misses(w, m, op, cities), worth, reported)
  {
    if op.k in w.hands && op.task < |w.hands[op.k].e.tasks| {
      PollFacts(w, op.k, op.task, op.answer, op.now);
      OneHandBalances(w, Polled(w, op.k, op.task, op.answer, op.now), op.k, m, worth, reported);
    } else {
      IdlePoll(m, op.k);
    }
  }

  lemma StepBalances(w: World, op: Op, cities: seq<string>, m: Missing, worth: real, reported: real)
    requires EnginesOk(w) && EnginesOk(Step(w, op, cities)) && AllWhole(w) && HoldsExact(w.stored)
    requires Honest(op, w.stored.estimate) && Balanced(w, m, worth, reported)
    requires forall k | k in w.hands ::
               Paired(w.hands[k].e, w.stored, w.calls, Anybody()) && TasksOk(w.hands[k].e, w.minted)
    ensures AllWhole(Step(w, op, cities)) && Balanced(Step(w, op, cities), Misses(w, m, op, cities), worth, reported)
  {
    match op
    case DoCall(_, _, _) => CallStepBalances(w, op, cities, m, worth, reported);
    case DoPoll(_, _, _, _) => PollStepBalances(w, op, cities, m, worth, reported);
    case _ => SilentStepBalances(w, op, cities, m, worth, reported);
  }

  /** A step without a call or a poll. */
  lemma SilentStepBalances(w: World, op: Op, cities: seq<string>, m: Missing, worth: real, reported: real)
    requires EnginesOk(w) && EnginesOk(Step(w, op, cities)) && AllWhole(w) && HoldsExact(w.stored)
    requires Balanced(w, m, worth, reported) && !op.DoCall? && !op.DoPoll?
    ensures AllWhole(Step(w, op, cities)) && Balanced(Step(w, op, cities), Misses(w, m, op, cities), worth, reported)
  {
    match op
    case DoSave(k) =>
      if k in w.hands && k + 1 == w.started {
        SaveBalances(w, m, worth, reported, k);
      }
    case DoStart =>
      RestartKeepsWorth(w.stored);
      StartBalances(w, m, worth, reported, Hand(Restarted(w.stored), {}));
    case DoStop(k) => StopBalances(w, m, worth, reported, k);
  }

  /** What the steps above need of the invariant. */
  lemma OkEngines(w: World, cities: seq<string>)
    requires WorldOk(w, cities)
    ensures EnginesOk(w) && HoldsExact(w.stored) && forall k | k in w.hands :: TasksOk(w.hands[k].e, w.minted)
  {
  }

  lemma HonestBefore(ops: seq<Op>, estimate: real)
    requires ops != [] && HonestRun(ops, estimate)
    ensures HonestRun(ops[..|ops| - 1], estimate) && Honest(ops[|ops| - 1], estimate)
  {
    var before := ops[..|ops| - 1];
    forall i | 0 <= i < |before| ensures Honest(before[i], estimate) {
      assert before[i] == ops[i];
    }
  }

  /** Credit conservation in every run, of attempts that overlap, crash and start from snapshots of any
      age: what an engine's balances have lost is what was reported, less the reports it misses; so the
      two are equal exactly for an engine that misses none. */
  lemma {:induction false} CreditsInAnyRun(w: World, ops: seq<Op>, cities: seq<string>)
    requires WorldOk(w, cities) && Safe(w, Anybody()) && AllWhole(w) && HonestRun(ops, w.stored.estimate)
    requires forall k | k in w.hands :: Worth(w.hands[k].e) == Worth(w.stored)
    ensures var w', m := Run(w, ops, cities), Missed(w, ops, cities);
            && Safe(w', Anybody()) && AllWhole(w') && w'.stored.estimate == w.stored.estimate
            && Balanced(w', m, Worth(w.stored), w.reported)
            && forall k | k in w'.hands ::
                 Worth(w.stored) - Worth(w'.hands[k].e) == w'.reported - w.reported <==> m.hands[k] == 0.0
  {
    if ops != [] {
      var before, op := ops[..|ops| - 1], ops[|ops| - 1];
      var w1 := Run(w, before, cities);
      HonestBefore(ops, w.stored.estimate);
      CreditsInAnyRun(w, before, cities);
      HonestIsFrugal(w1, op, cities);
      StepKeepsSafe(w1, op, cities, Anybody());
      OkEngines(w1, cities);
      StepKeepsInv(w1, op, cities);
      OkEngines(Step(w1, op, cities), cities);
      StepBalances(w1, op, cities, Missed(w, before, cities), Worth(w.stored), w.reported);
    }
  }

  /** With one attempt at a time, each from an up-to-date snapshot, nobody at work misses anything. */
  ghost predicate NothingMissed(w: World, m: Missing) {
    && m.hands.Keys == w.hands.Keys
    && (forall j, k | j in w.hands && k in w.hands :: j == k)
    && (forall k | k in w.hands :: m.hands[k] == 0.0)
    && (w.hands == map[] ==> m.stored == 0.0)
  }

  lemma {:induction false} PromptMissesNothing(w: World, ops: seq<Op>, cities: seq<string>)
    requires WorldOk(w, cities) && Safe(w, Anybody()) && AllWhole(w) && HonestRun(ops, w.stored.estimate)
    requires (forall k | k in w.hands :: Worth(w.hands[k].e) == Worth(w.stored))
    requires (forall j, k | j in w.hands && k in w.hands :: j == k) && ManusPayments.PromptRun(w, ops, cities)
    ensures NothingMissed(Run(w, ops, cities), Missed(w, ops, cities))
  {
    if ops != [] {
      var before, op := ops[..|ops| - 1], ops[|ops| - 1];
      HonestBefore(ops, w.stored.estimate);
      PromptMissesNothing(w, before, cities);
      CreditsInAnyRun(w, before, cities);
      PromptStep(Run(w, before, cities), Missed(w, before, cities), op, cities, Worth(w.stored), w.reported);
    }
  }

  lemma PromptStep(w: World, m: Missing, op: Op, cities: seq<string>, worth: real, reported: real)
    requires EnginesOk(w) && NothingMissed(w, m) && Balanced(w, m, worth, reported) && ManusPayments.Prompt(w, op)
    ensures NothingMissed(Step(w, op, cities), Misses(w, m, op, cities))
  {
    if op.DoStop? && op.k in w.hands {
      assert Step(w, op, cities).hands == map[];
      assert Worth(w.stored) == Worth(w.hands[op.k].e);
    }
    if op.DoPoll? && w.hands == map[] {
      assert Step(w, op, cities) == w;
    }
  }
}
