/** The floor. If no reported cost is above the estimate, and no key that ever pays is emptied by a
    CAPACITY refusal, then every key that ever paid stays at or above the floor in the books of every
    engine, however the attempts of a job overlap and whatever snapshot they start from. */
module ManusFloor {
  import opened Common
  import opened Manus
  import opened ManusProofs
  import opened ManusRuns

  // ---------------------------------------------------------------- hundredths

  /** A whole number of hundredths: what a rounded balance is, and what rounding leaves alone. */
  predicate Whole(x: real) {
    (x * 100.0).Floor as real == x * 100.0
  }

  lemma WholeFrom(x: real, n: int)
    requires x * 100.0 == n as real
    ensures Whole(x)
  {
  }

  lemma WholeSum(a: real, b: real)
    requires Whole(a) && Whole(b)
    ensures Whole(a + b) && Whole(a - b)
  {
    var m, n := (a * 100.0).Floor, (b * 100.0).Floor;
    WholeFrom(a + b, m + n);
    WholeFrom(a - b, m - n);
  }

  lemma {:induction false} WholeTimes(x: real, n: nat)
    requires Whole(x)
    ensures Whole(Times(x, n))
  {
    if n > 0 {
      WholeTimes(x, n - 1);
      WholeSum(Times(x, n - 1), x);
    }
  }

  lemma WholeRound(x: real)
    requires Whole(x)
    ensures Round2(x) == x
  {
  }

  lemma RoundKeepsBound(x: real, bound: real)
    requires Whole(bound) && x >= bound
    ensures Round2(x) >= bound
  {
    Round2AtLeast(x, (bound * 100.0).Floor);
  }

  // ---------------------------------------------------------------- the floor

  /** A task was started on the key at position `p` at some time. */
  ghost predicate Payer(calls: seq<Call>, p: nat) {
    exists i | 0 <= i < |calls| :: calls[i].error.None? && calls[i].key == p
  }

  lemma PayerAppend(calls: seq<Call>, c: Call, p: nat)
    ensures Payer(calls + [c], p) <==> Payer(calls, p) || (c.error.None? && c.key == p)
  {
    var more := calls + [c];
    assert more[|calls|] == c;
    if Payer(calls, p) {
      var i :| 0 <= i < |calls| && calls[i].error.None? && calls[i].key == p;
      assert more[i] == calls[i];
    }
    if Payer(more, p) {
      var i :| 0 <= i < |more| && more[i].error.None? && more[i].key == p;
      assert i < |calls| ==> calls[i] == more[i];
    }
  }

  ghost predicate FloorKept(e: Engine, calls: seq<Call>)
    requires EngineOk(e)
  {
    && (forall p | 0 <= p < |e.ledger.keys| && Payer(calls, p) ::
          Available(e.ledger, e.ledger.keys[p]) >= e.ledger.floor)
    && (forall t | t in e.tasks :: Payer(calls, t.key))
  }

  function Total(keys: seq<string>, balances: map<string, real>): real
    requires forall k | k in keys :: k in balances
  {
    if keys == [] then 0.0 else Total(keys[..|keys| - 1], balances) + balances[keys[|keys| - 1]]
  }

  lemma {:induction false} TotalUpdate(keys: seq<string>, balances: map<string, real>, p: nat, v: real)
    requires (forall k | k in keys :: k in balances) && p < |keys|
    requires forall i, j | 0 <= i < j < |keys| :: keys[i] != keys[j]
    ensures Total(keys, balances[keys[p] := v]) == Total(keys, balances) - balances[keys[p]] + v
  {
    var n := |keys| - 1;
    if p == n {
      TotalOf(keys[..n], balances, balances[keys[p] := v]);
    } else {
      TotalUpdate(keys[..n], balances, p, v);
    }
  }

  lemma {:induction false} TotalOf(keys: seq<string>, a: map<string, real>, b: map<string, real>)
    requires forall k | k in keys :: k in a && k in b && a[k] == b[k]
    ensures Total(keys, a) == Total(keys, b)
  {
    if keys != [] {
      TotalOf(keys[..|keys| - 1], a, b);
    }
  }

  ghost predicate WholeBooks(e: Engine)
    requires EngineOk(e)
  {
    forall k | k in e.ledger.keys :: Whole(e.ledger.balances[k])
  }

  /** One engine, against every payment ever made. */
  ghost predicate Covered(e: Engine, calls: seq<Call>) {
    && EngineOk(e) && HoldsExact(e) && e.estimate >= 0.0 && e.ledger.floor >= 0.0
    && Whole(e.ledger.floor) && Whole(e.estimate)
    && FloorKept(e, calls)
  }

  /** Two engines over the same keys: one of the `payers` that has not paid yet has the same balance in
      both, in hundredths. */
  ghost predicate Agree(e: Engine, o: Engine, calls: seq<Call>, payers: iset<nat>)
    requires EngineOk(e) && EngineOk(o)
  {
    && o.ledger.keys == e.ledger.keys && o.ledger.floor == e.ledger.floor && o.estimate == e.estimate
    && forall p | 0 <= p < |e.ledger.keys| && p in payers && !Payer(calls, p) ::
         e.ledger.balances[e.ledger.keys[p]] == o.ledger.balances[e.ledger.keys[p]]
         && Whole(e.ledger.balances[e.ledger.keys[p]])
  }

  ghost predicate Paired(e: Engine, o: Engine, calls: seq<Call>, payers: iset<nat>) {
    Covered(e, calls) && Covered(o, calls) && Agree(e, o, calls, payers)
  }

  // ---------------------------------------------------------------- submit

  /** A key without tasks holds nothing. */
  lemma NothingHeld(e: Engine, calls: seq<Call>, p: nat)
    requires Covered(e, calls) && p < |e.ledger.keys| && !Payer(calls, p)
    ensures e.ledger.held[e.ledger.keys[p]] == 0.0
  {
    NoneInFlight(e.tasks, p);
  }

  lemma {:induction false} NoneInFlight(tasks: seq<Task>, p: nat)
    requires forall t | t in tasks :: t.key != p
    ensures InFlightOn(tasks, p) == 0
  {
    if tasks != [] {
      NoneInFlight(tasks[..|tasks| - 1], p);
    }
  }

  /** Whoever watches a key pay for the first time has it above the floor, too: its balance is the same. */
  lemma PaymentKeepsCovered(o: Engine, calls: seq<Call>, c: Call)
    requires Covered(o, calls)
    requires c.error.None? && c.key < |o.ledger.keys| && !Payer(calls, c.key) ==>
               o.ledger.balances[o.ledger.keys[c.key]] - o.estimate >= o.ledger.floor
    ensures Covered(o, calls + [c])
  {
    forall p: nat { PayerAppend(calls, c, p); }
    forall p | 0 <= p < |o.ledger.keys| && Payer(calls + [c], p)
      ensures Available(o.ledger, o.ledger.keys[p]) >= o.ledger.floor
    {
      if !Payer(calls, p) {
        NothingHeld(o, calls, p);
      }
    }
  }

  lemma StartedKeepsCovered(e: Engine, calls: seq<Call>, id: TaskId, city: string, k: string, now: real)
    requires Covered(e, calls) && k in e.ledger.keys && Available(e.ledger, k) - e.estimate >= e.ledger.floor
    ensures var c := Call(city, Position(e.ledger.keys, k), None);
            Covered(Started(e.(ledger := Hold(e.ledger, k, e.estimate)), id, city, k, now), calls + [c])
  {
    var q := Position(e.ledger.keys, k);
    var c := Call(city, q, None);
    var e' := Started(e.(ledger := Hold(e.ledger, k, e.estimate)), id, city, k, now);
    StartedHolds(e, id, city, k, now);
    forall p: nat { PayerAppend(calls, c, p); }
    forall p | 0 <= p < |e.ledger.keys| && Payer(calls + [c], p)
      ensures Available(e'.ledger, e.ledger.keys[p]) >= e.ledger.floor
    {
      if p != q { assert e.ledger.keys[p] != k; }
    }
  }

  /** A call that a `payer` makes, or that a CAPACITY refusal ends, is by a key on the right side. */
  ghost predicate Fits(c: Call, payers: iset<nat>) {
    (c.error.None? ==> c.key in payers) && (c.error == Some(Capacity) ==> c.key !in payers)
  }

  lemma AgreeAfter(e: Engine, o: Engine, calls: seq<Call>, c: Call, e': Engine, payers: iset<nat>)
    requires EngineOk(e) && EngineOk(o) && EngineOk(e') && Agree(e, o, calls, payers)
    requires e'.ledger.keys == e.ledger.keys && e'.ledger.floor == e.ledger.floor && e'.estimate == e.estimate
    requires forall p | 0 <= p < |e.ledger.keys| && p in payers ::
               e'.ledger.balances[e.ledger.keys[p]] == e.ledger.balances[e.ledger.keys[p]]
    ensures Agree(e', o, calls + [c], payers)
  {
    forall p: nat { PayerAppend(calls, c, p); }
  }

  /** A refused call changes nothing but the balance of a key refused for CAPACITY. */
  lemma RefusedKeepsCovered(e: Engine, calls: seq<Call>, k: string, kind: ErrorKind, city: string)
    requires Covered(e, calls) && k in e.ledger.keys
    requires kind == Capacity ==> !Payer(calls, Position(e.ledger.keys, k))
    ensures var e' := Refused(e.(ledger := Hold(e.ledger, k, e.estimate)), k, kind);
            && Covered(e', calls + [Call(city, Position(e.ledger.keys, k), Some(kind))])
            && e'.ledger.keys == e.ledger.keys && e'.ledger.floor == e.ledger.floor && e'.estimate == e.estimate
            && forall p | 0 <= p < |e.ledger.keys| && !(kind == Capacity && p == Position(e.ledger.keys, k)) ::
                 e'.ledger.balances[e.ledger.keys[p]] == e.ledger.balances[e.ledger.keys[p]]
  {
    var q := Position(e.ledger.keys, k);
    var e' := Refused(e.(ledger := Hold(e.ledger, k, e.estimate)), k, kind);
    HoldNonnegative(e, k);
    RefusedRestoresHolds(e, k, kind);
    SameHoldsExact(e.(ledger := e'.ledger), e');
    forall p: nat { PayerAppend(calls, Call(city, q, Some(kind)), p); }
    forall p | 0 <= p < |e.ledger.keys| && p != q
      ensures e'.ledger.balances[e.ledger.keys[p]] == e.ledger.balances[e.ledger.keys[p]]
    {
      assert e.ledger.keys[p] != k;
    }
  }

  lemma AttemptKeepsPaired(s: System, o: Engine, reply: Option<ErrorKind>, city: string, tried: set<string>, now: real,
                           payers: iset<nat>)
    requires Paired(s.e, o, s.calls, payers) && Usable(s.e, tried, 0) != []
    requires forall p | Payer(s.calls, p) :: p in payers
    requires Fits(Call(city, Position(s.e.ledger.keys, Richest(s.e.ledger, Usable(s.e, tried, 0))), reply), payers)
    ensures var s' := Attempt(s, _ => reply, city, Richest(s.e.ledger, Usable(s.e, tried, 0)), now);
            Paired(s'.e, o, s'.calls, payers)
  {
    var k := Richest(s.e.ledger, Usable(s.e, tried, 0));
    var c := Call(city, Position(s.e.ledger.keys, k), reply);
    var s' := Attempt(s, _ => reply, city, k, now);
    HoldNonnegative(s.e, k);
    PaymentKeepsCovered(o, s.calls, c);
    if reply.Some? {
      RefusedKeepsCovered(s.e, s.calls, k, reply.value, city);
    } else {
      StartedKeepsCovered(s.e, s.calls, s.minted, city, k, now);
    }
    AgreeAfter(s.e, o, s.calls, c, s'.e, payers);
  }

  // ---------------------------------------------------------------- poll

  /** What a reply charges if it settles its hold. */
  function Credits(reply: Reply): real {
    if reply.Unreachable? then 0.0 else reply.credits
  }

  /** Settling keeps a key at or above a positive floor exactly if it cost no more than its hold
      plus what the key had to spare. */
  lemma SettleKeepsFloorIff(l: Ledger, k: string, estimate: real, credits: real)
    requires k in l.balances && k in l.held && l.held[k] >= estimate >= 0.0 && l.floor > 0.0
    ensures Available(Settle(l, k, estimate, credits), k) >= l.floor
            <==> credits <= estimate + (Available(l, k) - l.floor)
  {
  }

  /** The key of a task in flight can pay whatever that may cost. */
  lemma TaskIsCovered(e: Engine, calls: seq<Call>, minted: nat, i: nat)
    requires Covered(e, calls) && i < |e.tasks| && TasksOk(e, minted)
    ensures var k := e.ledger.keys[e.tasks[i].key];
            e.ledger.held[k] >= e.estimate && e.ledger.balances[k] >= e.ledger.floor + e.estimate
  {
    var t := e.tasks[i];
    InFlightWithout(e.tasks, i, t.key);
    TimesNonnegative(e.estimate, InFlightOn(WithoutTask(e.tasks, t.id), t.key));
    assert Payer(calls, t.key);
  }

  /** Settling takes exactly the cost off the balance, and never lowers what is available. */
  lemma SettleTakesCost(l: Ledger, p: nat, estimate: real, credits: real)
    requires LedgerOk(l) && p < |l.keys|
    requires l.held[l.keys[p]] >= estimate >= credits && l.balances[l.keys[p]] >= credits
    ensures var l' := Settle(l, l.keys[p], estimate, credits);
            && LedgerOk(l')
            && l'.balances == l.balances[l.keys[p] := l.balances[l.keys[p]] - credits]
            && forall k | k in l.keys :: Available(l', k) >= Available(l, k)
  {
  }

  /** A task that leaves with its hold, having cost at most that. */
  lemma LeavingKeepsCovered(e: Engine, calls: seq<Call>, i: nat, credits: real, charged: bool, e': Engine)
    requires Covered(e, calls) && i < |e.tasks|
    requires forall a, b | 0 <= a < b < |e.tasks| :: e.tasks[a].id != e.tasks[b].id
    requires var k := e.ledger.keys[e.tasks[i].key];
             && e.ledger.held[k] >= e.estimate >= credits && e.ledger.balances[k] >= credits
             && e'.ledger
                == (if charged then Settle(e.ledger, k, e.estimate, credits) else Release(e.ledger, k, e.estimate))
    requires e'.tasks == WithoutTask(e.tasks, e.tasks[i].id) && e'.estimate == e.estimate
    ensures Covered(e', calls)
  {
    var t := e.tasks[i];
    SettleTakesCost(e.ledger, t.key, e.estimate, credits);
    LeftHolds(e, i, e'.ledger);
    TaskFrom(e.tasks, t.id);
    var e1 := e.(ledger := e'.ledger, tasks := e'.tasks);
    assert HoldsExact(e') by {
      forall p | 0 <= p < |e'.ledger.keys|
        ensures e'.ledger.held[e'.ledger.keys[p]] == Times(e'.estimate, InFlightOn(e'.tasks, p))
      {
        assert e1.ledger.held[e1.ledger.keys[p]] == Times(e1.estimate, InFlightOn(e1.tasks, p));
      }
    }
    forall p | 0 <= p < |e.ledger.keys| && Payer(calls, p)
      ensures Available(e'.ledger, e.ledger.keys[p]) >= e.ledger.floor
    {
      assert e.ledger.keys[p] in e.ledger.keys;
    }
  }

  lemma LeavingKeepsAgree(e: Engine, o: Engine, calls: seq<Call>, q: nat, e': Engine, payers: iset<nat>)
    requires EngineOk(e) && EngineOk(o) && EngineOk(e') && Agree(e, o, calls, payers)
    requires q < |e.ledger.keys| && Payer(calls, q)
    requires e'.ledger.keys == e.ledger.keys && e'.ledger.floor == e.ledger.floor && e'.estimate == e.estimate
    requires forall k | k in e.ledger.keys && k != e.ledger.keys[q] :: e'.ledger.balances[k] == e.ledger.balances[k]
    ensures Agree(e', o, calls, payers)
  {
    forall p | 0 <= p < |e.ledger.keys| && !Payer(calls, p)
      ensures e'.ledger.balances[e.ledger.keys[p]] == e.ledger.balances[e.ledger.keys[p]]
    {
      assert p != q;
      assert e.ledger.keys[p] in e.ledger.keys && e.ledger.keys[p] != e.ledger.keys[q];
    }
  }

  lemma PollTaskKeepsPaired(s: System, o: Engine, i: nat, reply: Reply, now: real, payers: iset<nat>)
    requires Paired(s.e, o, s.calls, payers) && i < |s.e.tasks| && TasksOk(s.e, s.minted)
    requires Credits(reply) <= s.e.estimate
    ensures var s' := PollTask(s, s.e.tasks[i], reply, now);
            Paired(s'.e, o, s'.calls, payers) && s'.calls == s.calls
  {
    var t := s.e.tasks[i];
    var s' := PollTask(s, t, reply, now);
    WithoutTaskAt(s.e.tasks, i);
    if s'.e.tasks != s.e.tasks {
      TaskIsCovered(s.e, s.calls, s.minted, i);
      LeavingKeepsCovered(s.e, s.calls, i, Credits(reply), !reply.Unreachable?, s'.e);
      LeavingKeepsAgree(s.e, o, s.calls, t.key, s'.e, payers);
    }
  }

  // ---------------------------------------------------------------- restart

  /** Rounding cannot push a key under a floor in hundredths, whatever its balance. */
  lemma RoundedAboveFloor(balance: real, held: real, floor: real)
    requires balance - held >= floor && Whole(floor) && Whole(held)
    ensures Round2(balance) - held >= floor
  {
    WholeSum(floor, held);
    RoundKeepsBound(balance, floor + held);
  }

  lemma RestartKeepsCovered(o: Engine, calls: seq<Call>)
    requires Covered(o, calls)
    ensures Covered(Restarted(o), calls)
  {
    RestartIsFaithful(o);
    var e' := Restarted(o);
    forall p | 0 <= p < |o.ledger.keys| && Payer(calls, p)
      ensures Available(e'.ledger, o.ledger.keys[p]) >= o.ledger.floor
    {
      var k := o.ledger.keys[p];
      WholeTimes(o.estimate, InFlightOn(o.tasks, p));
      RoundedAboveFloor(o.ledger.balances[k], o.ledger.held[k], o.ledger.floor);
      assert k in o.ledger.keys;
    }
  }

  lemma RestartKeepsPaired(o: Engine, calls: seq<Call>, payers: iset<nat>)
    requires Paired(o, o, calls, payers)
    ensures Paired(Restarted(o), o, calls, payers)
  {
    RestartKeepsCovered(o, calls);
    RestartIsFaithful(o);
    forall p | 0 <= p < |o.ledger.keys| && p in payers && !Payer(calls, p)
      ensures Restarted(o).ledger.balances[o.ledger.keys[p]] == o.ledger.balances[o.ledger.keys[p]]
    {
      WholeRound(o.ledger.balances[o.ledger.keys[p]]);
      assert o.ledger.keys[p] in o.ledger.keys;
    }
  }

  // ---------------------------------------------------------------- the floor, in any run

  /** A CAPACITY refusal empties the key: it then stays at the floor exactly if the floor is 0 and the
      key holds nothing. */
  lemma CapacityKeepsFloorIff(e: Engine, k: string)
    requires EngineOk(e) && k in e.ledger.keys && e.estimate >= 0.0 && e.ledger.held[k] >= 0.0 && e.ledger.floor >= 0.0
    ensures var l := Refused(e.(ledger := Hold(e.ledger, k, e.estimate)), k, Capacity).ledger;
            Available(l, k) >= l.floor <==> e.ledger.floor == 0.0 && e.ledger.held[k] == 0.0
  {
    RefusedRestoresHolds(e, k, Capacity);
  }

  /** Everybody's books, against every payment ever made. */
  ghost predicate Safe(w: World, payers: iset<nat>) {
    && (forall p | Payer(w.calls, p) :: p in payers)
    && Paired(w.stored, w.stored, w.calls, payers)
    && forall k | k in w.hands :: Paired(w.hands[k].e, w.stored, w.calls, payers)
  }

  lemma AgreeAcross(e: Engine, o: Engine, m: Engine, calls: seq<Call>, payers: iset<nat>)
    requires Paired(e, m, calls, payers) && Paired(o, m, calls, payers)
    ensures Paired(e, o, calls, payers) && Paired(e, e, calls, payers)
  {
  }

  /** What an op may do: no cost above the estimate; the calls it adds fit. */
  ghost predicate Frugal(w: World, op: Op, cities: seq<string>, payers: iset<nat>)
    requires WorldOk(w, cities)
  {
    && (op.DoPoll? ==> Credits(op.answer) <= w.stored.estimate)
    && forall i | |w.calls| <= i < |Step(w, op, cities).calls| :: Fits(Step(w, op, cities).calls[i], payers)
  }

  ghost predicate FrugalRun(w: World, ops: seq<Op>, cities: seq<string>, payers: iset<nat>)
    requires WorldOk(w, cities)
  {
    ops == [] ||
    (FrugalRun(w, ops[..|ops| - 1], cities, payers) &&
     Frugal(Run(w, ops[..|ops| - 1], cities), ops[|ops| - 1], cities, payers))
  }

  lemma BegunIsPaired(e: Engine, o: Engine, calls: seq<Call>, payers: iset<nat>, cities: seq<string>)
    requires Paired(e, o, calls, payers)
    ensures Paired(Begun(e, cities), o, calls, payers)
  {
    SameHoldsExact(e, Begun(e, cities));
  }

  /** A call, as hand `k` and any other engine `o` see it. */
  lemma CallKeepsPaired(w: World, k: nat, o: Engine, reply: Option<ErrorKind>, now: real, cities: seq<string>,
                        payers: iset<nat>)
    requires WorldOk(w, cities) && k in w.hands && Paired(w.hands[k].e, o, w.calls, payers)
    requires (forall p | Payer(w.calls, p) :: p in payers) && Frugal(w, DoCall(k, reply, now), cities, payers)
    ensures var w' := Called(w, k, reply, now, cities);
            && Paired(w'.hands[k].e, o, w'.calls, payers) && forall p | Payer(w'.calls, p) :: p in payers
  {
    var e, tried := Begun(w.hands[k].e, cities), w.hands[k].tried;
    BegunIsPaired(w.hands[k].e, o, w.calls, payers, cities);
    if e.unsubmitted != [] && Usable(e, tried, 0) != [] {
      var key := Richest(e.ledger, Usable(e, tried, 0));
      var c := Call(e.unsubmitted[0], Position(e.ledger.keys, key), reply);
      var after := Step(w, DoCall(k, reply, now), cities).calls;
      assert after == w.calls + [c];
      assert Fits(after[|w.calls|], payers);
      AttemptKeepsPaired(SystemOf(w, k).(e := e), o, reply, e.unsubmitted[0], tried, now, payers);
      forall p: nat { PayerAppend(w.calls, c, p); }
    }
  }

  /** ... and as anybody else sees anybody else. */
  lemma OtherKeepsPaired(w: World, k: nat, o: Engine, reply: Option<ErrorKind>, now: real, cities: seq<string>,
                         payers: iset<nat>)
    requires WorldOk(w, cities) && Safe(w, payers) && k in w.hands && Paired(o, w.stored, w.calls, payers)
    requires Frugal(w, DoCall(k, reply, now), cities, payers)
    ensures var w' := Called(w, k, reply, now, cities);
            && Paired(w'.hands[k].e, w.stored, w'.calls, payers) && Paired(o, w.stored, w'.calls, payers)
            && forall p | Payer(w'.calls, p) :: p in payers
  {
    var w' := Called(w, k, reply, now, cities);
    CallKeepsPaired(w, k, w.stored, reply, now, cities, payers);
    AgreeAcross(w.hands[k].e, o, w.stored, w.calls, payers);
    CallKeepsPaired(w, k, o, reply, now, cities, payers);
    AgreeByThird(w'.hands[k].e, o, w.stored, w'.calls, payers);
  }

  lemma AgreeByThird(e: Engine, o: Engine, m: Engine, calls: seq<Call>, payers: iset<nat>)
    requires Paired(e, o, calls, payers) && Paired(e, m, calls, payers)
    ensures Paired(o, m, calls, payers)
  {
  }

  lemma CallKeepsSafe(w: World, k: nat, reply: Option<ErrorKind>, now: real, cities: seq<string>, payers: iset<nat>)
    requires WorldOk(w, cities) && Safe(w, payers) && k in w.hands
    requires Frugal(w, DoCall(k, reply, now), cities, payers)
    ensures Safe(Called(w, k, reply, now, cities), payers)
  {
    var w' := Called(w, k, reply, now, cities);
    OtherKeepsPaired(w, k, w.stored, reply, now, cities, payers);
    CalledKeepsInv(w, k, reply, now, cities);
    forall j | j in w'.hands ensures Paired(w'.hands[j].e, w.stored, w'.calls, payers) {
      if j != k {
        OtherKeepsPaired(w, k, w.hands[j].e, reply, now, cities, payers);
      }
    }
    assert w'.stored == w.stored;
  }

  lemma PollKeepsSafe(w: World, k: nat, task: nat, answer: Reply, now: real, cities: seq<string>, payers: iset<nat>)
    requires WorldOk(w, cities) && Safe(w, payers) && k in w.hands && task < |w.hands[k].e.tasks|
    requires Credits(answer) <= w.stored.estimate
    ensures Safe(Polled(w, k, task, answer, now), payers)
  {
    PollTaskKeepsPaired(SystemOf(w, k), w.stored, task, answer, now, payers);
  }

  lemma SaveKeepsSafe(w: World, k: nat, payers: iset<nat>)
    requires Safe(w, payers) && k in w.hands
    ensures Safe(w.(stored := w.hands[k].e), payers) && w.hands[k].e.estimate == w.stored.estimate
  {
    forall j | j in w.hands ensures Paired(w.hands[j].e, w.hands[k].e, w.calls, payers) {
      AgreeAcross(w.hands[j].e, w.hands[k].e, w.stored, w.calls, payers);
    }
  }

  lemma StartKeepsSafe(w: World, cities: seq<string>, payers: iset<nat>)
    requires EnginesOk(w) && Safe(w, payers)
    ensures Safe(Step(w, DoStart, cities), payers)
  {
    RestartKeepsPaired(w.stored, w.calls, payers);
    JoinsSafe(w, Hand(Restarted(w.stored), {}), payers);
  }

  lemma JoinsSafe(w: World, hand: Hand, payers: iset<nat>)
    requires Safe(w, payers) && Paired(hand.e, w.stored, w.calls, payers)
    ensures Safe(w.(hands := w.hands[w.started := hand], started := w.started + 1), payers)
  {
  }

  lemma StepKeepsSafe(w: World, op: Op, cities: seq<string>, payers: iset<nat>)
    requires WorldOk(w, cities) && Safe(w, payers) && Frugal(w, op, cities, payers)
    ensures Safe(Step(w, op, cities), payers) && Step(w, op, cities).stored.estimate == w.stored.estimate
  {
    match op
    case DoCall(k, reply, now) => if k in w.hands { CallKeepsSafe(w, k, reply, now, cities, payers); }
    case DoPoll(k, task, answer, now) =>
      if k in w.hands && task < |w.hands[k].e.tasks| {
        PollKeepsSafe(w, k, task, answer, now, cities, payers);
      }
    case DoSave(k) => if k in w.hands { SaveKeepsSafe(w, k, payers); }
    case DoStart => StartKeepsSafe(w, cities, payers);
    case DoStop(k) =>
  }

  lemma {:induction false} RunKeepsSafe(w: World, ops: seq<Op>, cities: seq<string>, payers: iset<nat>)
    requires WorldOk(w, cities) && Safe(w, payers) && FrugalRun(w, ops, cities, payers)
    ensures Safe(Run(w, ops, cities), payers) && Run(w, ops, cities).stored.estimate == w.stored.estimate
  {
    if ops != [] {
      RunKeepsSafe(w, ops[..|ops| - 1], cities, payers);
      StepKeepsSafe(Run(w, ops[..|ops| - 1], cities), ops[|ops| - 1], cities, payers);
    }
  }

  // ---------------------------------------------------------------- told by the calls of the run

  ghost function Payers(calls: seq<Call>): iset<nat> {
    iset p: nat | Payer(calls, p)
  }

  lemma {:induction false} CallsOnlyGrow(w: World, ops: seq<Op>, cities: seq<string>)
    requires WorldOk(w, cities)
    ensures w.calls <= Run(w, ops, cities).calls
  {
    if ops != [] {
      CallsOnlyGrow(w, ops[..|ops| - 1], cities);
      StepAddsCalls(Run(w, ops[..|ops| - 1], cities), ops[|ops| - 1], cities);
    }
  }

  lemma StepAddsCalls(w: World, op: Op, cities: seq<string>)
    requires WorldOk(w, cities)
    ensures w.calls <= Step(w, op, cities).calls
  {
    if op.DoPoll? && op.k in w.hands && op.task < |w.hands[op.k].e.tasks| {
      PollTaskKeepsInv(SystemOf(w, op.k), op.task, op.answer, op.now, cities);
    }
  }

  /** No cost above the estimate. */
  ghost predicate WithinEstimate(ops: seq<Op>, estimate: real) {
    forall i | 0 <= i < |ops| && ops[i].DoPoll? :: Credits(ops[i].answer) <= estimate
  }

  /** Of the calls from number `from` on: no key that pays for anything is refused for CAPACITY. */
  ghost predicate PayersHaveCapacity(calls: seq<Call>, from: nat) {
    forall i | from <= i < |calls| && calls[i].error == Some(Capacity) :: !Payer(calls, calls[i].key)
  }

  lemma {:induction false} FrugalByCalls(w: World, ops: seq<Op>, cities: seq<string>, calls: seq<Call>)
    requires WorldOk(w, cities) && Safe(w, Payers(calls)) && WithinEstimate(ops, w.stored.estimate)
    requires Run(w, ops, cities).calls <= calls && PayersHaveCapacity(calls, |w.calls|)
    ensures FrugalRun(w, ops, cities, Payers(calls))
  {
    if ops != [] {
      var before, op := ops[..|ops| - 1], ops[|ops| - 1];
      var w1 := Run(w, before, cities);
      StepAddsCalls(w1, op, cities);
      assert WithinEstimate(before, w.stored.estimate) by {
        forall i | 0 <= i < |before| && before[i].DoPoll? ensures Credits(before[i].answer) <= w.stored.estimate {
          assert before[i] == ops[i];
        }
      }
      FrugalByCalls(w, before, cities, calls);
      RunKeepsSafe(w, before, cities, Payers(calls));
      CallsOnlyGrow(w, before, cities);
      var after := Step(w1, op, cities).calls;
      forall i | |w1.calls| <= i < |after| ensures Fits(after[i], Payers(calls)) {
        assert after[i] == calls[i];
      }
    }
  }

  /** In every run, of attempts that overlap, crash and start from snapshots of any age: in the books of
      everybody at work and in the snapshot, every key that ever paid for anything keeps balance - hold at
      or above the floor, provided no such key is ever refused for CAPACITY. */
  lemma FloorInAnyRun(w: World, ops: seq<Op>, cities: seq<string>)
    requires WorldOk(w, cities) && WithinEstimate(ops, w.stored.estimate)
    requires PayersHaveCapacity(Run(w, ops, cities).calls, |w.calls|)
    requires Safe(w, Payers(Run(w, ops, cities).calls))
    ensures var w' := Run(w, ops, cities);
            && FloorKept(w'.stored, w'.calls)
            && forall k | k in w'.hands ::
                 var l := w'.hands[k].e.ledger;
                 forall p | 0 <= p < |l.keys| && Payer(w'.calls, p) ::
                   l.balances[l.keys[p]] - l.held[l.keys[p]] >= l.floor
  {
    var calls := Run(w, ops, cities).calls;
    FrugalByCalls(w, ops, cities, calls);
    RunKeepsSafe(w, ops, cities, Payers(calls));
  }

  const NOTHING_YET := Snapshot([], [], [], {}, {}, map[], 0, 0)

  /** A new engine over fresh keys satisfies everything the run lemmas start from. */
  lemma NewEngineIsSafe(keys: seq<string>, floor: real, estimate: real, timeout: real, cities: seq<string>,
                        payers: iset<nat>)
    requires forall i, j | 0 <= i < j < |keys| :: keys[i] != keys[j]
    requires floor >= 0.0 && estimate >= 0.0 && Whole(floor) && Whole(estimate)
    ensures var e := Restored(keys, floor, estimate, timeout, NOTHING_YET);
            && WorldOk(NewWorld(e), cities) && Safe(NewWorld(e), payers) && WholeBooks(e)
            && Total(keys, e.ledger.balances) == DEFAULT_BALANCE * |keys| as real
  {
    var e := Restored(keys, floor, estimate, timeout, NOTHING_YET);
    NewBooks(keys, floor, estimate, timeout);
    NewEngineIsCovered(e, payers);
    NewWorldIsSafe(e, cities, payers);
    TotalOfFresh(keys, e.ledger.balances);
  }

  lemma NewWorldIsSafe(e: Engine, cities: seq<string>, payers: iset<nat>)
    requires EngineOk(e) && HoldsExact(e) && Paired(e, e, [], payers)
    requires e.tasks == [] && e.submitted == [] == e.unsubmitted && e.collected == {} && e.timedOut == 0
    ensures WorldOk(NewWorld(e), cities) && Safe(NewWorld(e), payers)
  {
  }

  lemma NewBooks(keys: seq<string>, floor: real, estimate: real, timeout: real)
    requires forall i, j | 0 <= i < j < |keys| :: keys[i] != keys[j]
    ensures var e := Restored(keys, floor, estimate, timeout, NOTHING_YET);
            && LedgerOk(e.ledger) && e.tasks == [] && e.submitted == [] == e.unsubmitted
            && e.collected == {} && e.timedOut == 0
            && e.ledger.keys == keys && e.ledger.floor == floor && e.estimate == estimate
            && forall k | k in keys :: e.ledger.balances[k] == DEFAULT_BALANCE && e.ledger.held[k] == 0.0
  {
    var e := Restored(keys, floor, estimate, timeout, NOTHING_YET);
    assert Reheld(e.ledger, [], estimate) == e.ledger;
  }

  lemma NewEngineIsCovered(e: Engine, payers: iset<nat>)
    requires LedgerOk(e.ledger) && e.tasks == [] && e.estimate >= 0.0 && e.ledger.floor >= 0.0
    requires Whole(e.ledger.floor) && Whole(e.estimate)
    requires forall k | k in e.ledger.keys :: e.ledger.balances[k] == DEFAULT_BALANCE && e.ledger.held[k] == 0.0
    ensures HoldsExact(e) && Paired(e, e, [], payers) && WholeBooks(e)
  {
    WholeFrom(DEFAULT_BALANCE, 30000);
  }

  lemma {:induction false} TotalOfFresh(keys: seq<string>, balances: map<string, real>)
    requires forall k | k in keys :: k in balances && balances[k] == DEFAULT_BALANCE
    ensures Total(keys, balances) == DEFAULT_BALANCE * |keys| as real
  {
    if keys != [] {
      TotalOfFresh(keys[..|keys| - 1], balances);
    }
  }
}
