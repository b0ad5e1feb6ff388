/** What is paid for, however the attempts of a job overlap: each payment is for the next entry of the
    ICP that its engine has not submitted, and it is a second payment exactly if somebody else has paid
    for that entry without this engine knowing. */
module ManusPayments {
  import opened Common
  import opened Manus
  import opened ManusProofs
  import opened ManusMoney
  import opened ManusRuns

  function Named(entries: seq<nat>, cities: seq<string>): seq<string> {
    seq(|entries|, i requires 0 <= i < |entries| => if entries[i] < |cities| then cities[entries[i]] else "")
  }

  /** What an engine has on record has been paid for. */
  ghost predicate Knows(e: Engine, entries: seq<nat>) {
    forall p | 0 <= p < |e.submitted| :: p in entries
  }

  /** The payments are for entries of the ICP, in order but for repetitions. */
  ghost predicate Accounted(w: World, cities: seq<string>) {
    && (forall p | p in w.entries :: p < |cities|)
    && (forall p, q: nat | p in w.entries && q < p :: q in w.entries)
    && Paid(w.calls) == Named(w.entries, cities)
    && Knows(w.stored, w.entries)
    && forall k | k in w.hands :: Knows(w.hands[k].e, w.entries)
  }

  /** Somebody has paid for an entry that the engine does not have on record. */
  ghost predicate Misses(e: Engine, entries: seq<nat>) {
    exists p | p in entries :: p >= |e.submitted|
  }

  // ---------------------------------------------------------------- one call

  /** What a call of hand `k` adds to the calls and the entries. */
  ghost predicate CallAdds(w: World, w': World, k: nat, cities: seq<string>)
    requires k in w.hands
  {
    var before := w.hands[k].e.submitted;
    && k in w'.hands && w'.stored == w.stored
    && (forall j | j in w.hands && j != k :: j in w'.hands && w'.hands[j] == w.hands[j])
    && (forall j | j in w'.hands :: j in w.hands)
    && before <= w'.hands[k].e.submitted
    && if w'.entries == w.entries then Paid(w'.calls) == Paid(w.calls) && w'.hands[k].e.submitted == before
       else
         && |before| < |cities|
         && w'.entries == w.entries + [|before|]
         && Paid(w'.calls) == Paid(w.calls) + [cities[|before|]]
         && |w'.hands[k].e.submitted| == |before| + 1
  }

  lemma HandAdds(w: World, k: nat, s: System, tried: set<string>, pays: bool, cities: seq<string>)
    requires k in w.hands && (pays ==> |w.hands[k].e.submitted| < |cities|)
    requires var city := if pays then [cities[|w.hands[k].e.submitted|]] else [];
             s.e.submitted == w.hands[k].e.submitted + city && Paid(s.calls) == Paid(w.calls) + city
    ensures CallAdds(w, w.(hands := w.hands[k := Hand(s.e, tried)], minted := s.minted, calls := s.calls,
                           entries := w.entries + (if pays then [|w.hands[k].e.submitted|] else [])), k, cities)
  {
    assert w.entries + [] == w.entries;
  }

  lemma CallPays(w: World, k: nat, reply: Option<ErrorKind>, now: real, cities: seq<string>)
    requires WorldOk(w, cities) && k in w.hands
    ensures CallAdds(w, Called(w, k, reply, now, cities), k, cities)
  {
    var e, tried := Begun(w.hands[k].e, cities), w.hands[k].tried;
    BegunKeepsInv(w.hands[k].e, w.minted, cities);
    if e.unsubmitted != [] && Usable(e, tried, 0) != [] {
      var key := Richest(e.ledger, Usable(e, tried, 0));
      var s := SystemOf(w, k).(e := e);
      AttemptPays(s, tried, reply, now, cities);
      HandAdds(w, k, Attempt(s, _ => reply, e.unsubmitted[0], key, now), if reply.None? then {} else tried + {key},
               reply.None?, cities);
    }
  }

  lemma AttemptPays(s: System, tried: set<string>, reply: Option<ErrorKind>, now: real, cities: seq<string>)
    requires Inv(s.e, s.minted, cities) && s.e.unsubmitted != [] && Usable(s.e, tried, 0) != []
    ensures var key := Richest(s.e.ledger, Usable(s.e, tried, 0));
            var s' := Attempt(s, _ => reply, s.e.unsubmitted[0], key, now);
            && |s.e.submitted| < |cities|
            && s'.e.submitted == s.e.submitted + (if reply.None? then [cities[|s.e.submitted|]] else [])
            && Paid(s'.calls) == Paid(s.calls) + (if reply.None? then [cities[|s.e.submitted|]] else [])
  {
    var key := Richest(s.e.ledger, Usable(s.e, tried, 0));
    AttemptKeepsInv(s, tried, reply, now, cities);
    PaidOne(s.calls, Call(s.e.unsubmitted[0], Position(s.e.ledger.keys, key), reply));
    NextCity(s.e, s.minted, cities);
  }

  lemma NextCity(e: Engine, minted: nat, cities: seq<string>)
    requires Inv(e, minted, cities) && e.unsubmitted != []
    ensures |e.submitted| < |cities| && e.unsubmitted[0] == cities[|e.submitted|]
  {
    assert (e.submitted + e.unsubmitted)[|e.submitted|] == e.unsubmitted[0];
  }

  lemma PaidOne(calls: seq<Call>, c: Call)
    ensures Paid(calls + [c]) == Paid(calls) + (if c.error.None? then [c.city] else [])
  {
    assert (calls + [c])[..|calls|] == calls;
  }

  lemma CallKeepsAccounted(w: World, k: nat, reply: Option<ErrorKind>, now: real, cities: seq<string>)
    requires WorldOk(w, cities) && Accounted(w, cities) && k in w.hands
    ensures Accounted(Called(w, k, reply, now, cities), cities)
  {
    CallPays(w, k, reply, now, cities);
    AddsKeepsAccounted(w, Called(w, k, reply, now, cities), k, cities);
  }

  lemma AddsKeepsAccounted(w: World, w': World, k: nat, cities: seq<string>)
    requires k in w.hands && Accounted(w, cities) && CallAdds(w, w', k, cities)
    ensures Accounted(w', cities)
  {
    if w'.entries != w.entries {
      EntryAdded(w.entries, |w.hands[k].e.submitted|, cities);
      assert Knows(w.hands[k].e, w.entries);
    }
    forall j | j in w'.hands ensures Knows(w'.hands[j].e, w'.entries) {
      assert Knows(w.hands[j].e, w.entries);
    }
  }

  lemma EntryAdded(entries: seq<nat>, p: nat, cities: seq<string>)
    requires p < |cities|
    ensures Named(entries + [p], cities) == Named(entries, cities) + [cities[p]]
    ensures forall q: nat :: q in entries + [p] <==> q in entries || q == p
  {
  }

  /** A step that is not a call pays for nothing, and nobody's record changes by it, except that an
      attempt takes over the snapshot's and a save hands an attempt's to the snapshot. */
  lemma OthersPayNothing(w: World, op: Op, cities: seq<string>)
    requires WorldOk(w, cities) && !op.DoCall?
    ensures var w' := Step(w, op, cities);
            && w'.entries == w.entries && w'.calls == w.calls
            && (forall j | j in w'.hands ::
                  if op.DoStart? && j == w.started then w'.hands[j].e.submitted == w.stored.submitted
                  else j in w.hands && w'.hands[j].e.submitted == w.hands[j].e.submitted)
            && w'.stored
               == (if op.DoSave? && op.k in w.hands && op.k + 1 == w.started then w.hands[op.k].e else w.stored)
  {
    match op
    case DoPoll(k, task, answer, now) =>
      if k in w.hands && task < |w.hands[k].e.tasks| {
        PollTaskKeepsInv(SystemOf(w, k), task, answer, now, cities);
      }
    case DoSave(k) =>
    case DoStart => RestartIsFaithful(w.stored);
    case DoStop(k) =>
  }

  lemma OthersKeepAccounted(w: World, op: Op, cities: seq<string>)
    requires WorldOk(w, cities) && Accounted(w, cities) && !op.DoCall?
    ensures Accounted(Step(w, op, cities), cities)
  {
    var w' := Step(w, op, cities);
    OthersPayNothing(w, op, cities);
    forall k | k in w'.hands ensures Knows(w'.hands[k].e, w'.entries) {
      if op.DoStart? && k == w.started {
        SameRecord(w.stored, w'.hands[k].e, w.entries);
      } else {
        SameRecord(w.hands[k].e, w'.hands[k].e, w.entries);
      }
    }
  }

  lemma SameRecord(e: Engine, e': Engine, entries: seq<nat>)
    requires Knows(e, entries) && e'.submitted == e.submitted
    ensures Knows(e', entries)
  {
  }

  lemma StepKeepsAccounted(w: World, op: Op, cities: seq<string>)
    requires WorldOk(w, cities) && Accounted(w, cities)
    ensures Accounted(Step(w, op, cities), cities)
  {
    if op.DoCall? {
      if op.k in w.hands {
        CallKeepsAccounted(w, op.k, op.reply, op.now, cities);
      }
    } else {
      OthersKeepAccounted(w, op, cities);
    }
  }

  lemma {:induction false} RunKeepsAccounted(w: World, ops: seq<Op>, cities: seq<string>)
    requires WorldOk(w, cities) && Accounted(w, cities)
    ensures Accounted(Run(w, ops, cities), cities)
  {
    if ops != [] {
      RunKeepsAccounted(w, ops[..|ops| - 1], cities);
      StepKeepsAccounted(Run(w, ops[..|ops| - 1], cities), ops[|ops| - 1], cities);
    }
  }

  // ---------------------------------------------------------------- when an entry is paid for twice

  /** The step pays for something. */
  ghost predicate Pays(w: World, op: Op, cities: seq<string>)
    requires WorldOk(w, cities)
  {
    Step(w, op, cities).entries != w.entries
  }

  /** A step that pays, pays for one entry, and for the second time exactly if its engine misses an
      entry that has been paid for. */
  lemma RepaysIff(w: World, op: Op, cities: seq<string>)
    requires WorldOk(w, cities) && Accounted(w, cities) && Pays(w, op, cities)
    ensures op.DoCall? && op.k in w.hands
    ensures var p := |w.hands[op.k].e.submitted|;
            && Step(w, op, cities).entries == w.entries + [p]
            && (p in w.entries <==> Misses(w.hands[op.k].e, w.entries))
  {
    OnlyCallsPay(w, op, cities);
    CallPays(w, op.k, op.reply, op.now, cities);
  }

  lemma OnlyCallsPay(w: World, op: Op, cities: seq<string>)
    requires EnginesOk(w) && Step(w, op, cities).entries != w.entries
    ensures op.DoCall? && op.k in w.hands
  {
  }

  predicate Once<T(==)>(s: seq<T>) {
    forall i, j | 0 <= i < j < |s| :: s[i] != s[j]
  }

  /** Whoever pays knows of all payments made before. */
  ghost predicate Informed(w: World, op: Op, cities: seq<string>)
    requires WorldOk(w, cities)
  {
    Pays(w, op, cities) && op.DoCall? && op.k in w.hands ==> !Misses(w.hands[op.k].e, w.entries)
  }

  ghost predicate InformedRun(w: World, ops: seq<Op>, cities: seq<string>)
    requires WorldOk(w, cities)
  {
    ops == [] ||
    (InformedRun(w, ops[..|ops| - 1], cities) &&
     Informed(Run(w, ops[..|ops| - 1], cities), ops[|ops| - 1], cities))
  }

  lemma OnceMore(s: seq<nat>, p: nat)
    ensures Once(s + [p]) <==> Once(s) && p !in s
  {
    var more := s + [p];
    assert more[|s|] == p;
    if Once(more) {
      forall i, j | 0 <= i < j < |s| ensures s[i] != s[j] {
        assert more[i] == s[i] && more[j] == s[j];
      }
      forall i | 0 <= i < |s| ensures s[i] != p {
        assert more[i] == s[i];
      }
    }
  }

  /** In every run, however its attempts overlap, crash and restart: every entry of the ICP is paid for
      at most once exactly if whoever pays knows of all payments made before. */
  lemma {:induction false} PaidOnceIff(w: World, ops: seq<Op>, cities: seq<string>)
    requires WorldOk(w, cities) && Accounted(w, cities) && Once(w.entries)
    ensures Once(Run(w, ops, cities).entries) <==> InformedRun(w, ops, cities)
  {
    if ops != [] {
      var before, op := ops[..|ops| - 1], ops[|ops| - 1];
      var w1 := Run(w, before, cities);
      PaidOnceIff(w, before, cities);
      RunKeepsAccounted(w, before, cities);
      if Pays(w1, op, cities) {
        RepaysIff(w1, op, cities);
        OnceMore(w1.entries, |w1.hands[op.k].e.submitted|);
      }
    }
  }

  /** And in terms of cities, if the ICP names each once. */
  lemma CitiesPaidOnceIff(w: World, ops: seq<Op>, cities: seq<string>)
    requires WorldOk(w, cities) && Accounted(w, cities) && Once(w.entries) && Once(cities)
    ensures Once(Paid(Run(w, ops, cities).calls)) <==> InformedRun(w, ops, cities)
  {
    PaidOnceIff(w, ops, cities);
    RunKeepsAccounted(w, ops, cities);
    var entries := Run(w, ops, cities).entries;
    var paid := Paid(Run(w, ops, cities).calls);
    forall i | 0 <= i < |entries| ensures entries[i] < |cities| && paid[i] == cities[entries[i]] {
      assert entries[i] in entries;
    }
    if Once(paid) {
      forall i, j | 0 <= i < j < |entries| ensures entries[i] != entries[j] {
        assert paid[i] != paid[j];
      }
    }
    if Once(entries) {
      forall i, j | 0 <= i < j < |paid| ensures paid[i] != paid[j] {
        assert entries[i] != entries[j];
        assert entries[i] < entries[j] || entries[j] < entries[i];
      }
    }
  }

  // ---------------------------------------------------------------- one attempt at a time

  /** An attempt ends only after a save that is up to date, and the next begins only after that. */
  ghost predicate Prompt(w: World, op: Op) {
    && (op.DoStart? ==> w.hands == map[])
    && (op.DoStop? && op.k in w.hands ==> w.stored == w.hands[op.k].e)
  }

  ghost predicate PromptRun(w: World, ops: seq<Op>, cities: seq<string>)
    requires WorldOk(w, cities)
  {
    ops == [] ||
    (PromptRun(w, ops[..|ops| - 1], cities) && Prompt(Run(w, ops[..|ops| - 1], cities), ops[|ops| - 1]))
  }

  /** At most one attempt at work, and it, or else the snapshot, has every payment on record. */
  ghost predicate NobodyMisses(w: World) {
    && (forall j, k | j in w.hands && k in w.hands :: j == k)
    && (forall k | k in w.hands :: !Misses(w.hands[k].e, w.entries))
    && (w.hands == map[] ==> !Misses(w.stored, w.entries))
  }

  lemma PromptKeeps(w: World, op: Op, cities: seq<string>)
    requires WorldOk(w, cities) && Accounted(w, cities) && NobodyMisses(w) && Prompt(w, op)
    ensures NobodyMisses(Step(w, op, cities)) && Informed(w, op, cities)
  {
    if op.DoCall? {
      if op.k in w.hands {
        CallPays(w, op.k, op.reply, op.now, cities);
        CallMissesNothing(w, Called(w, op.k, op.reply, op.now, cities), op.k, cities);
      }
    } else {
      OthersPayNothing(w, op, cities);
      if Step(w, op, cities).hands == map[] {
        EmptiedBy(w, op, cities);
      }
      OthersMissNothing(w, Step(w, op, cities), op);
    }
  }

  lemma CallMissesNothing(w: World, w': World, k: nat, cities: seq<string>)
    requires k in w.hands && CallAdds(w, w', k, cities) && NobodyMisses(w)
    ensures NobodyMisses(w') && !Misses(w.hands[k].e, w.entries)
  {
  }

  lemma OthersMissNothing(w: World, w': World, op: Op)
    requires NobodyMisses(w) && Prompt(w, op) && w'.entries == w.entries
    requires forall j | j in w'.hands ::
               if op.DoStart? && j == w.started then w'.hands[j].e.submitted == w.stored.submitted
               else j in w.hands && w'.hands[j].e.submitted == w.hands[j].e.submitted
    requires w'.stored == (if op.DoSave? && op.k in w.hands && op.k + 1 == w.started then w.hands[op.k].e else w.stored)
    requires w'.hands == map[] ==> w.hands == map[] || (op.DoStop? && op.k in w.hands)
    ensures NobodyMisses(w')
  {
  }

  lemma EmptiedBy(w: World, op: Op, cities: seq<string>)
    requires EnginesOk(w) && Step(w, op, cities).hands == map[]
    ensures w.hands == map[] || (op.DoStop? && op.k in w.hands)
  {
    forall j | j in w.hands ensures op.DoStop? && op.k == j {
      assert j !in Step(w, op, cities).hands;
    }
  }

  /** Attempts that follow one another, each from an up-to-date snapshot, pay for everything once. */
  lemma {:induction false} EachCityPaidOnce(w: World, ops: seq<Op>, cities: seq<string>)
    requires WorldOk(w, cities) && Accounted(w, cities) && NobodyMisses(w) && Once(w.entries)
    requires PromptRun(w, ops, cities)
    ensures InformedRun(w, ops, cities) && NobodyMisses(Run(w, ops, cities)) && Once(Run(w, ops, cities).entries)
  {
    if ops != [] {
      var before := ops[..|ops| - 1];
      EachCityPaidOnce(w, before, cities);
      RunKeepsAccounted(w, before, cities);
      PromptKeeps(Run(w, before, cities), ops[|ops| - 1], cities);
    }
    PaidOnceIff(w, ops, cities);
  }

  // ---------------------------------------------------------------- what is on record

  /** The first `n` entries are on record, in the snapshot and with everybody at work. */
  ghost predicate OnRecord(w: World, n: nat) {
    n <= |w.stored.submitted| && forall k | k in w.hands :: n <= |w.hands[k].e.submitted|
  }

  ghost predicate Beyond(before: seq<nat>, after: seq<nat>, n: nat) {
    before <= after && forall i | |before| <= i < |after| :: after[i] >= n
  }

  lemma StepPaysBeyond(w: World, op: Op, cities: seq<string>, n: nat)
    requires WorldOk(w, cities) && OnRecord(w, n)
    ensures OnRecord(Step(w, op, cities), n) && Beyond(w.entries, Step(w, op, cities).entries, n)
  {
    if op.DoCall? {
      if op.k in w.hands {
        CallPays(w, op.k, op.reply, op.now, cities);
      }
    } else {
      OthersPayNothing(w, op, cities);
    }
  }

  /** What the snapshot and everybody at work have on record is never paid for again, however the run
      goes on: the attempts may overlap, crash, and start from any later snapshot. */
  lemma {:induction false} RestoredNeverRepays(w: World, ops: seq<Op>, cities: seq<string>, n: nat)
    requires WorldOk(w, cities) && OnRecord(w, n)
    ensures OnRecord(Run(w, ops, cities), n) && Beyond(w.entries, Run(w, ops, cities).entries, n)
  {
    if ops != [] {
      var w1 := Run(w, ops[..|ops| - 1], cities);
      RestoredNeverRepays(w, ops[..|ops| - 1], cities, n);
      StepPaysBeyond(w1, ops[|ops| - 1], cities, n);
      var w2 := Step(w1, ops[|ops| - 1], cities);
      forall i | |w.entries| <= i < |w2.entries| ensures w2.entries[i] >= n {
        if i < |w1.entries| { assert w2.entries[i] == w1.entries[i]; }
      }
    }
  }

  /** So if the ICP names each city once, a city on record is paid for exactly as often afterwards. */
  lemma CityOnRecordIsPaidOnce(w: World, ops: seq<Op>, cities: seq<string>, n: nat, i: nat)
    requires WorldOk(w, cities) && Accounted(w, cities) && OnRecord(w, n) && i < n && i < |cities| && Once(cities)
    ensures multiset(Paid(Run(w, ops, cities).calls))[cities[i]] == multiset(Paid(w.calls))[cities[i]]
  {
    RestoredNeverRepays(w, ops, cities, n);
    RunKeepsAccounted(w, ops, cities);
    SamePayments(w.entries, Run(w, ops, cities).entries, cities, n, i);
  }

  lemma SamePayments(before: seq<nat>, after: seq<nat>, cities: seq<string>, n: nat, i: nat)
    requires Beyond(before, after, n) && (forall p | p in after :: p < |cities|)
    requires i < n && i < |cities| && Once(cities)
    ensures multiset(Named(after, cities))[cities[i]] == multiset(Named(before, cities))[cities[i]]
  {
    var more := Named(after[|before|..], cities);
    assert Named(after, cities) == Named(before, cities) + more;
    forall x | 0 <= x < |more| ensures more[x] != cities[i] {
      var p := after[|before| + x];
      assert p in after && p >= n && more[x] == cities[p];
    }
    assert cities[i] !in multiset(more);
  }

  // ---------------------------------------------------------------- the record only grows

  /** The newest attempt, if it is still at work, has everything on record that the snapshot has. */
  ghost predicate NewestLeads(w: World) {
    w.started > 0 && w.started - 1 in w.hands ==> w.stored.submitted <= w.hands[w.started - 1].e.submitted
  }

  lemma CallGrowsRecord(w: World, k: nat, reply: Option<ErrorKind>, now: real, cities: seq<string>)
    requires WorldOk(w, cities) && NewestLeads(w) && k in w.hands
    ensures NewestLeads(Called(w, k, reply, now, cities))
  {
    var w' := Called(w, k, reply, now, cities);
    CallPays(w, k, reply, now, cities);
    StillLeads(w, w', k, cities);
  }

  lemma StillLeads(w: World, w': World, k: nat, cities: seq<string>)
    requires k in w.hands && CallAdds(w, w', k, cities) && w'.started == w.started && NewestLeads(w)
    ensures NewestLeads(w')
  {
  }

  lemma StepGrowsRecord(w: World, op: Op, cities: seq<string>)
    requires WorldOk(w, cities) && NewestLeads(w)
    ensures NewestLeads(Step(w, op, cities)) && w.stored.submitted <= Step(w, op, cities).stored.submitted
  {
    if op.DoCall? {
      if op.k in w.hands {
        CallGrowsRecord(w, op.k, op.reply, op.now, cities);
      }
    } else {
      OthersPayNothing(w, op, cities);
    }
  }

  /** Because saves are fenced, nothing on record is ever forgotten, whoever overlaps with whom. */
  lemma {:induction false} RecordOnlyGrows(w: World, ops: seq<Op>, cities: seq<string>)
    requires WorldOk(w, cities) && NewestLeads(w)
    ensures NewestLeads(Run(w, ops, cities)) && w.stored.submitted <= Run(w, ops, cities).stored.submitted
  {
    if ops != [] {
      RecordOnlyGrows(w, ops[..|ops| - 1], cities);
      StepGrowsRecord(Run(w, ops[..|ops| - 1], cities), ops[|ops| - 1], cities);
    }
  }
}
