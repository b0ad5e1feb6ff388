/** Runs from the empty store, for any policy, field and observations, after which a field has two live
    values that no OPEN conflict joins. */
module TruthCases {
  import opened Common
  import opened Truth
  import opened TruthProofs
  import opened TruthTime

  /** A value seen on a source that counts as an observation. */
  predicate Sighting(o: Observed) {
    Acceptable(o) && !o.inferred && HasSource(o.source) && Observation(o.source.(kind := KnownKind(o.source.kind)))
  }

  function Row(policy: Policy, key: Key, o: Observed, status: Status, now: int): Fact {
    NewFact(policy, key, o, now).(status := status)
  }

  lemma OneDomain(o: Observed)
    requires Sighting(o)
    ensures var sources := WithSource([], o.source);
            |Domains(sources)| == 1 && |sources| == 1 && Observation(sources[0])
  {
    var sources := WithSource([], o.source);
    assert Domains(sources) == {DomainOf(sources[0])};
  }

  lemma RunOneMore(policy: Policy, events: seq<Event>, e: Event)
    ensures Run(policy, EMPTY_STORE, events + [e]) == Step(policy, Run(policy, EMPTY_STORE, events), e.op, e.now)
  {
    assert (events + [e])[..|events|] == events;
  }

  // ---------------------------------------------------------------- the steps

  lemma FirstSeen(policy: Policy, key: Key, x: Observed, now: int)
    requires Sighting(x)
    ensures Recorded(policy, EMPTY_STORE, key, x, now) == Store([Row(policy, key, x, Unverified, now)], [], {})
  {
    OneDomain(x);
    var st1 := Store([NewFact(policy, key, x, now)], [], {});
    assert [] + [NewFact(policy, key, x, now)] == st1.facts;
    assert Noted(policy, EMPTY_STORE, key, x, now) == (st1, 0);
    assert Detected(st1, st1.facts, key, 0, 1, now) == st1;
    assert Detected(st1, st1.facts, key, 0, 0, now) == st1;
    assert st1.facts[0].sources == WithSource([], x.source);
  }

  /** A second value while the first is live: both end CONFLICTED. */
  lemma SecondSeen(policy: Policy, key: Key, a: Fact, y: Observed, now: int)
    requires Sighting(y) && a.key == key && a.value != NormalValue(y.raw) && Live(a, now)
    ensures Recorded(policy, Store([a], [], {}), key, y, now)
            == Store([a.(status := Conflicted), Row(policy, key, y, Conflicted, now)],
                     [Conflict(key, 0, 1, Open, None)], {})
  {
    var st0 := Store([a], [], {});
    var st1 := Store([a, NewFact(policy, key, y, now)], [], {});
    var c := Conflict(key, 0, 1, Open, None);
    assert Find(st0.facts[1..], key, NormalValue(y.raw)) == 0;
    assert st0.facts + [NewFact(policy, key, y, now)] == st1.facts;
    assert Noted(policy, st0, key, y, now) == (st1, 1);
    var st2 := Store([a.(status := Conflicted), Row(policy, key, y, Conflicted, now)], [c], {});
    assert WithConflict(st1, key, 0, 1) == st2;
    assert Detected(st2, st1.facts, key, 1, 2, now) == st2;
    assert Detected(st2, st1.facts, key, 1, 1, now) == st2;
    assert Detected(st1, st1.facts, key, 1, 0, now) == st2;
    assert st2.conflicts[0] == c && Touches(c, 1) && InOpen(st2.conflicts, 1);
  }

  /** A third value while only the first is live. */
  lemma ThirdSeen(policy: Policy, key: Key, a: Fact, b: Fact, c: Conflict, earned: set<FactId>, z: Observed, now: int)
    requires Sighting(z) && a.key == key == b.key && NormalValue(z.raw) !in {a.value, b.value}
    requires Live(a, now) && b.status == Stale && c.resolution != Open
    ensures Recorded(policy, Store([a, b], [c], earned), key, z, now)
            == Store([a.(status := Conflicted), b, Row(policy, key, z, Conflicted, now)],
                     [c, Conflict(key, 0, 2, Open, None)], earned)
  {
    var value := NormalValue(z.raw);
    var st0 := Store([a, b], [c], earned);
    var st1 := Store([a, b, NewFact(policy, key, z, now)], [c], earned);
    var d := Conflict(key, 0, 2, Open, None);
    assert st0.facts[1..] == [b] && [b][1..] == [];
    assert Find([b], key, value) == 1 && Find(st0.facts, key, value) == 2;
    assert st0.facts + [NewFact(policy, key, z, now)] == st1.facts;
    assert Noted(policy, st0, key, z, now) == (st1, 2);
    var st2 := Store([a.(status := Conflicted), b, Row(policy, key, z, Conflicted, now)], [c, d], earned);
    assert !OpenPair(st1.conflicts, key, 0, 2);
    assert WithConflict(st1, key, 0, 2) == st2;
    assert Detected(st2, st1.facts, key, 2, 3, now) == st2;
    assert Detected(st2, st1.facts, key, 2, 2, now) == st2;
    assert Detected(st2, st1.facts, key, 2, 1, now) == st2;
    assert Detected(st1, st1.facts, key, 2, 0, now) == st2;
    assert st2.conflicts[1] == d && Touches(d, 2) && InOpen(st2.conflicts, 2);
  }

  function Won(f: Fact): Fact {
    f.(status := Verified, confidence := Max(0.85, f.confidence))
  }

  function Closed(key: Key, winner: FactId): Conflict {
    Conflict(key, 0, 1, ResolvedHuman, Some(winner))
  }

  /** Two values in conflict, of which the first wins. */
  lemma FirstWins(a: Fact, b: Fact, key: Key)
    ensures Resolved(Store([a, b], [Conflict(key, 0, 1, Open, None)], {}), 0, 0, false)
            == Store([Won(a), b.(status := Stale)], [Closed(key, 0)], {0})
  {
    var conflicts := [Conflict(key, 0, 1, Open, None)];
    assert conflicts[0 := Closed(key, 0)] == [Closed(key, 0)];
    assert !InOpen([Closed(key, 0)], 0);
    assert [a, b][0 := Won(a)] == [Won(a), b];
    assert SetStatus([Won(a), b], 1, Stale) == [Won(a), b.(status := Stale)];
  }

  /** x and y are recorded, and x is declared right. */
  function Decided(key: Key, x: Observed, y: Observed, now: int): seq<Event> {
    [Event(Record(key, x), now)] + [Event(Record(key, y), now)] + [Event(Resolve(0, 0, false), now)]
  }

  lemma AfterBoth(policy: Policy, key: Key, x: Observed, y: Observed, now: int)
    requires Sighting(x) && Sighting(y) && NormalValue(x.raw) != NormalValue(y.raw) && Ttl(policy, key.field) > 0
    ensures Run(policy, EMPTY_STORE, [Event(Record(key, x), now)] + [Event(Record(key, y), now)])
            == Store([Row(policy, key, x, Conflicted, now), Row(policy, key, y, Conflicted, now)],
                     [Conflict(key, 0, 1, Open, None)], {})
  {
    var e1 := Event(Record(key, x), now);
    RunOneMore(policy, [], e1);
    assert [] + [e1] == [e1];
    FirstSeen(policy, key, x, now);
    assert Run(policy, EMPTY_STORE, [e1]) == Recorded(policy, EMPTY_STORE, key, x, now);
    RunOneMore(policy, [e1], Event(Record(key, y), now));
    SecondSeen(policy, key, Row(policy, key, x, Unverified, now), y, now);
  }

  lemma AfterDecided(policy: Policy, key: Key, x: Observed, y: Observed, now: int)
    requires Sighting(x) && Sighting(y) && NormalValue(x.raw) != NormalValue(y.raw) && Ttl(policy, key.field) > 0
    ensures Run(policy, EMPTY_STORE, Decided(key, x, y, now))
            == Store([Won(Row(policy, key, x, Conflicted, now)), Row(policy, key, y, Stale, now)], [Closed(key, 0)],
                     {0})
  {
    AfterBoth(policy, key, x, y, now);
    RunOneMore(policy, [Event(Record(key, x), now)] + [Event(Record(key, y), now)], Event(Resolve(0, 0, false), now));
    FirstWins(Row(policy, key, x, Conflicted, now), Row(policy, key, y, Conflicted, now), key);
  }

  // ---------------------------------------------------------------- confirming the loser

  /** Record x, record y, declare x right, confirm y: two live VERIFIED values, and no conflict. */
  lemma ConfirmedLoserIsSecondTruth(policy: Policy, key: Key, x: Observed, y: Observed, source: Source, now: int)
    requires Sighting(x) && Sighting(y) && NormalValue(x.raw) != NormalValue(y.raw) && Ttl(policy, key.field) > 0
    ensures var st := Run(policy, EMPTY_STORE,
                          Decided(key, x, y, now) + [Event(Verify(1, Confirmed, None, source), now)]);
            && |st.facts| == 2 && st.facts[0].key == st.facts[1].key == key && st.facts[0].value != st.facts[1].value
            && Live(st.facts[0], now) && st.facts[0].status == Verified
            && Live(st.facts[1], now) && st.facts[1].status == Verified
            && !InOpen(st.conflicts, 0) && !InOpen(st.conflicts, 1) && !Complete(st, now)
  {
    AfterDecided(policy, key, x, y, now);
    RunOneMore(policy, Decided(key, x, y, now), Event(Verify(1, Confirmed, None, source), now));
    var st := Run(policy, EMPTY_STORE, Decided(key, x, y, now) + [Event(Verify(1, Confirmed, None, source), now)]);
    assert !InOpen([Closed(key, 0)], 1);
    NotInOpenNoPair(st.conflicts, key, 0, 1);
    assert Live(st.facts[0], now) && Live(st.facts[1], now);
  }

  // ---------------------------------------------------------------- resolving again

  lemma AfterThird(policy: Policy, key: Key, x: Observed, y: Observed, z: Observed, now: int)
    requires Sighting(x) && Sighting(y) && Sighting(z) && Ttl(policy, key.field) > 0
    requires NormalValue(x.raw) != NormalValue(y.raw) && NormalValue(z.raw) !in {NormalValue(x.raw), NormalValue(y.raw)}
    ensures Run(policy, EMPTY_STORE, Decided(key, x, y, now) + [Event(Record(key, z), now)])
            == Store([Won(Row(policy, key, x, Conflicted, now)).(status := Conflicted), Row(policy, key, y, Stale, now),
                      Row(policy, key, z, Conflicted, now)],
                     [Closed(key, 0), Conflict(key, 0, 2, Open, None)], {0})
  {
    AfterDecided(policy, key, x, y, now);
    RunOneMore(policy, Decided(key, x, y, now), Event(Record(key, z), now));
    ThirdSeen(policy, key, Won(Row(policy, key, x, Conflicted, now)), Row(policy, key, y, Stale, now), Closed(key, 0),
              {0}, z, now);
  }

  /** ... and record z, which meets x, and then resolve the closed conflict again, for y: y and z are
      both live and no conflict joins them. */
  lemma ResolvedAgainIsSecondTruth(policy: Policy, key: Key, x: Observed, y: Observed, z: Observed, now: int)
    requires Sighting(x) && Sighting(y) && Sighting(z) && Ttl(policy, key.field) > 0
    requires NormalValue(x.raw) != NormalValue(y.raw) && NormalValue(z.raw) !in {NormalValue(x.raw), NormalValue(y.raw)}
    ensures var before := Decided(key, x, y, now) + [Event(Record(key, z), now)];
            var st := Run(policy, EMPTY_STORE, before + [Event(Resolve(0, 1, false), now)]);
            && Complete(Run(policy, EMPTY_STORE, before), now)
            && |st.facts| == 3 && st.facts[1].key == st.facts[2].key == key
            && Live(st.facts[1], now) && st.facts[1].status == Verified && Live(st.facts[2], now)
            && !OpenPair(st.conflicts, key, 1, 2) && !Complete(st, now)
  {
    var before := Decided(key, x, y, now) + [Event(Record(key, z), now)];
    var a, b := Won(Row(policy, key, x, Conflicted, now)).(status := Conflicted), Row(policy, key, y, Stale, now);
    var third := Row(policy, key, z, Conflicted, now);
    AfterThird(policy, key, x, y, z, now);
    OnlyPair(Run(policy, EMPTY_STORE, before), key, now);
    RunOneMore(policy, before, Event(Resolve(0, 1, false), now));
    ClosedAgain(a, b, third, key);
    var st := Run(policy, EMPTY_STORE, before + [Event(Resolve(0, 1, false), now)]);
    assert Live(st.facts[1], now) && Live(st.facts[2], now) && !OpenPair(st.conflicts, key, 1, 2);
  }

  lemma OnlyPair(st: Store, key: Key, now: int)
    requires |st.facts| == 3 && st.facts[1].status == Stale && st.facts[0].key == key == st.facts[2].key
    requires |st.conflicts| == 2 && st.conflicts[1] == Conflict(key, 0, 2, Open, None)
    ensures Complete(st, now)
  {
    assert Joins(st.conflicts[1], 0, 2) && Joins(st.conflicts[1], 2, 0);
  }

  lemma ClosedAgain(a: Fact, b: Fact, third: Fact, key: Key)
    ensures var d := Conflict(key, 0, 2, Open, None);
            Resolved(Store([a, b, third], [Closed(key, 0), d], {0}), 0, 1, false)
            == Store([a.(status := Stale), Won(b), third], [Closed(key, 1), d], {0, 1})
  {
    var d := Conflict(key, 0, 2, Open, None);
    assert [Closed(key, 0), d][0 := Closed(key, 1)] == [Closed(key, 1), d];
    assert !InOpen([Closed(key, 1), d], 1);
    assert [a, b, third][1 := Won(b)] == [a, Won(b), third];
    assert SetStatus([a, Won(b), third], 0, Stale) == [a.(status := Stale), Won(b), third];
  }
}
