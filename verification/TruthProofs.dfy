/** What every operation of the truth layer keeps, over every run. */
module TruthProofs {
  import opened Common
  import opened Truth

  // ---------------------------------------------------------------- the invariant

  ghost predicate TablesInv(facts: seq<Fact>, conflicts: seq<Conflict>) {
    && (forall c | 0 <= c < |conflicts| ::
          && conflicts[c].a < |facts| && conflicts[c].b < |facts| && conflicts[c].a != conflicts[c].b
          && facts[conflicts[c].a].key == conflicts[c].key == facts[conflicts[c].b].key)
    && (forall f, g | 0 <= f < g < |facts| :: !(facts[f].key == facts[g].key && facts[f].value == facts[g].value))
  }

  /** A fact in an OPEN conflict is CONFLICTED or STALE; a CONFLICTED fact is in an OPEN conflict;
      an unordered pair has at most one OPEN conflict. */
  ghost predicate Coupled(facts: seq<Fact>, conflicts: seq<Conflict>) {
    && (forall f | 0 <= f < |facts| && InOpen(conflicts, f) :: facts[f].status in {Conflicted, Stale})
    && (forall f | 0 <= f < |facts| && facts[f].status == Conflicted :: InOpen(conflicts, f))
    && (forall c, d | 0 <= c < d < |conflicts| && conflicts[c].resolution == Open && conflicts[d].resolution == Open ::
          !Joins(conflicts[c], conflicts[d].a, conflicts[d].b))
  }

  ghost predicate Earned(st: Store, f: FactId)
    requires f < |st.facts|
  {
    f in st.earned || |Domains(st.facts[f].sources)| >= 2
  }

  ghost predicate VerifiedIsEarned(st: Store) {
    forall f | 0 <= f < |st.facts| && st.facts[f].status == Verified :: Earned(st, f)
  }

  ghost predicate Inv(st: Store) {
    TablesInv(st.facts, st.conflicts) && Coupled(st.facts, st.conflicts) && VerifiedIsEarned(st)
  }

  /** Any two live values of one (subject, field) are joined by an OPEN conflict. */
  ghost predicate Complete(st: Store, now: int) {
    forall f, g | 0 <= f < |st.facts| && 0 <= g < |st.facts| && f != g
                  && st.facts[f].key == st.facts[g].key && Live(st.facts[f], now) && Live(st.facts[g], now) ::
      OpenPair(st.conflicts, st.facts[f].key, f, g)
  }

  // ---------------------------------------------------------------- opening conflicts

  lemma InOpenAfterAppend(conflicts: seq<Conflict>, c: Conflict, f: FactId)
    ensures InOpen(conflicts + [c], f) <==> InOpen(conflicts, f) || (c.resolution == Open && Touches(c, f))
  {
    var more := conflicts + [c];
    assert more[|conflicts|] == c;
    if InOpen(conflicts, f) {
      var k :| 0 <= k < |conflicts| && conflicts[k].resolution == Open && Touches(conflicts[k], f);
      assert more[k] == conflicts[k];
    }
    if InOpen(more, f) {
      var k :| 0 <= k < |more| && more[k].resolution == Open && Touches(more[k], f);
      assert k < |conflicts| ==> more[k] == conflicts[k];
    }
  }

  lemma OpenPairKept(conflicts: seq<Conflict>, more: seq<Conflict>, key: Key, a: FactId, b: FactId)
    requires conflicts <= more && OpenPair(conflicts, key, a, b)
    ensures OpenPair(more, key, a, b)
  {
    var k :| 0 <= k < |conflicts| && conflicts[k].resolution == Open && conflicts[k].key == key
             && Joins(conflicts[k], a, b);
    assert more[k] == conflicts[k];
  }

  /** What detection may do to the store: statuses turn CONFLICTED, conflicts are added. */
  ghost predicate Grown(st: Store, st': Store, f: FactId) {
    && |st'.facts| == |st.facts| && st'.earned == st.earned && st.conflicts <= st'.conflicts
    && (forall x | 0 <= x < |st.facts| ::
          && st'.facts[x] == st.facts[x].(status := st'.facts[x].status)
          && st'.facts[x].status in {st.facts[x].status, Conflicted}
          && (x != f && Sourced(st'.facts[x].status) ==> Sourced(st.facts[x].status)))
  }

  lemma WithConflictKeepsInv(st: Store, key: Key, a: FactId, b: FactId)
    requires Inv(st) && a < |st.facts| && b < |st.facts| && a != b
    requires st.facts[a].key == key == st.facts[b].key && Sourced(st.facts[a].status)
    ensures Inv(WithConflict(st, key, a, b))
    ensures Grown(st, WithConflict(st, key, a, b), b)
    ensures OpenPair(WithConflict(st, key, a, b).conflicts, key, a, b)
  {
    if !OpenPair(st.conflicts, key, a, b) {
      assert WithConflict(st, key, a, b).conflicts[|st.conflicts|] == Conflict(key, a, b, Open, None);
      ConflictKeepsTables(st, key, a, b);
      ConflictKeepsEarned(st, key, a, b);
      ConflictKeepsCoupled(st, key, a, b);
    }
  }

  lemma ConflictKeepsTables(st: Store, key: Key, a: FactId, b: FactId)
    requires TablesInv(st.facts, st.conflicts) && a < |st.facts| && b < |st.facts| && a != b
    requires st.facts[a].key == key == st.facts[b].key
    ensures var st' := WithConflict(st, key, a, b); TablesInv(st'.facts, st'.conflicts)
  {
    var st' := WithConflict(st, key, a, b);
    assert forall f | 0 <= f < |st.facts| :: st'.facts[f] == st.facts[f].(status := st'.facts[f].status);
  }

  lemma ConflictKeepsEarned(st: Store, key: Key, a: FactId, b: FactId)
    requires VerifiedIsEarned(st) && a < |st.facts| && b < |st.facts|
    ensures VerifiedIsEarned(WithConflict(st, key, a, b))
  {
  }

  lemma ConflictKeepsCoupled(st: Store, key: Key, a: FactId, b: FactId)
    requires Inv(st) && a < |st.facts| && b < |st.facts| && a != b && !OpenPair(st.conflicts, key, a, b)
    requires st.facts[a].key == key == st.facts[b].key && Sourced(st.facts[a].status)
    ensures Coupled(WithConflict(st, key, a, b).facts, WithConflict(st, key, a, b).conflicts)
  {
    var st' := WithConflict(st, key, a, b);
    var c := Conflict(key, a, b, Open, None);
    forall f ensures InOpen(st'.conflicts, f) <==> InOpen(st.conflicts, f) || Touches(c, f) {
      InOpenAfterAppend(st.conflicts, c, f);
    }
    NewPairIsOnlyOne(st, key, a, b);
  }

  lemma NewPairIsOnlyOne(st: Store, key: Key, a: FactId, b: FactId)
    requires Inv(st) && a < |st.facts| && b < |st.facts| && a != b && !OpenPair(st.conflicts, key, a, b)
    requires st.facts[a].key == key == st.facts[b].key
    ensures var more := st.conflicts + [Conflict(key, a, b, Open, None)];
            forall c, d | 0 <= c < d < |more| && more[c].resolution == Open && more[d].resolution == Open ::
              !Joins(more[c], more[d].a, more[d].b)
  {
    forall k | 0 <= k < |st.conflicts| && st.conflicts[k].resolution == Open
      ensures !Joins(st.conflicts[k], a, b)
    {
      assert st.conflicts[k].key == key || !Joins(st.conflicts[k], a, b);
    }
  }

  lemma GrownTrans(a: Store, b: Store, c: Store, f: FactId)
    requires Grown(a, b, f) && Grown(b, c, f)
    ensures Grown(a, c, f)
  {
    assert forall x | 0 <= x < |a.facts| :: b.facts[x].status in {a.facts[x].status, Conflicted};
  }

  /** The conflicts added since `before` each join `f` with a live rival. */
  ghost predicate OnlyRivalsJoined(before: seq<Conflict>, after: seq<Conflict>, rows: seq<Fact>, key: Key, f: FactId,
                                   now: int)
  {
    forall c | |before| <= c < |after| ::
      after[c] == Conflict(key, after[c].a, f, Open, None) && Rival(rows, key, f, after[c].a, now)
  }

  ghost predicate RivalsJoined(conflicts: seq<Conflict>, rows: seq<Fact>, key: Key, f: FactId, from: nat, now: int) {
    forall x | from <= x < |rows| && Rival(rows, key, f, x, now) :: OpenPair(conflicts, key, x, f)
  }

  /** What every single opening keeps, the whole loop keeps. */
  lemma {:induction false} DetectedKeeps(P: Store -> bool, st: Store, rows: seq<Fact>, key: Key, f: FactId, k: nat,
                                         now: int)
    requires k <= |rows| == |st.facts| && f < |st.facts| && P(st)
    requires forall s: Store, x: nat {:trigger WithConflict(s, key, x, f)} ::
               P(s) && |s.facts| == |rows| && Rival(rows, key, f, x, now) ==> P(WithConflict(s, key, x, f))
    ensures P(Detected(st, rows, key, f, k, now))
    decreases |rows| - k
  {
    if k < |rows| {
      var st1 := if Rival(rows, key, f, k, now) then WithConflict(st, key, k, f) else st;
      DetectedKeeps(P, st1, rows, key, f, k + 1, now);
    }
  }

  lemma DetectedKeepsInv(st: Store, key: Key, f: FactId, now: int)
    requires Inv(st) && f < |st.facts| && st.facts[f].key == key
    ensures Inv(Detected(st, st.facts, key, f, 0, now)) && Grown(st, Detected(st, st.facts, key, f, 0, now), f)
  {
    var P := (s: Store) => Inv(s) && Grown(st, s, f);
    forall s: Store, x: nat | P(s) && |s.facts| == |st.facts| && Rival(st.facts, key, f, x, now)
      ensures P(WithConflict(s, key, x, f))
    {
      OneOpening(st, s, key, f, x, now);
    }
    DetectedKeeps(P, st, st.facts, key, f, 0, now);
  }

  lemma OneOpening(st: Store, s: Store, key: Key, f: FactId, x: nat, now: int)
    requires f < |st.facts| && st.facts[f].key == key
    requires Inv(s) && Grown(st, s, f) && Rival(st.facts, key, f, x, now)
    ensures Inv(WithConflict(s, key, x, f)) && Grown(st, WithConflict(s, key, x, f), f)
  {
    assert s.facts[x].status in {st.facts[x].status, Conflicted};
    WithConflictKeepsInv(s, key, x, f);
    GrownTrans(st, s, WithConflict(s, key, x, f), f);
  }

  lemma {:induction false} DetectedExtends(st: Store, rows: seq<Fact>, key: Key, f: FactId, k: nat, now: int)
    requires k <= |rows| == |st.facts| && f < |st.facts|
    ensures st.conflicts <= Detected(st, rows, key, f, k, now).conflicts
    decreases |rows| - k
  {
    if k < |rows| {
      var st1 := if Rival(rows, key, f, k, now) then WithConflict(st, key, k, f) else st;
      DetectedExtends(st1, rows, key, f, k + 1, now);
    }
  }

  /** Detection leaves no live rival out ... */
  lemma {:induction false} DetectedJoinsRivals(st: Store, rows: seq<Fact>, key: Key, f: FactId, k: nat, now: int)
    requires k <= |rows| == |st.facts| && f < |st.facts|
    ensures RivalsJoined(Detected(st, rows, key, f, k, now).conflicts, rows, key, f, k, now)
    decreases |rows| - k
  {
    if k < |rows| {
      var st1 := if Rival(rows, key, f, k, now) then WithConflict(st, key, k, f) else st;
      DetectedJoinsRivals(st1, rows, key, f, k + 1, now);
      if Rival(rows, key, f, k, now) {
        WithConflictJoins(st, key, k, f);
        DetectedExtends(st1, rows, key, f, k + 1, now);
        OpenPairKept(st1.conflicts, Detected(st1, rows, key, f, k + 1, now).conflicts, key, k, f);
      }
    }
  }

  lemma WithConflictJoins(st: Store, key: Key, a: FactId, b: FactId)
    requires a < |st.facts| && b < |st.facts|
    ensures OpenPair(WithConflict(st, key, a, b).conflicts, key, a, b)
  {
    if !OpenPair(st.conflicts, key, a, b) {
      assert WithConflict(st, key, a, b).conflicts[|st.conflicts|] == Conflict(key, a, b, Open, None);
    }
  }

  /** ... and joins nobody else. */
  lemma {:induction false} DetectedJoinsOnlyRivals(st: Store, rows: seq<Fact>, key: Key, f: FactId, k: nat, now: int)
    requires k <= |rows| == |st.facts| && f < |st.facts|
    ensures OnlyRivalsJoined(st.conflicts, Detected(st, rows, key, f, k, now).conflicts, rows, key, f, now)
    decreases |rows| - k
  {
    if k < |rows| {
      var st1 := if Rival(rows, key, f, k, now) then WithConflict(st, key, k, f) else st;
      DetectedJoinsOnlyRivals(st1, rows, key, f, k + 1, now);
      DetectedExtends(st1, rows, key, f, k + 1, now);
      var after := Detected(st1, rows, key, f, k + 1, now).conflicts;
      forall c | |st.conflicts| <= c < |after|
        ensures after[c] == Conflict(key, after[c].a, f, Open, None) && Rival(rows, key, f, after[c].a, now)
      {
        if c < |st1.conflicts| {
          assert after[c] == st1.conflicts[c];
        }
      }
    }
  }

  // ---------------------------------------------------------------- every operation keeps the invariant

  lemma MoreSourcesMoreDomains(sources: seq<Source>, s: Source)
    ensures Domains(sources) <= Domains(WithSource(sources, s))
    ensures |Domains(sources)| <= |Domains(WithSource(sources, s))|
  {
    var more := WithSource(sources, s);
    forall d | d in Domains(sources) ensures d in Domains(more) {
      var i :| 0 <= i < |sources| && Observation(sources[i]) && DomainOf(sources[i]) == d;
      assert more[i] == sources[i];
    }
    assert Domains(more) == Domains(sources) + (Domains(more) - Domains(sources));
  }

  lemma SameStatusesKeepCoupling(facts: seq<Fact>, facts': seq<Fact>, conflicts: seq<Conflict>)
    requires TablesInv(facts, conflicts) && Coupled(facts, conflicts) && |facts'| == |facts|
    requires forall x | 0 <= x < |facts| ::
               facts'[x].key == facts[x].key && facts'[x].value == facts[x].value && facts'[x].status == facts[x].status
    ensures TablesInv(facts', conflicts) && Coupled(facts', conflicts)
  {
  }

  lemma NewSourceKeepsInv(st: Store, f: FactId, s: Source)
    requires Inv(st) && f < |st.facts|
    ensures Inv(st.(facts := st.facts[f := st.facts[f].(sources := WithSource(st.facts[f].sources, s))]))
  {
    var facts' := st.facts[f := st.facts[f].(sources := WithSource(st.facts[f].sources, s))];
    SameStatusesKeepCoupling(st.facts, facts', st.conflicts);
    assert VerifiedIsEarned(st.(facts := facts')) by {
      forall x | 0 <= x < |facts'| && facts'[x].status == Verified ensures Earned(st.(facts := facts'), x) {
        assert Earned(st, x);
        if x == f { MoreSourcesMoreDomains(st.facts[f].sources, s); }
      }
    }
  }

  lemma NewFactKeepsInv(st: Store, fact: Fact)
    requires Inv(st) && fact.status in {Inferred, Unverified}
    requires forall g | 0 <= g < |st.facts| :: !(st.facts[g].key == fact.key && st.facts[g].value == fact.value)
    ensures Inv(st.(facts := st.facts + [fact]))
  {
    var more := st.facts + [fact];
    assert forall x | 0 <= x < |st.facts| :: more[x] == st.facts[x];
    assert !InOpen(st.conflicts, |st.facts|);
  }

  lemma NotedKeepsInv(policy: Policy, st: Store, key: Key, o: Observed, now: int)
    requires Inv(st)
    ensures var (st1, f) := Noted(policy, st, key, o, now);
            Inv(st1) && f < |st1.facts| && st1.facts[f].key == key
  {
    var f := Find(st.facts, key, NormalValue(o.raw));
    if f == |st.facts| {
      NewFactKeepsInv(st, NewFact(policy, key, o, now));
    } else if HasSource(o.source) {
      NewSourceKeepsInv(st, f, o.source);
    } else {
      assert Noted(policy, st, key, o, now).0 == st;
    }
  }

  lemma SettledKeepsInv(st: Store, f: FactId)
    requires Inv(st) && f < |st.facts|
    ensures Inv(Settled(st, f))
  {
    var st' := Settled(st, f);
    assert forall x | 0 <= x < |st.facts| && x != f :: st'.facts[x] == st.facts[x];
    assert st'.facts[f].sources == st.facts[f].sources;
  }

  lemma ClockKeepsInv(st: Store, f: FactId, at: int, until: int)
    requires Inv(st) && f < |st.facts|
    ensures Inv(st.(facts := st.facts[f := st.facts[f].(collectedAt := at, expiresAt := until)]))
  {
    var facts' := st.facts[f := st.facts[f].(collectedAt := at, expiresAt := until)];
    SameStatusesKeepCoupling(st.facts, facts', st.conflicts);
    SameSourcesKeepEarned(st, facts');
  }

  lemma SameSourcesKeepEarned(st: Store, facts': seq<Fact>)
    requires VerifiedIsEarned(st) && |facts'| == |st.facts|
    requires forall x | 0 <= x < |facts'| ::
               facts'[x].sources == st.facts[x].sources && facts'[x].status == st.facts[x].status
    ensures VerifiedIsEarned(st.(facts := facts'))
  {
    forall x | 0 <= x < |facts'| && facts'[x].status == Verified ensures Earned(st.(facts := facts'), x) {
      assert Earned(st, x);
    }
  }

  lemma RecordedKeepsInv(policy: Policy, st: Store, key: Key, o: Observed, now: int)
    requires Inv(st) && Acceptable(o)
    ensures Inv(Recorded(policy, st, key, o, now))
  {
    CheckedAfterNoting(policy, st, key, o, now);
    var (st1, f) := Noted(policy, st, key, o, now);
    ClockKeepsInv(Settled(Detected(st1, st1.facts, key, f, 0, now), f), f, now, now + Ttl(policy, key.field));
  }

  /** Everything but the new time to live of a fact that was known. */
  lemma CheckedAfterNoting(policy: Policy, st: Store, key: Key, o: Observed, now: int)
    requires Inv(st)
    ensures var (st1, f) := Noted(policy, st, key, o, now);
            var st2 := Settled(Detected(st1, st1.facts, key, f, 0, now), f);
            Inv(st2) && f < |st2.facts|
  {
    NotedKeepsInv(policy, st, key, o, now);
    var (st1, f) := Noted(policy, st, key, o, now);
    DetectThenSettleKeepsInv(st1, key, f, now);
  }

  lemma DetectThenSettleKeepsInv(st: Store, key: Key, f: FactId, now: int)
    requires Inv(st) && f < |st.facts| && st.facts[f].key == key
    ensures Inv(Settled(Detected(st, st.facts, key, f, 0, now), f))
  {
    DetectedKeepsInv(st, key, f, now);
    SettledKeepsInv(Detected(st, st.facts, key, f, 0, now), f);
  }

  /** Closing (or closing again) row `c`: which facts are still in an OPEN conflict. */
  lemma InOpenAfterClosing(conflicts: seq<Conflict>, c: ConflictId, row: Conflict, f: FactId)
    requires c < |conflicts| && row.resolution != Open
    ensures InOpen(conflicts[c := row], f) ==> InOpen(conflicts, f)
    ensures InOpen(conflicts, f) && !Touches(conflicts[c], f) ==> InOpen(conflicts[c := row], f)
  {
    var after := conflicts[c := row];
    if InOpen(after, f) {
      var k :| 0 <= k < |after| && after[k].resolution == Open && Touches(after[k], f);
      assert conflicts[k] == after[k];
    }
    if InOpen(conflicts, f) && !Touches(conflicts[c], f) {
      var k :| 0 <= k < |conflicts| && conflicts[k].resolution == Open && Touches(conflicts[k], f);
      assert after[k] == conflicts[k];
    }
  }

  lemma ResolvedKeepsInv(st: Store, c: ConflictId, winner: FactId, automatic: bool)
    requires Inv(st) && Resolvable(st, c, winner)
    ensures Inv(Resolved(st, c, winner, automatic))
  {
    var st' := Resolved(st, c, winner, automatic);
    var loser := LoserOf(st.conflicts[c], winner);
    forall f
      ensures InOpen(st'.conflicts, f) ==> InOpen(st.conflicts, f)
      ensures InOpen(st.conflicts, f) && f != winner && f != loser ==> InOpen(st'.conflicts, f)
    {
      InOpenAfterClosing(st.conflicts, c, st'.conflicts[c], f);
    }
    assert forall x | 0 <= x < |st.facts| && x != winner && x != loser :: st'.facts[x] == st.facts[x];
    assert st'.facts[loser].status == Stale;
    assert forall x | 0 <= x < |st.facts| ::
        st'.facts[x].key == st.facts[x].key && st'.facts[x].value == st.facts[x].value
        && st'.facts[x].sources == st.facts[x].sources;
  }

  lemma CheckedKeepsInv(policy: Policy, st: Store, f: FactId, outcome: Outcome, confidence: Option<real>,
                        source: Source, now: int)
    requires Inv(st) && Verifiable(st, f, outcome)
    ensures Inv(Checked(policy, st, f, outcome, confidence, source, now))
  {
    MoreSourcesMoreDomains(st.facts[f].sources, source.(kind := "email_verify"));
    var st' := Checked(policy, st, f, outcome, confidence, source, now);
    assert forall x | 0 <= x < |st.facts| && x != f :: st'.facts[x] == st.facts[x];
  }

  lemma FreshenedKeepsInv(st: Store, subjectKind: string, subject: string, now: int)
    requires Inv(st)
    ensures Inv(Freshened(st, subjectKind, subject, now))
  {
    var st' := Freshened(st, subjectKind, subject, now);
    assert forall x | 0 <= x < |st.facts| ::
        st'.facts[x] == st.facts[x] || st'.facts[x] == st.facts[x].(status := Stale);
  }

  lemma StepKeepsInv(policy: Policy, st: Store, op: Op, now: int)
    requires Inv(st)
    ensures Inv(Step(policy, st, op, now))
  {
    match op
    case Record(key, o) => if Acceptable(o) { RecordedKeepsInv(policy, st, key, o, now); }
    case Resolve(c, winner, automatic) => if Resolvable(st, c, winner) { ResolvedKeepsInv(st, c, winner, automatic); }
    case Verify(f, outcome, conf, source) =>
      if Verifiable(st, f, outcome) { CheckedKeepsInv(policy, st, f, outcome, conf, source, now); }
    case Snapshot(kind, subject) => FreshenedKeepsInv(st, kind, subject, now);
  }

  /** In every reachable store: statuses and conflicts agree, and VERIFIED is always earned. */
  lemma {:induction false} RunKeepsInv(policy: Policy, st: Store, events: seq<Event>)
    requires Inv(st)
    ensures Inv(Run(policy, st, events))
  {
    if events != [] {
      RunKeepsInv(policy, st, events[..|events| - 1]);
      var e := events[|events| - 1];
      StepKeepsInv(policy, Run(policy, st, events[..|events| - 1]), e.op, e.now);
    }
  }
}
