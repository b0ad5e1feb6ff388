/** lead_engine/truth.py: the fact store, its tables updated in place.

    Each method is proved to be the operation of `Truth` that the lemmas are about; `Snapshot`
    is proved against what a reader of the report may rely on. Row order of an unordered SELECT
    is taken to be insertion order (it only decides the numbering of new conflicts). */
module FactsStoreModule {
  import opened Common
  import opened Truth
  import opened TruthProofs

  function Rank(s: Status): int {
    match s
    case Verified => 3
    case Unverified => 2
    case Inferred => 1
    case Conflicted => 0
    case Stale => -1
  }

  /** The sort key of snapshot: rank, then confidence, then age of the observation. */
  predicate AtLeastAsGood(a: Fact, b: Fact) {
    Rank(a.status) > Rank(b.status) ||
    (a.status == b.status &&
     (a.confidence > b.confidence || (a.confidence == b.confidence && a.collectedAt >= b.collectedAt)))
  }

  datatype FieldView = FieldView(current: FactId, status: Status, alternatives: set<FactId>)

  ghost predicate InGroup(facts: seq<Fact>, key: Key, f: FactId) {
    f < |facts| && facts[f].key == key
  }

  ghost predicate SomeVerified(st: Store, key: Key, now: int) {
    exists f: FactId :: InGroup(st.facts, key, f) && st.facts[f].status == Verified && Fresh(st.facts[f], now)
  }

  ghost predicate SomeInConflict(st: Store, key: Key) {
    exists f: FactId :: InGroup(st.facts, key, f) && InOpen(st.conflicts, f)
  }

  /** The status a reader sees, characterised without the sort that produced it. */
  ghost predicate StatusMeans(st: Store, key: Key, current: FactId, status: Status, now: int)
    requires current < |st.facts|
  {
    && (status == Conflicted <==> SomeInConflict(st, key))
    && (status == Verified <==> SomeVerified(st, key, now) && !SomeInConflict(st, key))
    && (status == Verified ==> st.facts[current].status == Verified && Fresh(st.facts[current], now))
    && (status == Stale <==>
          !SomeInConflict(st, key) && forall f: FactId | InGroup(st.facts, key, f) :: st.facts[f].status == Stale)
  }

  ghost predicate IsBest(facts: seq<Fact>, key: Key, current: FactId) {
    InGroup(facts, key, current) &&
    forall f: FactId | InGroup(facts, key, f) :: AtLeastAsGood(facts[current], facts[f])
  }

  /** The best row of a field, in the order readers expect: VERIFIED before UNVERIFIED before INFERRED
      before CONFLICTED before STALE, then the surer, then the newer. */
  lemma BestInOrder(facts: seq<Fact>, key: Key, current: FactId, f: FactId)
    requires IsBest(facts, key, current) && InGroup(facts, key, f)
    ensures match facts[current].status
            case Verified => true
            case Unverified => facts[f].status != Verified
            case Inferred => facts[f].status in {Inferred, Conflicted, Stale}
            case Conflicted => facts[f].status in {Conflicted, Stale}
            case Stale => facts[f].status == Stale
    ensures facts[f].status == facts[current].status ==> facts[f].confidence <= facts[current].confidence
    ensures facts[f].status == facts[current].status && facts[f].confidence == facts[current].confidence ==>
              facts[f].collectedAt <= facts[current].collectedAt
  {
    assert AtLeastAsGood(facts[current], facts[f]);
  }

  /** What the report of one field means. */
  ghost predicate Reports(st: Store, key: Key, view: FieldView, now: int) {
    && IsBest(st.facts, key, view.current)
    && StatusMeans(st, key, view.current, view.status, now)
    && (forall f | f in view.alternatives ::
          InGroup(st.facts, key, f) && f != view.current && st.facts[f].status != Stale)
    && (forall f: FactId | InGroup(st.facts, key, f) && f != view.current && st.facts[f].status != Stale ::
          f in view.alternatives)
  }

  /** The rows of one subject after freshness has been applied, and its facts in OPEN conflicts. */
  ghost predicate ReadyToReport(st: Store, subjectKind: string, subject: string, conflicted: set<FactId>, now: int) {
    forall f | 0 <= f < |st.facts| && OfSubject(st.facts[f], subjectKind, subject) ::
      && (f in conflicted <==> InOpen(st.conflicts, f))
      && (st.facts[f].status == Conflicted ==> f in conflicted)
      && (Sourced(st.facts[f].status) ==> Fresh(st.facts[f], now))
  }

  /** The best row of a field, flagged CONFLICTED if any row of the field is in an OPEN conflict,
      reports the field as `Reports` says. */
  lemma BestRowReports(st: Store, key: Key, group: set<FactId>, live: set<FactId>, current: FactId,
                       conflicted: set<FactId>, now: int)
    requires forall f | f in group :: f < |st.facts| && st.facts[f].key == key
    requires forall f: FactId | InGroup(st.facts, key, f) :: f in group
    requires live <= group && forall f | f in group :: f in live <==> st.facts[f].status != Stale
    requires current in group && (live != {} ==> current in live)
    requires forall f | f in group && (live != {} ==> f in live) :: AtLeastAsGood(st.facts[current], st.facts[f])
    requires ReadyToReport(st, key.subjectKind, key.subject, conflicted, now)
    ensures var status := if exists f: FactId | f in group :: f in conflicted then Conflicted
                          else st.facts[current].status;
            Reports(st, key, FieldView(current, status, live - {current}), now)
  {
    assert forall f | f in group :: OfSubject(st.facts[f], key.subjectKind, key.subject);
    assert forall f | f in group && f !in live :: st.facts[f].status == Stale;
    assert IsBest(st.facts, key, current);
    assert SomeInConflict(st, key) <==> exists f: FactId | f in group :: f in conflicted;
    assert SomeVerified(st, key, now) ==> st.facts[current].status == Verified;
  }

  ghost predicate AllReported(st: Store, subjectKind: string, subject: string, fields: map<string, FieldView>,
                              now: int)
  {
    forall field | field in fields :: Reports(st, Key(subjectKind, subject, field), fields[field], now)
  }

  lemma OneMoreReported(st: Store, key: Key, fields: map<string, FieldView>, view: FieldView, now: int)
    requires AllReported(st, key.subjectKind, key.subject, fields, now) && Reports(st, key, view, now)
    ensures AllReported(st, key.subjectKind, key.subject, fields[key.field := view], now)
  {
    assert key == Key(key.subjectKind, key.subject, key.field);
  }

  lemma FreshenedIsInOrder(policy: Policy, st: Store, subjectKind: string, subject: string, now: int)
    requires Inv(st)
    ensures var st' := Freshened(st, subjectKind, subject, now);
            && st' == Step(policy, st, Op.Snapshot(subjectKind, subject), now)
            && Inv(st') && TablesInv(st'.facts, st'.conflicts)
            && (forall f | 0 <= f < |st'.facts| && st'.facts[f].status == Conflicted :: InOpen(st'.conflicts, f))
            && forall f | 0 <= f < |st'.facts| && OfSubject(st'.facts[f], subjectKind, subject)
                          && Sourced(st'.facts[f].status) ::
                 Fresh(st'.facts[f], now)
  {
    StepKeepsInv(policy, st, Op.Snapshot(subjectKind, subject), now);
  }

  class FactsStore {
    const policy: Policy
    var facts: seq<Fact>
    var conflicts: seq<Conflict>
    ghost var earned: set<FactId>

    ghost function State(): Store reads this {
      Store(facts, conflicts, earned)
    }

    ghost predicate Valid() reads this {
      Inv(State())
    }

    constructor (policy: Policy)
      ensures Valid() && State() == EMPTY_STORE && this.policy == policy
    {
      this.policy := policy;
      facts, conflicts, earned := [], [], {};
    }

    method AddSource(f: FactId, s: Source)
      requires f < |facts|
      modifies this`facts
      ensures facts == old(facts)[f := old(facts)[f].(sources := WithSource(old(facts)[f].sources, s))]
    {
      var kind := if s.kind in SOURCE_KINDS then s.kind else "search_api";
      var row := s.(kind := kind);
      var i := 0;
      while i < |facts[f].sources|
        invariant i <= |facts[f].sources|
        invariant forall k | 0 <= k < i :: !SameSource(facts[f].sources[k], row)
      {
        if SameSource(facts[f].sources[i], row) {
          assert facts[f].sources == WithSource(facts[f].sources, s);
          assert facts[f] == facts[f].(sources := WithSource(facts[f].sources, s));
          return;
        }
        i := i + 1;
      }
      facts := facts[f := facts[f].(sources := facts[f].sources + [row])];
    }

    method OpenConflict(key: Key, a: FactId, b: FactId) returns (isNew: bool)
      requires a < |facts| && b < |facts|
      modifies this`facts, this`conflicts
      ensures State() == WithConflict(old(State()), key, a, b)
      ensures isNew <==> !OpenPair(old(conflicts), key, a, b)
    {
      var i := 0;
      while i < |conflicts|
        invariant i <= |conflicts|
        invariant forall k | 0 <= k < i ::
            !(conflicts[k].resolution == Open && conflicts[k].key == key && Joins(conflicts[k], a, b))
      {
        if conflicts[i].resolution == Open && conflicts[i].key == key && Joins(conflicts[i], a, b) {
          return false;
        }
        i := i + 1;
      }
      conflicts := conflicts + [Conflict(key, a, b, Open, None)];
      facts := SetStatus(facts, a, Conflicted);
      facts := SetStatus(facts, b, Conflicted);
      isNew := true;
    }

    /** Returns how many new conflict rows were opened. */
    method DetectConflicts(key: Key, f: FactId, now: int) returns (count: nat)
      requires f < |facts|
      modifies this`facts, this`conflicts
      ensures State() == Detected(old(State()), old(facts), key, f, 0, now)
      ensures count == |conflicts| - |old(conflicts)|
    {
      var rows := facts;
      count := 0;
      var k := 0;
      while k < |rows|
        invariant k <= |rows| == |facts|
        invariant Detected(State(), rows, key, f, k, now) == Detected(old(State()), rows, key, f, 0, now)
        invariant count == |conflicts| - |old(conflicts)|
      {
        if k != f && rows[k].key == key && Sourced(rows[k].status) && Fresh(rows[k], now) {
          var isNew := OpenConflict(key, k, f);
          if isNew {
            count := count + 1;
          }
        }
        k := k + 1;
      }
    }

    method NoteObservation(key: Key, o: Observed, now: int) returns (f: FactId, known: bool)
      modifies this`facts
      ensures State() == Noted(policy, old(State()), key, o, now).0
      ensures f == Find(old(facts), key, NormalValue(o.raw)) < |facts|
      ensures known <==> f < |old(facts)|
    {
      f := Find(facts, key, NormalValue(o.raw));
      known := f < |facts|;
      if !known {
        facts := facts + [NewFact(policy, key, o, now)];
      } else if HasSource(o.source) {
        AddSource(f, o.source);
      } else {
        assert facts == facts[f := facts[f].(sources := facts[f].sources)];
      }
    }

    method UpdateStatus(f: FactId)
      requires f < |facts|
      modifies this`facts
      ensures State() == Settled(old(State()), f)
    {
      var (status, confidence) := Recomputed(Store(facts, conflicts, {}), f);
      facts := facts[f := facts[f].(status := status, confidence := confidence)];
    }

    method Observe(key: Key, o: Observed, now: int) returns (f: FactId)
      requires Acceptable(o)
      modifies this`facts, this`conflicts
      ensures State() == Recorded(policy, old(State()), key, o, now)
      ensures f == Find(old(facts), key, NormalValue(o.raw)) < |facts|
    {
      var known;
      f, known := NoteObservation(key, o, now);
      ghost var st1 := State();
      var count := DetectConflicts(key, f, now);
      ghost var st2 := State();
      assert st2 == Detected(st1, st1.facts, key, f, 0, now);
      UpdateStatus(f);
      if known {
        facts := facts[f := facts[f].(collectedAt := now, expiresAt := now + Ttl(policy, key.field))];
      }
    }

    method RecordFact(key: Key, o: Observed, now: int) returns (r: Result<FactId, string>)
      requires Valid()
      modifies this`facts, this`conflicts
      ensures Valid() && State() == Step(policy, old(State()), Record(key, o), now)
      ensures r.Ok? <==> NormalValue(o.raw) != "" && (o.source.url != "" || o.source.provider != "" || o.inferred)
      ensures r.Err? ==> State() == old(State())
      ensures r.Ok? ==> r.value == Find(old(facts), key, NormalValue(o.raw)) < |facts|
    {
      StepKeepsInv(policy, State(), Record(key, o), now);
      if NormalValue(o.raw) == "" {
        return Err("fact value must be non-empty");
      }
      if !HasSource(o.source) && !o.inferred {
        return Err("a fact needs a source or inferred=True");
      }
      var f := Observe(key, o, now);
      return Ok(f);
    }

    method ResolveConflict(c: ConflictId, winner: FactId, automatic: bool, now: int) returns (r: Result<(), string>)
      requires Valid()
      modifies this
      ensures Valid() && State() == Step(policy, old(State()), Resolve(c, winner, automatic), now)
      ensures r.Ok? <==> c < |old(conflicts)| && Touches(old(conflicts)[c], winner)
    {
      StepKeepsInv(policy, State(), Resolve(c, winner, automatic), now);
      if c >= |conflicts| {
        return Err("conflict not found");
      }
      var row := conflicts[c];
      if winner != row.a && winner != row.b {
        return Err("winner must be one of the conflicting facts");
      }
      var loser := if winner == row.a then row.b else row.a;
      conflicts := conflicts[c := row.(resolution := if automatic then ResolvedAuto else ResolvedHuman,
                                       winner := Some(winner))];
      if !InOpen(conflicts, winner) {
        facts := facts[winner := facts[winner].(status := Verified, confidence := Max(0.85, facts[winner].confidence))];
        earned := earned + {winner};
      }
      facts := SetStatus(facts, loser, Stale);
      return Ok(());
    }

    method ApplyCheck(f: FactId, outcome: Outcome, confidence: Option<real>, source: Source, now: int)
      requires Verifiable(State(), f, outcome)
      modifies this
      ensures State() == Checked(policy, old(State()), f, outcome, confidence, source, now)
    {
      if HasSource(source) {
        AddSource(f, source.(kind := "email_verify"));
      } else {
        assert facts == facts[f := facts[f].(sources := facts[f].sources)];
      }
      match outcome {
        case Confirmed =>
          var conf := if confidence.Some? then confidence.value else Max(0.85, facts[f].confidence);
          facts := facts[f := facts[f].(status := Verified, confidence := conf,
                                        expiresAt := now + Ttl(policy, facts[f].key.field))];
          earned := earned + {f};
        case Refuted =>
          facts := facts[f := facts[f].(status := Stale, confidence := 0.1)];
        case OtherOutcome =>
      }
    }

    method VerifyFact(f: FactId, outcome: Outcome, confidence: Option<real>, source: Source, now: int)
      returns (r: Result<(), string>)
      requires Valid()
      modifies this
      ensures Valid() && State() == Step(policy, old(State()), Verify(f, outcome, confidence, source), now)
      ensures r.Ok? <==> f < |old(facts)| && (outcome == Confirmed ==> !InOpen(old(conflicts), f))
    {
      StepKeepsInv(policy, State(), Verify(f, outcome, confidence, source), now);
      if f >= |facts| {
        return Err("fact not found");
      }
      if outcome == Confirmed && InOpen(conflicts, f) {
        return Err("fact has an OPEN conflict");
      }
      ApplyCheck(f, outcome, confidence, source, now);
      return Ok(());
    }

    method ApplyFreshness(subjectKind: string, subject: string, now: int)
      modifies this`facts
      ensures State() == Freshened(old(State()), subjectKind, subject, now)
    {
      var i := 0;
      while i < |facts|
        invariant i <= |facts| == |old(facts)|
        invariant forall k | 0 <= k < i :: facts[k] == Freshened(old(State()), subjectKind, subject, now).facts[k]
        invariant forall k | i <= k < |facts| :: facts[k] == old(facts)[k]
      {
        if OfSubject(facts[i], subjectKind, subject) && Sourced(facts[i].status) && !Fresh(facts[i], now) {
          facts := SetStatus(facts, i, Stale);
        }
        i := i + 1;
      }
      assert facts == Freshened(old(State()), subjectKind, subject, now).facts;
    }

    /** The facts named by the open conflicts of one subject. */
    method ConflictedFacts(subjectKind: string, subject: string) returns (ids: set<FactId>)
      requires TablesInv(facts, conflicts)
      ensures forall f: FactId | f < |facts| && OfSubject(facts[f], subjectKind, subject) ::
                f in ids <==> InOpen(conflicts, f)
    {
      ids := {};
      var c := 0;
      while c < |conflicts|
        invariant c <= |conflicts|
        invariant forall k | 0 <= k < c && conflicts[k].resolution == Open
                             && conflicts[k].key.subjectKind == subjectKind && conflicts[k].key.subject == subject ::
                    conflicts[k].a in ids && conflicts[k].b in ids
        invariant forall f | f in ids :: InOpen(conflicts, f)
      {
        var row := conflicts[c];
        if row.resolution == Open && row.key.subjectKind == subjectKind && row.key.subject == subject {
          assert Touches(conflicts[c], row.a) && Touches(conflicts[c], row.b);
          ids := ids + {row.a, row.b};
        }
        c := c + 1;
      }
    }

    method Best(candidates: set<FactId>) returns (current: FactId)
      requires candidates != {} && forall f | f in candidates :: f < |facts|
      ensures current in candidates
      ensures forall f | f in candidates :: AtLeastAsGood(facts[current], facts[f])
    {
      current :| current in candidates;
      var pending := candidates - {current};
      while pending != {}
        invariant pending <= candidates && current in candidates
        invariant forall f | f in candidates - pending :: AtLeastAsGood(facts[current], facts[f])
        decreases |pending|
      {
        var f :| f in pending;
        pending := pending - {f};
        if !AtLeastAsGood(facts[current], facts[f]) {
          current := f;
        }
      }
    }

    method ViewField(key: Key, conflicted: set<FactId>, ghost now: int) returns (view: FieldView)
      requires exists f: FactId :: InGroup(facts, key, f)
      requires ReadyToReport(State(), key.subjectKind, key.subject, conflicted, now)
      ensures Reports(State(), key, view, now)
    {
      var group := set f: FactId | f < |facts| && facts[f].key == key :: f;
      var live := set f: FactId | f in group && facts[f].status != Stale :: f;
      assert group != {} by {
        var f: FactId :| InGroup(facts, key, f);
        assert f in group;
      }
      var current := Best(if live != {} then live else group);
      var status := if exists f: FactId | f in group :: f in conflicted then Conflicted else facts[current].status;
      view := FieldView(current, status, live - {current});
      BestRowReports(State(), key, group, live, current, conflicted, now);
    }

    method Report(subjectKind: string, subject: string, ghost now: int) returns (fields: map<string, FieldView>)
      requires TablesInv(facts, conflicts)
      requires forall f | 0 <= f < |facts| && facts[f].status == Conflicted :: InOpen(conflicts, f)
      requires forall f | 0 <= f < |facts| && OfSubject(facts[f], subjectKind, subject) && Sourced(facts[f].status) ::
                 Fresh(facts[f], now)
      ensures forall f | 0 <= f < |facts| && OfSubject(facts[f], subjectKind, subject) :: facts[f].key.field in fields
      ensures AllReported(State(), subjectKind, subject, fields, now)
    {
      var conflicted := ConflictedFacts(subjectKind, subject);
      assert ReadyToReport(State(), subjectKind, subject, conflicted, now);
      fields := ReportRows(subjectKind, subject, conflicted, now);
    }

    method ReportRows(subjectKind: string, subject: string, conflicted: set<FactId>, ghost now: int)
      returns (fields: map<string, FieldView>)
      requires ReadyToReport(State(), subjectKind, subject, conflicted, now)
      ensures forall f | 0 <= f < |facts| && OfSubject(facts[f], subjectKind, subject) :: facts[f].key.field in fields
      ensures AllReported(State(), subjectKind, subject, fields, now)
    {
      fields := map[];
      ghost var st := State();
      var i := 0;
      while i < |facts|
        invariant i <= |facts| && st == State()
        invariant forall f | 0 <= f < i && OfSubject(facts[f], subjectKind, subject) :: facts[f].key.field in fields
        invariant AllReported(st, subjectKind, subject, fields, now)
      {
        if OfSubject(facts[i], subjectKind, subject) && facts[i].key.field !in fields {
          var key := Key(subjectKind, subject, facts[i].key.field);
          assert InGroup(facts, key, i);
          var view := ViewField(key, conflicted, now);
          OneMoreReported(st, key, fields, view, now);
          fields := fields[facts[i].key.field := view];
        }
        i := i + 1;
      }
    }

    method Snapshot(subjectKind: string, subject: string, now: int) returns (fields: map<string, FieldView>)
      requires Valid()
      modifies this`facts
      ensures Valid() && State() == Step(policy, old(State()), Op.Snapshot(subjectKind, subject), now)
      ensures forall f | 0 <= f < |facts| && OfSubject(facts[f], subjectKind, subject) :: facts[f].key.field in fields
      ensures AllReported(State(), subjectKind, subject, fields, now)
    {
      FreshenedIsInOrder(policy, State(), subjectKind, subject, now);
      ApplyFreshness(subjectKind, subject, now);
      fields := Report(subjectKind, subject, now);
    }
  }
}
