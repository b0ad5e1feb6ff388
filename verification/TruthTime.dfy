/** Conflicts and time: no field ever has two live values that are not in conflict, as long as
    values are only observed, refuted and read; and exactly when resolving or confirming breaks it. */
module TruthTime {
  import opened Common
  import opened Truth
  import opened TruthProofs

  lemma OpenPairSymmetric(conflicts: seq<Conflict>, key: Key, a: FactId, b: FactId)
    ensures OpenPair(conflicts, key, a, b) == OpenPair(conflicts, key, b, a)
  {
    if OpenPair(conflicts, key, a, b) {
      var c :| 0 <= c < |conflicts| && conflicts[c].resolution == Open && conflicts[c].key == key
               && Joins(conflicts[c], a, b);
      assert Joins(conflicts[c], b, a);
    }
    if OpenPair(conflicts, key, b, a) {
      var c :| 0 <= c < |conflicts| && conflicts[c].resolution == Open && conflicts[c].key == key
               && Joins(conflicts[c], b, a);
      assert Joins(conflicts[c], a, b);
    }
  }

  /** Facts only lose freshness as time goes by. */
  lemma CompleteLater(st: Store, now: int, later: int)
    requires Complete(st, now) && now <= later
    ensures Complete(st, later)
  {
    forall f, g | 0 <= f < |st.facts| && 0 <= g < |st.facts| && f != g
                  && st.facts[f].key == st.facts[g].key && Live(st.facts[f], later) && Live(st.facts[g], later)
      ensures OpenPair(st.conflicts, st.facts[f].key, f, g)
    {
      assert Live(st.facts[f], now) && Live(st.facts[g], now);
    }
  }

  /** Completeness among the facts other than `f`. */
  ghost predicate CompleteBut(st: Store, f: FactId, now: int) {
    forall g, h | 0 <= g < |st.facts| && 0 <= h < |st.facts| && g != h && g != f && h != f
                  && st.facts[g].key == st.facts[h].key && Live(st.facts[g], now) && Live(st.facts[h], now) ::
      OpenPair(st.conflicts, st.facts[g].key, g, h)
  }

  lemma NotedKeepsOthers(policy: Policy, st: Store, key: Key, o: Observed, now: int)
    requires Complete(st, now)
    ensures CompleteBut(Noted(policy, st, key, o, now).0, Noted(policy, st, key, o, now).1, now)
  {
    var (st1, f) := Noted(policy, st, key, o, now);
    assert forall x | 0 <= x < |st.facts| && x != f :: st1.facts[x] == st.facts[x];
  }

  /** Detection plus any later change to the observed fact itself gives completeness back. */
  lemma DetectedIsComplete(st1: Store, f: FactId, now: int, st': Store)
    requires Inv(st1) && f < |st1.facts| && CompleteBut(st1, f, now)
    requires var st2 := Detected(st1, st1.facts, st1.facts[f].key, f, 0, now);
             && |st'.facts| == |st2.facts| && st'.conflicts == st2.conflicts && st'.facts[f].key == st1.facts[f].key
             && forall x | 0 <= x < |st2.facts| && x != f :: st'.facts[x] == st2.facts[x]
    ensures Complete(st', now)
  {
    var key := st1.facts[f].key;
    var st2 := Detected(st1, st1.facts, key, f, 0, now);
    DetectedKeepsInv(st1, key, f, now);
    DetectedJoinsRivals(st1, st1.facts, key, f, 0, now);
    forall g, h | 0 <= g < |st'.facts| && 0 <= h < |st'.facts| && g != h
                  && st'.facts[g].key == st'.facts[h].key && Live(st'.facts[g], now) && Live(st'.facts[h], now)
      ensures OpenPair(st'.conflicts, st'.facts[g].key, g, h)
    {
      if g == f {
        assert Rival(st1.facts, key, f, h, now);
        OpenPairSymmetric(st'.conflicts, key, h, f);
      } else if h == f {
        assert Rival(st1.facts, key, f, g, now);
      } else {
        assert Live(st1.facts[g], now) && Live(st1.facts[h], now);
        OpenPairKept(st1.conflicts, st2.conflicts, st1.facts[g].key, g, h);
      }
    }
  }

  /** Covers a new value, an expired value revived, and an INFERRED value that gains a source. */
  lemma RecordedKeepsComplete(policy: Policy, st: Store, key: Key, o: Observed, now: int)
    requires Inv(st) && Acceptable(o) && Complete(st, now)
    ensures Complete(Recorded(policy, st, key, o, now), now)
  {
    NotedKeepsInv(policy, st, key, o, now);
    NotedKeepsOthers(policy, st, key, o, now);
    var (st1, f) := Noted(policy, st, key, o, now);
    DetectedKeepsInv(st1, key, f, now);
    DetectedIsComplete(st1, f, now, Recorded(policy, st, key, o, now));
  }

  lemma FewerLiveKeepsComplete(st: Store, st': Store, now: int)
    requires Complete(st, now) && |st'.facts| == |st.facts| && st'.conflicts == st.conflicts
    requires forall x | 0 <= x < |st.facts| ::
               st'.facts[x].key == st.facts[x].key && (Live(st'.facts[x], now) ==> Live(st.facts[x], now))
    ensures Complete(st', now)
  {
  }

  /** Everything but resolving a conflict and confirming a fact. */
  predicate Observing(op: Op) {
    op.Record? || op.Snapshot? || (op.Verify? && op.outcome != Confirmed)
  }

  lemma ObservingKeepsComplete(policy: Policy, st: Store, op: Op, now: int)
    requires Inv(st) && Observing(op) && Complete(st, now)
    ensures Complete(Step(policy, st, op, now), now)
  {
    match op
    case Record(key, o) => if Acceptable(o) { RecordedKeepsComplete(policy, st, key, o, now); }
    case Verify(f, outcome, conf, source) =>
      if Verifiable(st, f, outcome) { FewerLiveKeepsComplete(st, Step(policy, st, op, now), now); }
    case Snapshot(_, _) => FewerLiveKeepsComplete(st, Step(policy, st, op, now), now);
  }

  ghost predicate ClockRuns(events: seq<Event>, until: int) {
    && (forall i, j | 0 <= i < j < |events| :: events[i].now <= events[j].now)
    && (forall i | 0 <= i < |events| :: events[i].now <= until)
  }

  /** Two distinct live values of one (subject, field) are both CONFLICTED, in an OPEN conflict with
      each other: no field ever has two live unconflicted sourced values. */
  ghost predicate NoSilentRivals(st: Store, now: int) {
    forall f, g | 0 <= f < |st.facts| && 0 <= g < |st.facts| && f != g
                  && st.facts[f].key == st.facts[g].key && Live(st.facts[f], now) && Live(st.facts[g], now) ::
      && st.facts[f].status == Conflicted && st.facts[g].status == Conflicted
      && OpenPair(st.conflicts, st.facts[f].key, f, g)
  }

  lemma OpenPairIsInOpen(conflicts: seq<Conflict>, key: Key, a: FactId, b: FactId)
    requires OpenPair(conflicts, key, a, b)
    ensures InOpen(conflicts, a) && InOpen(conflicts, b)
  {
    var c :| 0 <= c < |conflicts| && conflicts[c].resolution == Open && conflicts[c].key == key
             && Joins(conflicts[c], a, b);
    assert Touches(conflicts[c], a) && Touches(conflicts[c], b);
  }

  lemma CompleteMeansNoSilentRivals(st: Store, now: int)
    requires Inv(st) && Complete(st, now)
    ensures NoSilentRivals(st, now)
  {
    forall f, g | 0 <= f < |st.facts| && 0 <= g < |st.facts| && f != g
                  && st.facts[f].key == st.facts[g].key && Live(st.facts[f], now) && Live(st.facts[g], now)
      ensures st.facts[f].status == Conflicted && st.facts[g].status == Conflicted
    {
      OpenPairIsInOpen(st.conflicts, st.facts[f].key, f, g);
    }
  }

  lemma {:induction false} ObservingRunIsComplete(policy: Policy, events: seq<Event>, now: int)
    requires ClockRuns(events, now) && forall i | 0 <= i < |events| :: Observing(events[i].op)
    ensures Inv(Run(policy, EMPTY_STORE, events)) && Complete(Run(policy, EMPTY_STORE, events), now)
  {
    RunKeepsInv(policy, EMPTY_STORE, events);
    if events != [] {
      var before, last := events[..|events| - 1], events[|events| - 1];
      assert ClockRuns(before, last.now);
      ObservingRunIsComplete(policy, before, last.now);
      ObservingKeepsComplete(policy, Run(policy, EMPTY_STORE, before), last.op, last.now);
      CompleteLater(Run(policy, EMPTY_STORE, events), last.now, now);
    }
  }

  /** In every run of observations, refutations and snapshots, at every later moment. */
  lemma ConflictsNeverMissed(policy: Policy, events: seq<Event>, now: int)
    requires ClockRuns(events, now) && forall i | 0 <= i < |events| :: Observing(events[i].op)
    ensures NoSilentRivals(Run(policy, EMPTY_STORE, events), now)
  {
    ObservingRunIsComplete(policy, events, now);
    CompleteMeansNoSilentRivals(Run(policy, EMPTY_STORE, events), now);
  }

  // ---------------------------------------------------------------- what breaks completeness

  ghost predicate LiveRival(st: Store, f: FactId, g: FactId, now: int)
    requires f < |st.facts|
  {
    g < |st.facts| && g != f && st.facts[g].key == st.facts[f].key && Live(st.facts[g], now)
  }

  lemma NotInOpenNoPair(conflicts: seq<Conflict>, key: Key, a: FactId, b: FactId)
    requires !InOpen(conflicts, a)
    ensures !OpenPair(conflicts, key, a, b) && !OpenPair(conflicts, key, b, a)
  {
    if OpenPair(conflicts, key, a, b) { OpenPairIsInOpen(conflicts, key, a, b); }
    if OpenPair(conflicts, key, b, a) { OpenPairIsInOpen(conflicts, key, b, a); }
  }

  /** A fact that is live without being in any OPEN conflict breaks completeness exactly if the
      field has another live value. */
  lemma LiveOutsideConflicts(st: Store, st': Store, f: FactId, now: int)
    requires Complete(st, now) && f < |st.facts| == |st'.facts|
    requires forall x | 0 <= x < |st.facts| ::
               st'.facts[x].key == st.facts[x].key && (x != f && Live(st'.facts[x], now) ==> Live(st.facts[x], now))
    requires forall key, g: FactId, h: FactId | g != f && h != f && OpenPair(st.conflicts, key, g, h)
                                                && g < |st'.facts| && h < |st'.facts|
                                                && Live(st'.facts[g], now) && Live(st'.facts[h], now) ::
               OpenPair(st'.conflicts, key, g, h)
    requires Live(st'.facts[f], now) && !InOpen(st'.conflicts, f)
    ensures Complete(st', now) <==> forall g: FactId :: !LiveRival(st', f, g, now)
  {
    forall g: FactId | LiveRival(st', f, g, now) ensures !Complete(st', now) {
      NotInOpenNoPair(st'.conflicts, st'.facts[f].key, f, g);
    }
    if !Complete(st', now) {
      var g, h :| 0 <= g < |st'.facts| && 0 <= h < |st'.facts| && g != h && st'.facts[g].key == st'.facts[h].key
                  && Live(st'.facts[g], now) && Live(st'.facts[h], now)
                  && !OpenPair(st'.conflicts, st'.facts[g].key, g, h);
      if g == f {
        assert LiveRival(st', f, h, now);
      } else if h == f {
        assert LiveRival(st', f, g, now);
      }
    }
  }

  /** Confirming a fact skips conflict detection. It keeps completeness exactly when the field has no
      other live value (or the policy gives the fact no time to live). */
  lemma ConfirmedCompleteIff(policy: Policy, st: Store, f: FactId, confidence: Option<real>, source: Source, now: int)
    requires Inv(st) && Complete(st, now) && Verifiable(st, f, Confirmed)
    ensures Complete(Checked(policy, st, f, Confirmed, confidence, source, now), now)
            <==> Ttl(policy, st.facts[f].key.field) <= 0 || forall g: FactId :: !LiveRival(st, f, g, now)
  {
    var st' := Checked(policy, st, f, Confirmed, confidence, source, now);
    assert forall x | 0 <= x < |st.facts| && x != f :: st'.facts[x] == st.facts[x];
    if Ttl(policy, st.facts[f].key.field) <= 0 {
      FewerLiveKeepsComplete(st, st', now);
    } else {
      LiveOutsideConflicts(st, st', f, now);
      assert forall g: FactId :: LiveRival(st', f, g, now) == LiveRival(st, f, g, now);
    }
  }

  lemma ClosingKeepsOtherPairs(conflicts: seq<Conflict>, c: ConflictId, row: Conflict, key: Key, g: FactId, h: FactId)
    requires c < |conflicts| && !Joins(conflicts[c], g, h) && OpenPair(conflicts, key, g, h)
    ensures OpenPair(conflicts[c := row], key, g, h)
  {
    var k :| 0 <= k < |conflicts| && conflicts[k].resolution == Open && conflicts[k].key == key
             && Joins(conflicts[k], g, h);
    assert conflicts[c := row][k] == conflicts[k];
  }

  /** An OPEN conflict other than `c` touches the fact. */
  ghost predicate InOtherOpen(conflicts: seq<Conflict>, c: ConflictId, f: FactId) {
    exists d | 0 <= d < |conflicts| :: d != c && conflicts[d].resolution == Open && Touches(conflicts[d], f)
  }

  lemma StillInOpenIff(conflicts: seq<Conflict>, c: ConflictId, row: Conflict, f: FactId)
    requires c < |conflicts| && row.resolution != Open
    ensures InOpen(conflicts[c := row], f) <==> InOtherOpen(conflicts, c, f)
  {
    var after := conflicts[c := row];
    if InOpen(after, f) {
      var d :| 0 <= d < |after| && after[d].resolution == Open && Touches(after[d], f);
      assert d != c && conflicts[d] == after[d];
    }
    if InOtherOpen(conflicts, c, f) {
      var d :| 0 <= d < |conflicts| && d != c && conflicts[d].resolution == Open && Touches(conflicts[d], f);
      assert after[d] == conflicts[d];
    }
  }

  lemma ResolvedKeepsPairs(st: Store, c: ConflictId, winner: FactId, automatic: bool)
    requires Resolvable(st, c, winner)
    ensures forall key, g: FactId, h: FactId
              | g != LoserOf(st.conflicts[c], winner) && h != LoserOf(st.conflicts[c], winner)
                && OpenPair(st.conflicts, key, g, h) ::
              OpenPair(Resolved(st, c, winner, automatic).conflicts, key, g, h)
  {
    forall key, g: FactId, h: FactId
      | g != LoserOf(st.conflicts[c], winner) && h != LoserOf(st.conflicts[c], winner)
        && OpenPair(st.conflicts, key, g, h)
      ensures OpenPair(Resolved(st, c, winner, automatic).conflicts, key, g, h)
    {
      ClosingKeepsOtherPairs(st.conflicts, c, Resolved(st, c, winner, automatic).conflicts[c], key, g, h);
    }
  }

  /** The winner turns VERIFIED. */
  lemma ResolvedLoudly(st: Store, c: ConflictId, winner: FactId, automatic: bool, now: int)
    requires Inv(st) && Complete(st, now) && Resolvable(st, c, winner)
    requires !InOpen(Resolved(st, c, winner, automatic).conflicts, winner) && Fresh(st.facts[winner], now)
    ensures Complete(Resolved(st, c, winner, automatic), now)
            <==> forall g: FactId :: LiveRival(st, winner, g, now) ==> g == LoserOf(st.conflicts[c], winner)
  {
    var st' := Resolved(st, c, winner, automatic);
    var loser := LoserOf(st.conflicts[c], winner);
    assert forall x | 0 <= x < |st.facts| && x != winner && x != loser :: st'.facts[x] == st.facts[x];
    assert st'.facts[loser].status == Stale && st'.facts[loser].key == st.facts[loser].key;
    ResolvedKeepsPairs(st, c, winner, automatic);
    LiveOutsideConflicts(st, st', winner, now);
    assert forall g: FactId | g != loser :: LiveRival(st', winner, g, now) == LiveRival(st, winner, g, now);
  }

  /** Resolving keeps completeness exactly when the winner is in another OPEN conflict (its status is
      then left alone), or is past its freshness, or meets no live value besides the loser. */
  lemma ResolvedCompleteIff(st: Store, c: ConflictId, winner: FactId, automatic: bool, now: int)
    requires Inv(st) && Complete(st, now) && Resolvable(st, c, winner)
    ensures Complete(Resolved(st, c, winner, automatic), now)
            <==> || InOtherOpen(st.conflicts, c, winner)
                 || !Fresh(st.facts[winner], now)
                 || forall g: FactId :: LiveRival(st, winner, g, now) ==> g == LoserOf(st.conflicts[c], winner)
  {
    var st' := Resolved(st, c, winner, automatic);
    StillInOpenIff(st.conflicts, c, st'.conflicts[c], winner);
    ResolvedKeepsPairs(st, c, winner, automatic);
    if InOtherOpen(st.conflicts, c, winner) || !Fresh(st.facts[winner], now) {
      ResolvedQuietly(st, st', LoserOf(st.conflicts[c], winner), now);
    } else {
      ResolvedLoudly(st, c, winner, automatic, now);
    }
  }

  /** Nothing became live, and only pairs with a dead fact were closed. */
  lemma ResolvedQuietly(st: Store, st': Store, dead: FactId, now: int)
    requires Complete(st, now) && |st'.facts| == |st.facts| && dead < |st.facts| && !Live(st'.facts[dead], now)
    requires forall x | 0 <= x < |st.facts| ::
               st'.facts[x].key == st.facts[x].key && (Live(st'.facts[x], now) ==> Live(st.facts[x], now))
    requires forall key, g: FactId, h: FactId | g != dead && h != dead && OpenPair(st.conflicts, key, g, h) ::
               OpenPair(st'.conflicts, key, g, h)
    ensures Complete(st', now)
  {
  }

  // ---------------------------------------------------------------- independence of sources

  /** Verification calls and inferences are never counted as observations. */
  lemma ChecksNeverCount(sources: seq<Source>, s: Source)
    requires s.kind == "email_verify" || s.kind == "llm_inference"
    ensures Domains(WithSource(sources, s)) == Domains(sources)
  {
    var more := WithSource(sources, s);
    assert KnownKind(s.kind) == s.kind;
    forall d | d in Domains(more) ensures d in Domains(sources) {
      var i :| 0 <= i < |more| && Observation(more[i]) && DomainOf(more[i]) == d;
      assert i < |sources| && more[i] == sources[i];
    }
    forall d | d in Domains(sources) ensures d in Domains(more) {
      var i :| 0 <= i < |sources| && Observation(sources[i]) && DomainOf(sources[i]) == d;
      assert more[i] == sources[i];
    }
  }

  lemma ProviderKeyInjective(p: string, q: string)
    requires p != "" && q != ""
    ensures ProviderKey(p) == ProviderKey(q) <==> Lower(p) == Lower(q)
  {
    var prefix := "provider:";
    assert (prefix + Lower(p))[|prefix|..] == Lower(p);
    assert (prefix + Lower(q))[|prefix|..] == Lower(q);
  }

  /** Two pages of one host count as one source, except exactly when one of the two providers owns
      the host and the other does not, or both do under different names. */
  lemma SameHostIndependentIff(s: Source, t: Source)
    requires s.url != "" && t.url != "" && BareHost(s.host) == BareHost(t.host) != ""
    requires !("provider:" <= BareHost(s.host))     // a host name contains no such colon
    ensures var h := BareHost(s.host);
            DomainOf(s) != DomainOf(t) <==>
              || OwnSite(h, s.provider) != OwnSite(h, t.provider)
              || (OwnSite(h, s.provider) && Lower(s.provider) != Lower(t.provider))
  {
    var h := BareHost(s.host);
    assert "provider:" <= ProviderKey(s.provider) && "provider:" <= ProviderKey(t.provider);
    if OwnSite(h, s.provider) && OwnSite(h, t.provider) {
      ProviderKeyInjective(s.provider, t.provider);
    }
  }
}
