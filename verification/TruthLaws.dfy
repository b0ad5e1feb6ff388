/** What the operations of the truth layer make of a fact, said on its row, its sources and its conflicts. */
module TruthLaws {
  import opened Common
  import opened Truth
  import opened TruthProofs
  import TruthTime

  // ---------------------------------------------------------------- which sources count

  /** Somebody saw the value somewhere: not a model's inference, not a verification call. */
  predicate Sighting(s: Source) {
    s.kind != "llm_inference" && s.kind != "email_verify"
  }

  ghost predicate Seen(sources: seq<Source>) {
    exists i | 0 <= i < |sources| :: Sighting(sources[i])
  }

  /** Two sightings at different places. */
  ghost predicate SeenTwice(sources: seq<Source>) {
    exists i, j | 0 <= i < |sources| && 0 <= j < |sources| ::
      Sighting(sources[i]) && Sighting(sources[j]) && DomainOf(sources[i]) != DomainOf(sources[j])
  }

  function Places(sources: seq<Source>): set<string> {
    set i | 0 <= i < |sources| && Sighting(sources[i]) :: DomainOf(sources[i])
  }

  lemma PlacesAreDomains(sources: seq<Source>)
    ensures Places(sources) == Domains(sources)
    ensures Seen(sources) <==> exists i | 0 <= i < |sources| :: Observation(sources[i])
  {
    forall i | 0 <= i < |sources| ensures Sighting(sources[i]) == Observation(sources[i]) {
    }
  }

  lemma TwoPlaces(sources: seq<Source>)
    ensures SeenTwice(sources) <==> |Places(sources)| >= 2
  {
    var places := Places(sources);
    if SeenTwice(sources) {
      var i, j :| 0 <= i < |sources| && 0 <= j < |sources| && Sighting(sources[i]) && Sighting(sources[j])
                  && DomainOf(sources[i]) != DomainOf(sources[j]);
      SubsetSize({DomainOf(sources[i]), DomainOf(sources[j])}, places);
    }
    if |places| >= 2 {
      var a :| a in places;
      assert |places - {a}| >= 1;
      var b :| b in places - {a};
      var i :| 0 <= i < |sources| && Sighting(sources[i]) && DomainOf(sources[i]) == a;
      var j :| 0 <= j < |sources| && Sighting(sources[j]) && DomainOf(sources[j]) == b;
    }
  }

  lemma SubsetSize<T>(a: set<T>, b: set<T>)
    requires a <= b
    ensures |a| <= |b|
  {
    assert b == a + (b - a);
  }

  /** A host however it is spelled: with a final dot, or with "www." before it. */
  lemma SpelledHost(host: string, spelled: string)
    requires host != "" && host[|host| - 1] != '.' && !("www." <= host)
    requires spelled in {host, host + ".", "www." + host}
    ensures BareHost(spelled) == host
  {
    var dotted, prefixed := host + ".", "www." + host;
    assert dotted[..|dotted| - 1] == host && prefixed[4..] == host;
    assert prefixed[|prefixed| - 1] == host[|host| - 1];
    assert StripDots(host) == host && StripDots(dotted) == host && StripDots(prefixed) == prefixed;
  }

  lemma UnknownProvider()
    ensures Lower("unknown") == "unknown"
  {
    forall i | 0 <= i < |"unknown"| ensures LowerChar("unknown"[i]) == "unknown"[i] {
    }
  }

  /** `host` is the site of `provider`, or a part of it. */
  predicate SiteOf(host: string, provider: string) {
    var n := |host| - |provider|;
    provider != "" && (host == provider || (n > 0 && host[n - 1] == '.' && host[n..] == provider))
  }

  lemma OwnSiteMeans(host: string, provider: string)
    ensures OwnSite(host, provider) <==> SiteOf(host, Lower(provider))
  {
    var pd := Lower(provider);
    var n := |host| - |pd|;
    if n > 0 {
      assert host[n - 1..] == [host[n - 1]] + host[n..];
      assert ("." + pd)[0] == '.' && ("." + pd)[1..] == pd;
    }
  }

  /** A page counts under its host, unless the provider fetched its own site, and a source without a page
      under its provider. */
  lemma IdentityMeans(s: Source, host: string)
    requires host != "" && host[|host| - 1] != '.' && !("www." <= host)
    requires s.url != "" ==> s.host in {host, host + ".", "www." + host}
    ensures var provider := Lower(s.provider);
            DomainOf(s) == if s.url == "" then "provider:" + (if s.provider == "" then "unknown" else provider)
                           else if SiteOf(host, provider) then "provider:" + provider else host
  {
    if s.url == "" {
      UnknownProvider();
    } else {
      SpelledHost(host, s.host);
      OwnSiteMeans(host, s.provider);
      assert SiteOf(host, Lower(s.provider)) ==> s.provider != "";
    }
  }

  /** A source is added once: the trail only grows, holds the source afterwards, under its own kind or as a
      search, and no source twice if it held none twice. */
  lemma SourceIsAddedOnce(sources: seq<Source>, s: Source)
    ensures var more := WithSource(sources, s);
            && sources <= more && |more| <= |sources| + 1
            && (exists i | 0 <= i < |more| ::
                  more[i].url == s.url && more[i].provider == s.provider
                  && more[i].kind == (if s.kind in SOURCE_KINDS then s.kind else "search_api"))
            && (NoneTwice(sources) ==> NoneTwice(more))
  {
    var s' := s.(kind := KnownKind(s.kind));
    var more := WithSource(sources, s);
    if more != sources {
      assert more[|sources|] == s';
    }
  }

  predicate NoneTwice(sources: seq<Source>) {
    forall i, j | 0 <= i < j < |sources| ::
      sources[i].kind != sources[j].kind || sources[i].url != sources[j].url
      || sources[i].provider != sources[j].provider
  }

  // ---------------------------------------------------------------- recording

  ghost predicate InOpenConflict(conflicts: seq<Conflict>, f: FactId) {
    exists c | 0 <= c < |conflicts| ::
      conflicts[c].resolution == Open && (conflicts[c].a == f || conflicts[c].b == f)
  }

  lemma SameInOpen(conflicts: seq<Conflict>, f: FactId)
    ensures InOpenConflict(conflicts, f) <==> InOpen(conflicts, f)
  {
    forall c | 0 <= c < |conflicts| ensures Touches(conflicts[c], f) == (conflicts[c].a == f || conflicts[c].b == f) {
    }
  }

  /** The status that a fact has earned: VERIFIED stays; two places verify; one sighting leaves it
      UNVERIFIED; none, INFERRED. An OPEN conflict overrides it all. */
  ghost predicate Deserves(status: Status, open: bool, wasVerified: bool, sources: seq<Source>) {
    && (status == Conflicted <==> open)
    && (status == Verified <==> !open && (wasVerified || SeenTwice(sources)))
    && (status == Unverified <==> !open && !wasVerified && !SeenTwice(sources) && Seen(sources))
    && (status == Inferred <==> !open && !wasVerified && !Seen(sources))
    && status != Stale
  }

  /** Its confidence: what it was, except that a promotion sets it by the number of places, up to 0.95. */
  ghost predicate Trusted(confidence: real, was: real, open: bool, wasVerified: bool, sources: seq<Source>) {
    var byPlaces := 0.5 + 0.15 * (|Places(sources)| as real - 1.0);
    if !open && !wasVerified && SeenTwice(sources)
    then confidence == if byPlaces <= 0.95 then byPlaces else 0.95
    else confidence == was
  }

  lemma SettledDeserves(st: Store, f: FactId)
    requires Inv(st) && f < |st.facts|
    ensures var row, row' := st.facts[f], Settled(st, f).facts[f];
            var open, verified := InOpenConflict(st.conflicts, f), row.status == Verified;
            && Deserves(row'.status, open, verified, row.sources)
            && Trusted(row'.confidence, row.confidence, open, verified, row.sources)
            && row' == row.(status := row'.status, confidence := row'.confidence)
  {
    SameInOpen(st.conflicts, f);
    PlacesAreDomains(st.facts[f].sources);
    TwoPlaces(st.facts[f].sources);
  }

  /** What was known about the value before. */
  function Before(st: Store, f: FactId): Option<Fact> {
    if f < |st.facts| then Some(st.facts[f]) else None
  }

  predicate WasVerified(before: Option<Fact>) {
    before.Some? && before.value.status == Verified
  }

  function WasTrusted(before: Option<Fact>, o: Observed): real {
    if before.Some? then before.value.confidence
    else if o.confidence.Some? then o.confidence.value
    else if o.inferred then 0.3 else 0.5
  }

  /** The fact that an observation is about, after it has been recorded: its status and confidence are
      those it has earned, its clock has been restarted, its trail holds the source. */
  lemma RecordedDeserves(policy: Policy, st: Store, key: Key, o: Observed, now: int)
    requires Inv(st) && Acceptable(o)
    ensures var f := Find(st.facts, key, NormalValue(o.raw));
            var st' := Recorded(policy, st, key, o, now);
            && f < |st'.facts|
            && var row, open := st'.facts[f], InOpenConflict(st'.conflicts, f);
            && row.key == key && row.value == NormalValue(o.raw)
            && Deserves(row.status, open, WasVerified(Before(st, f)), row.sources)
            && Trusted(row.confidence, WasTrusted(Before(st, f), o), open, WasVerified(Before(st, f)), row.sources)
            && row.collectedAt == now && row.expiresAt == now + Ttl(policy, key.field)
            && Noticed(Before(st, f), o, row.sources)
  {
    var (st1, f) := Noted(policy, st, key, o, now);
    NotedKeepsInv(policy, st, key, o, now);
    DetectedKeepsInv(st1, key, f, now);
    var st2 := Detected(st1, st1.facts, key, f, 0, now);
    SettledDeserves(st2, f);
    SameInOpen(st2.conflicts, f);
    NotedSources(policy, st, key, o, now);
    assert st2.facts[f] == st1.facts[f].(status := st2.facts[f].status);
  }

  /** The trail before, and the source; a value without a source is noted as an inference. */
  ghost predicate Noticed(before: Option<Fact>, o: Observed, sources: seq<Source>) {
    var was := if before.Some? then before.value.sources else [];
    && was <= sources && |sources| <= |was| + 1
    && (o.source.url != "" || o.source.provider != "" ==>
          exists i | 0 <= i < |sources| ::
            sources[i].url == o.source.url && sources[i].provider == o.source.provider
            && sources[i].kind == (if o.source.kind in SOURCE_KINDS then o.source.kind else "search_api"))
    && (o.source.url == "" && o.source.provider == "" ==>
          sources == if before.Some? then was else [Source("llm_inference", "", "", "")])
  }

  lemma NotedSources(policy: Policy, st: Store, key: Key, o: Observed, now: int)
    ensures var (st1, f) := Noted(policy, st, key, o, now);
            && f < |st1.facts| && Noticed(Before(st, f), o, st1.facts[f].sources)
            && st1.facts[f].confidence == WasTrusted(Before(st, f), o)
            && (st1.facts[f].status == Verified <==> WasVerified(Before(st, f)))
            && (Before(st, f).None? ==> st1.facts[f].collectedAt == now
                                        && st1.facts[f].expiresAt == now + Ttl(policy, key.field))
  {
    var f := Find(st.facts, key, NormalValue(o.raw));
    SourceIsAddedOnce(if f < |st.facts| then st.facts[f].sources else [], o.source);
    SourceIsAddedOnce([], Source("llm_inference", "", "", o.source.provider));
  }

  lemma {:induction false} DetectionSparesOthers(st: Store, rows: seq<Fact>, key: Key, f: FactId, k: nat, now: int,
                                                 g: FactId)
    requires k <= |rows| == |st.facts| && f < |st.facts| && g < |st.facts| && g != f && !Rival(rows, key, f, g, now)
    ensures Detected(st, rows, key, f, k, now).facts[g] == st.facts[g]
    decreases |rows| - k
  {
    if k < |rows| {
      var st1 := if Rival(rows, key, f, k, now) then WithConflict(st, key, k, f) else st;
      DetectionSparesOthers(st1, rows, key, f, k + 1, now, g);
    }
  }

  lemma DetectionMarksRivals(st: Store, key: Key, f: FactId, now: int, g: FactId)
    requires Inv(st) && f < |st.facts| && st.facts[f].key == key && Rival(st.facts, key, f, g, now)
    ensures Detected(st, st.facts, key, f, 0, now).facts[g] == st.facts[g].(status := Conflicted)
  {
    var st' := Detected(st, st.facts, key, f, 0, now);
    DetectedKeepsInv(st, key, f, now);
    DetectedJoinsRivals(st, st.facts, key, f, 0, now);
    var c :| 0 <= c < |st'.conflicts| && st'.conflicts[c].resolution == Open && st'.conflicts[c].key == key
             && Joins(st'.conflicts[c], g, f);
    assert Touches(st'.conflicts[c], g);
    assert InOpen(st'.conflicts, g);
  }

  /** Every other fact is as it was, unless it is a live rival, which turns CONFLICTED. */
  lemma RecordedLeavesOthers(policy: Policy, st: Store, key: Key, o: Observed, now: int, g: FactId)
    requires Inv(st) && Acceptable(o) && g < |st.facts| && g != Find(st.facts, key, NormalValue(o.raw))
    ensures var st' := Recorded(policy, st, key, o, now);
            && g < |st'.facts|
            && var rival := st.facts[g].key == key && st.facts[g].expiresAt > now
                            && st.facts[g].status in {Verified, Unverified, Conflicted};
            st'.facts[g] == if rival then st.facts[g].(status := Conflicted) else st.facts[g]
  {
    var (st1, f) := Noted(policy, st, key, o, now);
    NotedKeepsInv(policy, st, key, o, now);
    assert st1.facts[g] == st.facts[g];
    if Rival(st1.facts, key, f, g, now) {
      DetectionMarksRivals(st1, key, f, now, g);
    } else {
      DetectionSparesOthers(st1, st1.facts, key, f, 0, now, g);
    }
  }

  // ---------------------------------------------------------------- two sightings

  /** A store that knows one value, from one place. */
  function One(key: Key, value: string, status: Status, confidence: real, at: int, until: int, sources: seq<Source>)
    : Store
  {
    Store([Fact(key, value, status, confidence, at, until, sources)], [], {})
  }

  lemma NoRivalAlone(st: Store, key: Key, now: int)
    requires |st.facts| == 1
    ensures Detected(st, st.facts, key, 0, 0, now) == st
  {
    assert !Rival(st.facts, key, 0, 0, now);
    assert Detected(st, st.facts, key, 0, 1, now) == st;
  }

  /** The source as it goes on the trail. */
  function OnTrail(s: Source): Source {
    s.(kind := if s.kind in SOURCE_KINDS then s.kind else "search_api")
  }

  predicate FromSomewhere(o: Observed) {
    Acceptable(o) && HasSource(o.source) && Sighting(OnTrail(o.source))
  }

  lemma NotedAnew(policy: Policy, key: Key, o: Observed, now: int)
    requires FromSomewhere(o)
    ensures Noted(policy, EMPTY_STORE, key, o, now)
            == (One(key, NormalValue(o.raw), if o.inferred then Inferred else Unverified, WasTrusted(None, o), now,
                    now + Ttl(policy, key.field), [OnTrail(o.source)]), 0)
  {
    assert EMPTY_STORE.facts + [NewFact(policy, key, o, now)] == [NewFact(policy, key, o, now)];
    assert WithSource([], o.source) == [OnTrail(o.source)];
  }

  lemma SettledAlone(st: Store, s: Source)
    requires |st.facts| == 1 && st.conflicts == [] && st.facts[0].sources == [s] && Sighting(s)
    requires st.facts[0].status != Verified
    ensures Settled(st, 0) == st.(facts := [st.facts[0].(status := Unverified)])
  {
    OnePlace(s);
  }

  lemma FirstSighting(policy: Policy, key: Key, o: Observed, now: int)
    requires FromSomewhere(o)
    ensures Recorded(policy, EMPTY_STORE, key, o, now)
            == One(key, NormalValue(o.raw), Unverified, WasTrusted(None, o), now, now + Ttl(policy, key.field),
                   [OnTrail(o.source)])
  {
    NotedAnew(policy, key, o, now);
    var (st, f) := Noted(policy, EMPTY_STORE, key, o, now);
    NoRivalAlone(st, key, now);
    SettledAlone(st, OnTrail(o.source));
  }

  lemma OnePlace(s: Source)
    requires Sighting(s)
    ensures Domains([s]) == {DomainOf(s)} && Observation([s][0])
  {
    assert Observation([s][0]);
  }

  lemma SecondSighting(st: Store, f: FactId, a: Source, b: Source)
    requires Inv(st) && f < |st.facts| && st.facts[f].sources == [a, b] && Sighting(a) && Sighting(b)
    requires DomainOf(a) != DomainOf(b) && !InOpenConflict(st.conflicts, f) && st.facts[f].status != Verified
    ensures Settled(st, f).facts[f].status == Verified && Settled(st, f).facts[f].confidence == 0.65
  {
    SettledDeserves(st, f);
    AtTwoPlaces(a, b);
  }

  lemma AtTwoPlaces(a: Source, b: Source)
    requires Sighting(a) && Sighting(b) && DomainOf(a) != DomainOf(b)
    ensures SeenTwice([a, b]) && |Places([a, b])| == 2
  {
    var sources := [a, b];
    assert Sighting(sources[0]) && Sighting(sources[1]) && DomainOf(sources[0]) != DomainOf(sources[1]);
    assert Places(sources) == {DomainOf(a), DomainOf(b)};
  }

  /** One value seen at two places, and no other value: VERIFIED, at 0.65. A host belongs to its URL. */
  lemma TwoSightingsVerify(policy: Policy, key: Key, first: Observed, second: Observed, t1: int, t2: int)
    requires FromSomewhere(first) && FromSomewhere(second) && NormalValue(first.raw) == NormalValue(second.raw)
    requires DomainOf(first.source) != DomainOf(second.source)
    requires first.source.url == second.source.url ==> first.source.host == second.source.host
    ensures var st1 := Step(policy, EMPTY_STORE, Record(key, first), t1);
            var st2 := Step(policy, st1, Record(key, second), t2);
            && |st1.facts| == 1 && st1.facts[0].status == Unverified
            && |st2.facts| == 1 && st2.facts[0].status == Verified && st2.facts[0].confidence == 0.65
  {
    FirstSighting(policy, key, first, t1);
    var st1 := Recorded(policy, EMPTY_STORE, key, first, t1);
    var a, b := OnTrail(first.source), OnTrail(second.source);
    assert !SameSource([a][0], b) && [a] + [b] == [a, b];
    var st := st1.(facts := [st1.facts[0].(sources := [a, b])]);
    assert st1.facts[0 := st1.facts[0].(sources := WithSource([a], second.source))] == st.facts;
    assert Noted(policy, st1, key, second, t2) == (st, 0);
    NoRivalAlone(st, key, t2);
    SecondSighting(st, 0, a, b);
  }

  // ---------------------------------------------------------------- resolving, verifying, ageing

  /** Some other conflict of the fact is still OPEN. */
  ghost predicate InAnotherConflict(conflicts: seq<Conflict>, c: ConflictId, f: FactId) {
    exists d | 0 <= d < |conflicts| && d != c ::
      conflicts[d].resolution == Open && (conflicts[d].a == f || conflicts[d].b == f)
  }

  lemma OpenElsewhere(conflicts: seq<Conflict>, c: ConflictId, row: Conflict, f: FactId)
    requires c < |conflicts| && row.resolution != Open
    ensures InOpen(conflicts[c := row], f) <==> InAnotherConflict(conflicts, c, f)
  {
    var closed := conflicts[c := row];
    if InAnotherConflict(conflicts, c, f) {
      var d :| 0 <= d < |conflicts| && d != c && conflicts[d].resolution == Open
               && (conflicts[d].a == f || conflicts[d].b == f);
      assert closed[d].resolution == Open && Touches(closed[d], f);
    }
    if InOpen(closed, f) {
      var d :| 0 <= d < |closed| && closed[d].resolution == Open && Touches(closed[d], f);
      assert closed[d] == conflicts[d];
    }
  }

  /** Resolving closes the row in favour of the winner; the loser turns STALE; the winner turns VERIFIED
      with a confidence of at least 0.85, unless it is in another OPEN conflict; nothing else changes. */
  lemma ResolvingMeans(st: Store, c: ConflictId, winner: FactId, automatic: bool)
    requires Inv(st) && c < |st.conflicts| && (winner == st.conflicts[c].a || winner == st.conflicts[c].b)
    ensures Resolvable(st, c, winner)
    ensures var st' := Resolved(st, c, winner, automatic);
            var was := st.facts[winner];
            var loser := if winner == st.conflicts[c].a then st.conflicts[c].b else st.conflicts[c].a;
            && st'.conflicts == st.conflicts[c := st.conflicts[c].(winner := Some(winner),
                                                                   resolution := st'.conflicts[c].resolution)]
            && st'.conflicts[c].resolution == (if automatic then ResolvedAuto else ResolvedHuman)
            && |st'.facts| == |st.facts|
            && st'.facts[loser] == st.facts[loser].(status := Stale)
            && st'.facts[winner] == (if InAnotherConflict(st.conflicts, c, winner) then was
                                     else was.(status := Verified,
                                               confidence := if was.confidence > 0.85 then was.confidence else 0.85))
            && forall g | 0 <= g < |st.facts| && g != winner && g != loser :: st'.facts[g] == st.facts[g]
  {
    OpenElsewhere(st.conflicts, c, Resolved(st, c, winner, automatic).conflicts[c], winner);
  }

  /** An explicit verification. Confirmed: VERIFIED, as sure as it says or at least 0.85, its clock
      restarted. Refuted: STALE, at 0.1. Anything else leaves the fact as it is but for the trail. Nothing
      else changes. */
  lemma VerifyingMeans(policy: Policy, st: Store, f: FactId, outcome: Outcome, sure: Option<real>, source: Source,
                       now: int)
    requires Inv(st) && f < |st.facts| && (outcome == Confirmed ==> !InOpenConflict(st.conflicts, f))
    ensures Verifiable(st, f, outcome)
    ensures var st' := Checked(policy, st, f, outcome, sure, source, now);
            var row, row' := st.facts[f], st'.facts[f];
            && st'.conflicts == st.conflicts && st'.facts == st.facts[f := row']
            && row' == row.(status := row'.status, confidence := row'.confidence, expiresAt := row'.expiresAt,
                            sources := row'.sources)
            && row'.status == (match outcome case Confirmed => Verified case Refuted => Stale case _ => row.status)
            && row'.confidence == (match outcome
                                   case Confirmed =>
                                     if sure.Some? then sure.value
                                     else if row.confidence > 0.85 then row.confidence else 0.85
                                   case Refuted => 0.1
                                   case _ => row.confidence)
            && row'.expiresAt == (if outcome == Confirmed then now + Ttl(policy, row.key.field) else row.expiresAt)
            && row.sources <= row'.sources && Places(row'.sources) == Places(row.sources)
  {
    SameInOpen(st.conflicts, f);
    var check := source.(kind := "email_verify");
    var row, more := st.facts[f], WithSource(st.facts[f].sources, check);
    SourceIsAddedOnce(row.sources, check);
    TruthTime.ChecksNeverCount(row.sources, check);
    PlacesAreDomains(row.sources);
    PlacesAreDomains(more);
  }

  /** Ageing: a sourced fact of the subject whose time is up turns STALE, and no other fact changes. */
  lemma AgeingMeans(st: Store, subjectKind: string, subject: string, now: int, f: FactId)
    requires f < |st.facts|
    ensures var st' := Freshened(st, subjectKind, subject, now);
            var row := st.facts[f];
            var ages := row.key.subjectKind == subjectKind && row.key.subject == subject
                        && row.status in {Verified, Unverified, Conflicted} && row.expiresAt <= now;
            && |st'.facts| == |st.facts| && st'.conflicts == st.conflicts
            && st'.facts[f] == if ages then row.(status := Stale) else row
  {
  }

  // ---------------------------------------------------------------- the clock

  /** What a field ages with. */
  function AgesWith(field: string): string {
    if field in {"email", "phone", "industry"} then field
    else if field in {"decision_maker", "decision_maker_title", "linkedin"} then "decision_maker"
    else if field in {"domain", "website"} then "company_domain"
    else if field in {"employee_count", "branches"} then "employee_estimate"
    else if field in {"city", "country", "address"} then "location"
    else "website_content"
  }

  /** A value lives for whole days: those the policy grants what the field ages with, else a week. */
  lemma TtlMeans(policy: Policy, field: string)
    ensures Ttl(policy, field) == 24 * 60 * 60 * (if AgesWith(field) in policy then policy[AgesWith(field)] else 7)
  {
  }

  // ---------------------------------------------------------------- text

  /** Trimming takes white space off both ends and nothing else. */
  lemma {:induction false} StripIsTrim(s: string) returns (a: string, b: string)
    ensures s == a + Strip(s) + b && Blank(a) && Blank(b)
    ensures Strip(s) != [] ==> !Space(Strip(s)[0]) && !Space(Strip(s)[|Strip(s)| - 1])
    decreases |s|
  {
    if s != [] && Space(s[0]) {
      a, b := StripIsTrim(s[1..]);
      assert s == [s[0]] + s[1..];
      a := [s[0]] + a;
    } else if s != [] && Space(s[|s| - 1]) {
      a, b := StripIsTrim(s[..|s| - 1]);
      assert s == s[..|s| - 1] + [s[|s| - 1]];
      b := b + [s[|s| - 1]];
    } else {
      a, b := [], [];
    }
  }

  predicate Blank(s: string) {
    forall i | 0 <= i < |s| :: s[i] in {' ', '\t', '\n', '\r'}
  }

  /** Two spellings of an e-mail address that differ in case or in surrounding space are one value; any
      other text keeps its case. */
  lemma NormalValueMeans(raw: string)
    ensures var v, t := NormalValue(raw), Strip(raw);
            && |v| == |t|
            && forall i | 0 <= i < |v| ::
                 v[i] == if '@' in t && 'A' <= t[i] <= 'Z' then (t[i] as int + 32) as char else t[i]
  {
  }
}
