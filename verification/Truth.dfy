/** lead_engine/truth.py as values: three tables (facts with their sources, conflicts), what each
    operation does to them, and the status rules. One tenant. Timestamps are whole seconds.
    Row ids are positions: an id that is never handed out twice. Absent text columns are "". */
module Truth {
  import opened Common

  datatype Status = Verified | Conflicted | Stale | Unverified | Inferred

  datatype Resolution = Open | ResolvedAuto | ResolvedHuman

  type FactId = nat
  type ConflictId = nat

  /** One (subject, field). */
  datatype Key = Key(subjectKind: string, subject: string, field: string)

  /** `host` is the host name urlparse finds in `url`, already lower case; "" when there is none. */
  datatype Source = Source(kind: string, url: string, host: string, provider: string)

  datatype Fact = Fact(
    key: Key,
    value: string,
    status: Status,
    confidence: real,
    collectedAt: int,
    expiresAt: int,
    sources: seq<Source>)

  datatype Conflict = Conflict(key: Key, a: FactId, b: FactId, resolution: Resolution, winner: Option<FactId>)

  /** `earned` is history only: the facts that an explicit verification confirmed or that won a
      conflict at some time. No operation reads it. */
  datatype Store = Store(facts: seq<Fact>, conflicts: seq<Conflict>, earned: set<FactId>)

  const EMPTY_STORE := Store([], [], {})

  // ---------------------------------------------------------------- text

  const SOURCE_KINDS := {
    "search_api", "openmanus", "apollo", "hunter", "abstract", "email_verify", "manual", "llm_inference"}

  const FIELD_TTL_MAP := map[
    "email" := "email", "phone" := "phone", "decision_maker" := "decision_maker",
    "decision_maker_title" := "decision_maker", "linkedin" := "decision_maker",
    "domain" := "company_domain", "website" := "company_domain",
    "employee_count" := "employee_estimate", "branches" := "employee_estimate",
    "industry" := "industry", "city" := "location", "country" := "location", "address" := "location"]

  /** ttl_days of the cache policy; 7 where it says nothing. */
  type Policy = map<string, int>

  function Ttl(policy: Policy, field: string): int {
    var dataType := if field in FIELD_TTL_MAP then FIELD_TTL_MAP[field] else "website_content";
    86400 * (if dataType in policy then policy[dataType] else 7)
  }

  function LowerChar(c: char): char {
    if 'A' <= c <= 'Z' then (c as int + 32) as char else c
  }

  function Lower(s: string): string {
    seq(|s|, i requires 0 <= i < |s| => LowerChar(s[i]))
  }

  predicate Space(c: char) { c == ' ' || c == '\t' || c == '\n' || c == '\r' }

  function Strip(s: string): string {
    if s != [] && Space(s[0]) then Strip(s[1..])
    else if s != [] && Space(s[|s| - 1]) then Strip(s[..|s| - 1])
    else s
  }

  function NormalValue(raw: string): string {
    var value := Strip(raw);
    if '@' in value then Lower(value) else value
  }

  function StripDots(s: string): string {
    if s != [] && s[|s| - 1] == '.' then StripDots(s[..|s| - 1]) else s
  }

  /** The host without trailing dots and without one leading "www.". */
  function BareHost(host: string): string {
    var h := StripDots(host);
    if "www." <= h then h[4..] else h
  }

  predicate EndsWith(s: string, tail: string) {
    |tail| <= |s| && s[|s| - |tail|..] == tail
  }

  /** The provider fetched its own site. Exact host or subdomain, never a substring. */
  predicate OwnSite(host: string, provider: string) {
    var pd := Lower(provider);
    pd != "" && (host == pd || EndsWith(host, "." + pd))
  }

  function ProviderKey(provider: string): string {
    "provider:" + Lower(if provider == "" then "unknown" else provider)
  }

  /** `_domain_of`: the identity under which a source counts as independent. */
  function DomainOf(s: Source): string {
    var host := if s.url == "" then "" else BareHost(s.host);
    if host == "" then ProviderKey(s.provider)
    else if OwnSite(host, s.provider) then ProviderKey(s.provider)
    else host
  }

  // ---------------------------------------------------------------- status rules

  predicate Fresh(f: Fact, now: int) {
    f.expiresAt > now
  }

  predicate Sourced(s: Status) {
    s == Verified || s == Unverified || s == Conflicted
  }

  predicate Live(f: Fact, now: int) {
    Sourced(f.status) && Fresh(f, now)
  }

  predicate Joins(c: Conflict, a: FactId, b: FactId) {
    (c.a == a && c.b == b) || (c.a == b && c.b == a)
  }

  predicate Touches(c: Conflict, f: FactId) {
    c.a == f || c.b == f
  }

  /** `_open_conflict` looks for this row before it inserts one. */
  predicate OpenPair(conflicts: seq<Conflict>, key: Key, a: FactId, b: FactId) {
    exists c | 0 <= c < |conflicts| ::
      conflicts[c].resolution == Open && conflicts[c].key == key && Joins(conflicts[c], a, b)
  }

  predicate InOpen(conflicts: seq<Conflict>, f: FactId) {
    exists c | 0 <= c < |conflicts| :: conflicts[c].resolution == Open && Touches(conflicts[c], f)
  }

  /** Observations: neither a model's inference nor a verification call. */
  predicate Observation(s: Source) {
    s.kind != "llm_inference" && s.kind != "email_verify"
  }

  function Domains(sources: seq<Source>): set<string> {
    set i | 0 <= i < |sources| && Observation(sources[i]) :: DomainOf(sources[i])
  }

  function Min(a: real, b: real): real { if a <= b then a else b }

  function Max(a: real, b: real): real { if a >= b then a else b }

  /** `_recompute_status`. */
  function Recomputed(st: Store, f: FactId): (Status, real)
    requires f < |st.facts|
  {
    var row := st.facts[f];
    var n := |Domains(row.sources)|;
    if InOpen(st.conflicts, f) then (Conflicted, row.confidence)
    else if row.status == Verified then (Verified, row.confidence)
    else if n >= 2 then (Verified, Min(0.95, 0.5 + 0.15 * (n - 1) as real))
    else if exists i | 0 <= i < |row.sources| :: Observation(row.sources[i]) then (Unverified, row.confidence)
    else (Inferred, row.confidence)
  }

  // ---------------------------------------------------------------- operations

  predicate SameSource(a: Source, b: Source) {
    a.kind == b.kind && a.url == b.url && a.provider == b.provider
  }

  function KnownKind(kind: string): string {
    if kind in SOURCE_KINDS then kind else "search_api"
  }

  /** `_add_source`: one row per (kind, url, provider). */
  function WithSource(sources: seq<Source>, s: Source): seq<Source> {
    var s' := s.(kind := KnownKind(s.kind));
    if exists i | 0 <= i < |sources| :: SameSource(sources[i], s') then sources else sources + [s']
  }

  function SetStatus(facts: seq<Fact>, f: FactId, status: Status): seq<Fact>
    requires f < |facts|
  {
    facts[f := facts[f].(status := status)]
  }

  /** `_open_conflict`. */
  function WithConflict(st: Store, key: Key, a: FactId, b: FactId): Store
    requires a < |st.facts| && b < |st.facts|
  {
    if OpenPair(st.conflicts, key, a, b) then st
    else st.(conflicts := st.conflicts + [Conflict(key, a, b, Open, None)],
             facts := SetStatus(SetStatus(st.facts, a, Conflicted), b, Conflicted))
  }

  /** Row `k` of the query in `_detect_conflicts` that is also still fresh. */
  predicate Rival(rows: seq<Fact>, key: Key, f: FactId, k: nat, now: int) {
    k < |rows| && k != f && rows[k].key == key && Live(rows[k], now)
  }

  /** The loop of `_detect_conflicts` over the rows queried beforehand, from row `k` on. */
  function Detected(st: Store, rows: seq<Fact>, key: Key, f: FactId, k: nat, now: int): (st': Store)
    requires k <= |rows| == |st.facts| && f < |st.facts|
    ensures |st'.facts| == |st.facts|
    decreases |rows| - k
  {
    if k == |rows| then st
    else Detected(if Rival(rows, key, f, k, now) then WithConflict(st, key, k, f) else st, rows, key, f, k + 1, now)
  }

  datatype Observed = Observed(raw: string, source: Source, inferred: bool, confidence: Option<real>)

  predicate HasSource(s: Source) {
    s.url != "" || s.provider != ""
  }

  predicate Acceptable(o: Observed) {
    NormalValue(o.raw) != "" && (HasSource(o.source) || o.inferred)
  }

  /** The row of this value, or |facts| if there is none. */
  function Find(facts: seq<Fact>, key: Key, value: string): (f: nat)
    ensures f <= |facts|
    ensures f < |facts| ==> facts[f].key == key && facts[f].value == value
    ensures forall g | 0 <= g < f :: !(facts[g].key == key && facts[g].value == value)
  {
    if facts == [] then 0
    else if facts[0].key == key && facts[0].value == value then 0
    else
      var rest := Find(facts[1..], key, value);
      assert forall g | 0 < g <= rest && g < |facts| :: facts[g] == facts[1..][g - 1];
      rest + 1
  }

  function NewFact(policy: Policy, key: Key, o: Observed, now: int): Fact {
    Fact(key, NormalValue(o.raw), if o.inferred then Inferred else Unverified,
         if o.confidence.Some? then o.confidence.value else if o.inferred then 0.3 else 0.5,
         now, now + Ttl(policy, key.field),
         WithSource([], if HasSource(o.source) then o.source
                        else Source("llm_inference", "", "", o.source.provider)))
  }

  /** The final UPDATE of record_fact: the recomputed status and confidence. */
  function Settled(st: Store, f: FactId): Store
    requires f < |st.facts|
  {
    var (status, conf) := Recomputed(st, f);
    st.(facts := st.facts[f := st.facts[f].(status := status, confidence := conf)])
  }

  /** The store just before conflict detection: the value's row exists and has its source. */
  function Noted(policy: Policy, st: Store, key: Key, o: Observed, now: int): (Store, FactId) {
    var f := Find(st.facts, key, NormalValue(o.raw));
    if f < |st.facts| then
      var row := st.facts[f];
      (st.(facts := st.facts[f := row.(sources := if HasSource(o.source) then WithSource(row.sources, o.source)
                                                  else row.sources)]), f)
    else (st.(facts := st.facts + [NewFact(policy, key, o, now)]), f)
  }

  /** `record_fact`. A known value also restarts its freshness clock. */
  function Recorded(policy: Policy, st: Store, key: Key, o: Observed, now: int): Store
    requires Acceptable(o)
  {
    var known := Find(st.facts, key, NormalValue(o.raw)) < |st.facts|;
    var (st1, f) := Noted(policy, st, key, o, now);
    var st2 := Settled(Detected(st1, st1.facts, key, f, 0, now), f);
    if known
    then st2.(facts := st2.facts[f := st2.facts[f].(collectedAt := now, expiresAt := now + Ttl(policy, key.field))])
    else st2
  }

  predicate Resolvable(st: Store, c: ConflictId, winner: FactId) {
    c < |st.conflicts| && Touches(st.conflicts[c], winner)
    && st.conflicts[c].a < |st.facts| && st.conflicts[c].b < |st.facts|
  }

  function LoserOf(c: Conflict, winner: FactId): FactId {
    if winner == c.a then c.b else c.a
  }

  /** `resolve_conflict`. It does not ask whether the conflict is still open. */
  function Resolved(st: Store, c: ConflictId, winner: FactId, automatic: bool): Store
    requires Resolvable(st, c, winner)
  {
    var row := st.conflicts[c];
    var conflicts := st.conflicts[c := row.(resolution := if automatic then ResolvedAuto else ResolvedHuman,
                                            winner := Some(winner))];
    var won := st.facts[winner].(status := Verified, confidence := Max(0.85, st.facts[winner].confidence));
    var facts := if InOpen(conflicts, winner) then st.facts else st.facts[winner := won];
    Store(SetStatus(facts, LoserOf(row, winner), Stale), conflicts,
          if InOpen(conflicts, winner) then st.earned else st.earned + {winner})
  }

  datatype Outcome = Confirmed | Refuted | OtherOutcome

  predicate Verifiable(st: Store, f: FactId, outcome: Outcome) {
    f < |st.facts| && (outcome == Confirmed ==> !InOpen(st.conflicts, f))
  }

  /** `verify_fact`. */
  function Checked(policy: Policy, st: Store, f: FactId, outcome: Outcome, confidence: Option<real>, source: Source,
                   now: int): Store
    requires Verifiable(st, f, outcome)
  {
    var row := st.facts[f].(sources := if HasSource(source)
                                       then WithSource(st.facts[f].sources, source.(kind := "email_verify"))
                                       else st.facts[f].sources);
    match outcome
    case Confirmed =>
      var conf := if confidence.Some? then confidence.value else Max(0.85, row.confidence);
      st.(facts := st.facts[f := row.(status := Verified, confidence := conf,
                                      expiresAt := now + Ttl(policy, row.key.field))],
          earned := st.earned + {f})
    case Refuted => st.(facts := st.facts[f := row.(status := Stale, confidence := 0.1)])
    case OtherOutcome => st.(facts := st.facts[f := row])
  }

  predicate OfSubject(f: Fact, subjectKind: string, subject: string) {
    f.key.subjectKind == subjectKind && f.key.subject == subject
  }

  function Aged(f: Fact, now: int): Fact {
    if Sourced(f.status) && !Fresh(f, now) then f.(status := Stale) else f
  }

  /** `_apply_freshness` on the rows of one subject, as snapshot calls it. */
  function Freshened(st: Store, subjectKind: string, subject: string, now: int): Store {
    st.(facts := seq(|st.facts|, i requires 0 <= i < |st.facts| =>
      if OfSubject(st.facts[i], subjectKind, subject) then Aged(st.facts[i], now) else st.facts[i]))
  }

  datatype Op =
    | Record(key: Key, observed: Observed)
    | Resolve(conflict: ConflictId, winner: FactId, automatic: bool)
    | Verify(fact: FactId, outcome: Outcome, confidence: Option<real>, source: Source)
    | Snapshot(subjectKind: string, subject: string)

  /** A call that the source answers with ValueError changes nothing. */
  function Step(policy: Policy, st: Store, op: Op, now: int): Store {
    match op
    case Record(key, o) => if Acceptable(o) then Recorded(policy, st, key, o, now) else st
    case Resolve(c, winner, automatic) => if Resolvable(st, c, winner) then Resolved(st, c, winner, automatic) else st
    case Verify(f, outcome, conf, source) =>
      if Verifiable(st, f, outcome) then Checked(policy, st, f, outcome, conf, source, now) else st
    case Snapshot(kind, subject) => Freshened(st, kind, subject, now)
  }

  datatype Event = Event(op: Op, now: int)

  function Run(policy: Policy, st: Store, events: seq<Event>): Store {
    if events == [] then st
    else Step(policy, Run(policy, st, events[..|events| - 1]), events[|events| - 1].op, events[|events| - 1].now)
  }
}
