/** What the discovery engine keeps across any mix of submit, poll, save and restart. */
module ManusProofs {
  import opened Manus

  // ---------------------------------------------------------------- the invariant

  /** Tasks in flight on the key at position `p`. */
  function InFlightOn(tasks: seq<Task>, p: nat): nat {
    if tasks == [] then 0
    else InFlightOn(tasks[..|tasks| - 1], p) + (if tasks[|tasks| - 1].key == p then 1 else 0)
  }

  /** `n` times `x`. */
  function Times(x: real, n: nat): real {
    if n == 0 then 0.0 else Times(x, n - 1) + x
  }

  lemma {:induction false} TimesIsProduct(x: real, n: nat)
    ensures Times(x, n) == x * n as real
  {
    if n > 0 {
      TimesIsProduct(x, n - 1);
      assert n as real == (n - 1) as real + 1.0;
      assert x * ((n - 1) as real + 1.0) == x * (n - 1) as real + x;
    }
  }

  lemma TimesNonnegative(x: real, n: nat)
    requires x >= 0.0
    ensures Times(x, n) >= 0.0
  {
  }

  /** A key's hold is the estimate times the number of its tasks in flight. */
  ghost predicate HoldsExact(e: Engine)
    requires EngineOk(e)
  {
    forall p | 0 <= p < |e.ledger.keys| ::
      e.ledger.held[e.ledger.keys[p]] == Times(e.estimate, InFlightOn(e.tasks, p))
  }

  ghost predicate TasksOk(e: Engine, minted: nat) {
    && (forall i | 0 <= i < |e.tasks| :: e.tasks[i].id < minted && e.tasks[i].id !in e.collected)
    && (forall i, j | 0 <= i < j < |e.tasks| :: e.tasks[i].id != e.tasks[j].id)
    && (forall id | id in e.collected :: id < minted)
  }

  /** Every city of the ICP is either submitted or still to do, in ICP order; nothing is lost or added. */
  ghost predicate CitiesOk(e: Engine, cities: seq<string>) {
    (e.submitted == [] && e.unsubmitted == []) || e.submitted + e.unsubmitted == cities
  }

  /** Every submitted city is in flight, collected or timed out. */
  ghost predicate TasksConserved(e: Engine) {
    |e.submitted| == |e.tasks| + |e.collected| + e.timedOut
  }

  ghost predicate Inv(e: Engine, minted: nat, cities: seq<string>) {
    EngineOk(e) && e.estimate >= 0.0 && HoldsExact(e) && TasksOk(e, minted) && CitiesOk(e, cities) && TasksConserved(e)
  }

  // ---------------------------------------------------------------- holds

  lemma PositionUnique(keys: seq<string>, p: nat)
    requires forall i, j | 0 <= i < j < |keys| :: keys[i] != keys[j]
    requires p < |keys|
    ensures Position(keys, keys[p]) == p
  {
  }

  /** A task that leaves takes exactly its own hold with it, so `max(0, ...)` never clamps. */
  lemma {:induction false} InFlightWithout(tasks: seq<Task>, i: nat, p: nat)
    requires i < |tasks| && forall a, b | 0 <= a < b < |tasks| :: tasks[a].id != tasks[b].id
    ensures WithoutTask(tasks, tasks[i].id) == tasks[..i] + tasks[i + 1..]
    ensures InFlightOn(tasks, p)
            == InFlightOn(WithoutTask(tasks, tasks[i].id), p) + (if tasks[i].key == p then 1 else 0)
  {
    WithoutTaskAt(tasks, i);
    InFlightRemove(tasks, i, p);
  }

  lemma {:induction false} WithoutTaskAt(tasks: seq<Task>, i: nat)
    requires i < |tasks| && forall a, b | 0 <= a < b < |tasks| :: tasks[a].id != tasks[b].id
    ensures WithoutTask(tasks, tasks[i].id) == tasks[..i] + tasks[i + 1..]
  {
    if i > 0 {
      WithoutTaskAt(tasks[1..], i - 1);
      assert tasks[1..][i - 1] == tasks[i];
      assert tasks[0].id != tasks[i].id;
      assert [tasks[0]] + (tasks[1..][..i - 1] + tasks[1..][i..]) == tasks[..i] + tasks[i + 1..];
    }
  }

  lemma {:induction false} InFlightConcat(a: seq<Task>, b: seq<Task>, p: nat)
    ensures InFlightOn(a + b, p) == InFlightOn(a, p) + InFlightOn(b, p)
  {
    if b == [] {
      assert a + b == a;
    } else {
      assert (a + b)[..|a + b| - 1] == a + b[..|b| - 1];
      InFlightConcat(a, b[..|b| - 1], p);
    }
  }

  lemma InFlightRemove(tasks: seq<Task>, i: nat, p: nat)
    requires i < |tasks|
    ensures InFlightOn(tasks, p) == InFlightOn(tasks[..i] + tasks[i + 1..], p) + (if tasks[i].key == p then 1 else 0)
  {
    assert tasks == tasks[..i] + ([tasks[i]] + tasks[i + 1..]);
    InFlightConcat(tasks[..i], [tasks[i]] + tasks[i + 1..], p);
    InFlightConcat([tasks[i]], tasks[i + 1..], p);
    InFlightConcat(tasks[..i], tasks[i + 1..], p);
    assert InFlightOn([tasks[i]][..0], p) == 0;
  }

  // ---------------------------------------------------------------- submit

  /** Dropping a hold that was just taken restores the ledger's holds exactly. */
  lemma RefusedRestoresHolds(e: Engine, k: string, kind: ErrorKind)
    requires EngineOk(e) && k in e.ledger.keys && e.estimate >= 0.0 && e.ledger.held[k] >= 0.0
    ensures var e' := Refused(e.(ledger := Hold(e.ledger, k, e.estimate)), k, kind);
            && e'.ledger.held == e.ledger.held && EngineOk(e')
            && e' == e.(ledger := e'.ledger, retired := e'.retired)
            && e'.ledger == e.ledger.(held := e'.ledger.held, balances := e'.ledger.balances)
  {
    assert e.ledger.held[k := e.ledger.held[k]] == e.ledger.held;
  }

  lemma StartedHolds(e: Engine, id: TaskId, city: string, k: string, now: real)
    requires EngineOk(e) && HoldsExact(e) && k in e.ledger.keys
    ensures var e' := Started(e.(ledger := Hold(e.ledger, k, e.estimate)), id, city, k, now);
            EngineOk(e') && HoldsExact(e')
  {
    var e' := Started(e.(ledger := Hold(e.ledger, k, e.estimate)), id, city, k, now);
    forall q | 0 <= q < |e.ledger.keys|
      ensures e'.ledger.held[e.ledger.keys[q]] == Times(e.estimate, InFlightOn(e'.tasks, q))
    {
      assert e'.tasks[..|e.tasks|] == e.tasks;
      PositionUnique(e.ledger.keys, q);
    }
  }

  lemma StartedTasksOk(e: Engine, minted: nat, t: Task)
    requires TasksOk(e, minted) && t.id == minted
    ensures TasksOk(e.(tasks := e.tasks + [t]), minted + 1)
  {
  }

  lemma StartedKeepsInv(s: System, script: Script, k: string, now: real, cities: seq<string>)
    requires Inv(s.e, s.minted, cities) && k in s.e.ledger.keys && s.e.unsubmitted != []
    requires script(|s.calls|).None?
    ensures var s' := Attempt(s, script, s.e.unsubmitted[0], k, now);
            && Inv(s'.e, s'.minted, cities)
            && s'.e.submitted == s.e.submitted + [s.e.unsubmitted[0]]
            && s'.e.unsubmitted == s.e.unsubmitted[1..]
  {
    var city := s.e.unsubmitted[0];
    StartedEngineKeepsInv(s.e, s.minted, city, k, now, cities);
  }

  lemma StartedEngineKeepsInv(e: Engine, id: TaskId, city: string, k: string, now: real, cities: seq<string>)
    requires Inv(e, id, cities) && k in e.ledger.keys && e.unsubmitted != [] && city == e.unsubmitted[0]
    ensures var e' := Started(e.(ledger := Hold(e.ledger, k, e.estimate)), id, city, k, now);
            && Inv(e', id + 1, cities)
            && e'.submitted == e.submitted + [city] && e'.unsubmitted == e.unsubmitted[1..]
  {
    var e' := Started(e.(ledger := Hold(e.ledger, k, e.estimate)), id, city, k, now);
    StartedHolds(e, id, city, k, now);
    StartedTasksOk(e, id, Task(id, city, Position(e.ledger.keys, k), now));
    assert e'.submitted + e'.unsubmitted == e.submitted + e.unsubmitted;
  }

  lemma HoldNonnegative(e: Engine, k: string)
    requires EngineOk(e) && HoldsExact(e) && e.estimate >= 0.0 && k in e.ledger.keys
    ensures e.ledger.held[k] >= 0.0
  {
    var p := Position(e.ledger.keys, k);
    TimesNonnegative(e.estimate, InFlightOn(e.tasks, p));
  }

  lemma RefusedKeepsInv(s: System, script: Script, k: string, now: real, cities: seq<string>)
    requires Inv(s.e, s.minted, cities) && k in s.e.ledger.keys && s.e.unsubmitted != []
    requires script(|s.calls|).Some?
    ensures var s' := Attempt(s, script, s.e.unsubmitted[0], k, now);
            && Inv(s'.e, s'.minted, cities) && s'.minted == s.minted
            && s'.e.submitted == s.e.submitted && s'.e.unsubmitted == s.e.unsubmitted
  {
    HoldNonnegative(s.e, k);
    RefusedRestoresHolds(s.e, k, script(|s.calls|).value);
  }

  lemma {:induction false} SubmitOneKeepsInv(s: System, script: Script, tried: set<string>, now: real,
                                             cities: seq<string>)
    requires Inv(s.e, s.minted, cities) && s.e.unsubmitted != []
    ensures var (s', done) := SubmitOne(s, script, s.e.unsubmitted[0], tried, now);
            && Inv(s'.e, s'.minted, cities) && s.minted <= s'.minted
            && s'.e.submitted == s.e.submitted + (if done then [s.e.unsubmitted[0]] else [])
            && s'.e.unsubmitted == (if done then s.e.unsubmitted[1..] else s.e.unsubmitted)
    decreases |Untried(s.e.ledger.keys, tried)|
  {
    var usable := Usable(s.e, tried, 0);
    if usable != [] {
      var k := Richest(s.e.ledger, usable);
      if script(|s.calls|).None? {
        StartedKeepsInv(s, script, k, now, cities);
      } else {
        RefusedKeepsInv(s, script, k, now, cities);
        OneFewerUntried(s.e.ledger.keys, tried, k);
        SubmitOneKeepsInv(Attempt(s, script, s.e.unsubmitted[0], k, now), script, tried + {k}, now, cities);
      }
    }
  }

  lemma {:induction false} SubmitAllKeepsInv(s: System, script: Script, now: real, cities: seq<string>)
    requires Inv(s.e, s.minted, cities)
    ensures var s' := SubmitAll(s, script, s.e.unsubmitted, now);
            Inv(s'.e, s'.minted, cities) && s.minted <= s'.minted && s.e.submitted <= s'.e.submitted
    decreases |s.e.unsubmitted|
  {
    if s.e.unsubmitted != [] {
      SubmitOneKeepsInv(s, script, {}, now, cities);
      var (s1, done) := SubmitOne(s, script, s.e.unsubmitted[0], {}, now);
      if done {
        SubmitAllKeepsInv(s1, script, now, cities);
      }
    }
  }

  lemma SubmitKeepsInv(s: System, script: Script, now: real, cities: seq<string>)
    requires Inv(s.e, s.minted, cities)
    ensures var s' := Submit(s, script, cities, now);
            Inv(s'.e, s'.minted, cities) && s.minted <= s'.minted && s.e.submitted <= s'.e.submitted
  {
    SubmitAllKeepsInv(s.(e := Begun(s.e, cities)), script, now, cities);
  }

  // ---------------------------------------------------------------- poll

  /** Dropping the hold of a task in flight: release does not clamp. */
  lemma LeftHolds(e: Engine, i: nat, ledger: Ledger)
    requires EngineOk(e) && HoldsExact(e) && e.estimate >= 0.0 && i < |e.tasks|
    requires forall a, b | 0 <= a < b < |e.tasks| :: e.tasks[a].id != e.tasks[b].id
    requires LedgerOk(ledger) && ledger.keys == e.ledger.keys
    requires ledger.held == Release(e.ledger, e.ledger.keys[e.tasks[i].key], e.estimate).held
    ensures ledger.held[e.ledger.keys[e.tasks[i].key]] == e.ledger.held[e.ledger.keys[e.tasks[i].key]] - e.estimate
    ensures var e' := e.(ledger := ledger, tasks := WithoutTask(e.tasks, e.tasks[i].id));
            EngineOk(e') && HoldsExact(e')
  {
    var t := e.tasks[i];
    var e' := e.(ledger := ledger, tasks := WithoutTask(e.tasks, t.id));
    TaskFrom(e.tasks, t.id);
    InFlightWithout(e.tasks, i, t.key);
    TimesNonnegative(e.estimate, InFlightOn(e'.tasks, t.key));
    forall p | 0 <= p < |e.ledger.keys|
      ensures e'.ledger.held[e.ledger.keys[p]] == Times(e.estimate, InFlightOn(e'.tasks, p))
    {
      InFlightWithout(e.tasks, i, p);
      TimesNonnegative(e.estimate, InFlightOn(e'.tasks, p));
      if p != t.key {
        assert e.ledger.keys[p] != e.ledger.keys[t.key];
      }
    }
  }

  lemma LeftTasksOk(e: Engine, minted: nat, i: nat)
    requires TasksOk(e, minted) && i < |e.tasks|
    ensures var tasks := WithoutTask(e.tasks, e.tasks[i].id);
            && |tasks| == |e.tasks| - 1
            && TasksOk(e.(tasks := tasks), minted)
            && TasksOk(e.(tasks := tasks, collected := e.collected + {e.tasks[i].id}), minted)
  {
    WithoutTaskAt(e.tasks, i);
    assert e.tasks[i].id < minted;
  }

  lemma AbandonedKeepsInv(e: Engine, i: nat, ledger: Ledger, minted: nat, cities: seq<string>)
    requires Inv(e, minted, cities) && i < |e.tasks|
    requires LedgerOk(ledger) && ledger.keys == e.ledger.keys
    requires ledger.held == Release(e.ledger, e.ledger.keys[e.tasks[i].key], e.estimate).held
    ensures Inv(Abandoned(e.(ledger := ledger), e.tasks[i].id), minted, cities)
  {
    LeftHolds(e, i, ledger);
    LeftTasksOk(e, minted, i);
    SameHoldsExact(e.(ledger := ledger, tasks := WithoutTask(e.tasks, e.tasks[i].id)),
                   Abandoned(e.(ledger := ledger), e.tasks[i].id));
  }

  lemma CollectedKeepsInv(e: Engine, i: nat, ledger: Ledger, failed: nat, minted: nat, cities: seq<string>)
    requires Inv(e, minted, cities) && i < |e.tasks|
    requires LedgerOk(ledger) && ledger.keys == e.ledger.keys
    requires ledger.held == Release(e.ledger, e.ledger.keys[e.tasks[i].key], e.estimate).held
    ensures Inv(e.(ledger := ledger, tasks := WithoutTask(e.tasks, e.tasks[i].id),
                   collected := e.collected + {e.tasks[i].id}, failed := failed), minted, cities)
  {
    LeftHolds(e, i, ledger);
    LeftTasksOk(e, minted, i);
    assert e.tasks[i].id !in e.collected;
    SameHoldsExact(e.(ledger := ledger, tasks := WithoutTask(e.tasks, e.tasks[i].id)),
                   e.(ledger := ledger, tasks := WithoutTask(e.tasks, e.tasks[i].id),
                      collected := e.collected + {e.tasks[i].id}, failed := failed));
  }

  lemma SameHoldsExact(e: Engine, o: Engine)
    requires EngineOk(e) && HoldsExact(e) && o.ledger == e.ledger && o.tasks == e.tasks && o.estimate == e.estimate
    ensures EngineOk(o) && HoldsExact(o)
  {
    forall p | 0 <= p < |o.ledger.keys|
      ensures o.ledger.held[o.ledger.keys[p]] == Times(o.estimate, InFlightOn(o.tasks, p))
    {
      assert e.ledger.held[e.ledger.keys[p]] == Times(e.estimate, InFlightOn(e.tasks, p));
    }
  }

  lemma PollTaskKeepsInv(s: System, i: nat, reply: Reply, now: real, cities: seq<string>)
    requires Inv(s.e, s.minted, cities) && i < |s.e.tasks|
    ensures var s' := PollTask(s, s.e.tasks[i], reply, now);
            && Inv(s'.e, s'.minted, cities) && s'.minted == s.minted && s'.calls == s.calls
            && s'.e.submitted == s.e.submitted && s'.e.unsubmitted == s.e.unsubmitted
            && (s'.e.tasks == s.e.tasks || s'.e.tasks == s.e.tasks[..i] + s.e.tasks[i + 1..])
  {
    var t := s.e.tasks[i];
    var s' := PollTask(s, t, reply, now);
    WithoutTaskAt(s.e.tasks, i);
    if reply.Ended? {
      CollectedKeepsInv(s.e, i, s'.e.ledger, s'.e.failed, s.minted, cities);
    } else if now - t.at > s.e.timeout {
      AbandonedKeepsInv(s.e, i, s'.e.ledger, s.minted, cities);
    }
  }

  /** `kept` is what the loop has left in place so far, `todo` what it has still to look at. */
  lemma {:induction false} PollAllKeepsInv(s: System, kept: nat, replies: TaskId -> Reply, now: real,
                                           cities: seq<string>)
    requires Inv(s.e, s.minted, cities) && kept <= |s.e.tasks|
    ensures var s' := PollAll(s, s.e.tasks[kept..], replies, now);
            && Inv(s'.e, s'.minted, cities) && s'.minted == s.minted && s'.calls == s.calls
            && s'.e.submitted == s.e.submitted && s'.e.unsubmitted == s.e.unsubmitted
    decreases |s.e.tasks| - kept
  {
    var todo := s.e.tasks[kept..];
    if todo != [] {
      PollTaskKeepsInv(s, kept, replies(todo[0].id), now, cities);
      var s1 := PollTask(s, todo[0], replies(todo[0].id), now);
      var kept1 := if s1.e.tasks == s.e.tasks then kept + 1 else kept;
      assert s1.e.tasks[kept1..] == todo[1..];
      PollAllKeepsInv(s1, kept1, replies, now, cities);
    }
  }

  lemma PollKeepsInv(s: System, replies: TaskId -> Reply, now: real, cities: seq<string>)
    requires Inv(s.e, s.minted, cities)
    ensures var s' := Poll(s, replies, now);
            && Inv(s'.e, s'.minted, cities) && s'.minted == s.minted && s'.calls == s.calls
            && s'.e.submitted == s.e.submitted && s'.e.unsubmitted == s.e.unsubmitted
  {
    assert s.e.tasks[0..] == s.e.tasks;
    PollAllKeepsInv(s, 0, replies, now, cities);
  }

  // ---------------------------------------------------------------- restart

  lemma {:induction false} ReheldExact(l: Ledger, tasks: seq<Task>, estimate: real, p: nat)
    requires LedgerOk(l) && (forall t | t in tasks :: t.key < |l.keys|) && p < |l.keys|
    ensures Reheld(l, tasks, estimate).held[l.keys[p]] == l.held[l.keys[p]] + Times(estimate, InFlightOn(tasks, p))
  {
    if tasks != [] {
      ReheldExact(l, tasks[..|tasks| - 1], estimate, p);
      var q := tasks[|tasks| - 1].key;
      assert q != p ==> l.keys[q] != l.keys[p];
    }
  }

  lemma RestoredLedgerOk(keys: seq<string>, floor: real, snap: map<nat, real>)
    requires forall i, j | 0 <= i < j < |keys| :: keys[i] != keys[j]
    ensures LedgerOk(RestoredLedger(keys, floor, snap))
    ensures forall p | 0 <= p < |keys| && p in snap :: RestoredLedger(keys, floor, snap).balances[keys[p]] == snap[p]
    ensures forall p | 0 <= p < |keys| :: RestoredLedger(keys, floor, snap).held[keys[p]] == 0.0
  {
    forall p | 0 <= p < |keys| ensures Position(keys, keys[p]) == p { PositionUnique(keys, p); }
  }

  /** Rebuilding an engine from its snapshot: the same tasks, cities and holds, every balance rounded. */
  lemma RestartIsFaithful(e: Engine)
    requires EngineOk(e) && HoldsExact(e)
    ensures var e' := Restarted(e);
            && EngineOk(e') && HoldsExact(e')
            && e' == e.(ledger := e'.ledger)
            && e'.ledger.keys == e.ledger.keys && e'.ledger.floor == e.ledger.floor
            && (forall k | k in e.ledger.keys ::
                  e'.ledger.held[k] == e.ledger.held[k] && e'.ledger.balances[k] == Round2(e.ledger.balances[k]))
  {
    var keys := e.ledger.keys;
    var l := RestoredLedger(keys, e.ledger.floor, LedgerSnapshot(e.ledger));
    RestoredLedgerOk(keys, e.ledger.floor, LedgerSnapshot(e.ledger));
    forall p | 0 <= p < |keys|
      ensures Restarted(e).ledger.held[keys[p]] == Times(e.estimate, InFlightOn(e.tasks, p))
    {
      ReheldExact(l, e.tasks, e.estimate, p);
    }
    forall k | k in keys
      ensures Restarted(e).ledger.held[k] == e.ledger.held[k]
      ensures Restarted(e).ledger.balances[k] == Round2(e.ledger.balances[k])
    {
      var p := Position(keys, k);
      assert k == keys[p];
    }
  }

  lemma RestartKeepsInv(e: Engine, minted: nat, cities: seq<string>)
    requires Inv(e, minted, cities)
    ensures Inv(Restarted(e), minted, cities)
  {
    RestartIsFaithful(e);
  }

  lemma Round2Whole(n: int)
    ensures Round2(n as real / 100.0) == n as real / 100.0
  {
    assert (n as real / 100.0) * 100.0 == n as real;
  }

  /** Rounding moves a balance by at most half a hundredth, and a rounded balance stays put. */
  lemma Round2Near(x: real)
    ensures -0.005 <= Round2(x) - x <= 0.005
    ensures Round2(Round2(x)) == Round2(x)
  {
    var f := (x * 100.0).Floor;
    if Round2(x) == f as real / 100.0 { Round2Whole(f); } else { Round2Whole(f + 1); }
  }

  /** Rounding never passes a whole hundredth. */
  lemma Round2AtLeast(x: real, n: int)
    requires x >= n as real / 100.0
    ensures Round2(x) >= n as real / 100.0
  {
    assert x * 100.0 >= n as real;
    assert (x * 100.0).Floor >= n;
  }

  lemma RoundedSnapshotsAgree(l: Ledger, l': Ledger)
    requires LedgerOk(l) && LedgerOk(l') && l'.keys == l.keys
    requires forall k | k in l.keys :: l'.balances[k] == Round2(l.balances[k])
    ensures LedgerSnapshot(l') == LedgerSnapshot(l)
  {
    forall i: nat | i < |l.keys| ensures LedgerSnapshot(l')[i] == LedgerSnapshot(l)[i] {
      assert l.keys[i] in l.keys;
      Round2Near(l.balances[l.keys[i]]);
    }
  }

  /** snapshot, restore, snapshot gives the first snapshot back, rounding and all. */
  lemma SnapshotRoundTrip(e: Engine)
    requires EngineOk(e) && HoldsExact(e)
    ensures StateOf(Restarted(e)) == StateOf(e)
    ensures Restarted(Restarted(e)) == Restarted(e)
  {
    RestartIsFaithful(e);
    RoundedSnapshotsAgree(e.ledger, Restarted(e).ledger);
  }

  lemma MoreMinted(e: Engine, minted: nat, more: nat, cities: seq<string>)
    requires Inv(e, minted, cities) && minted <= more
    ensures Inv(e, more, cities)
  {
  }
}
