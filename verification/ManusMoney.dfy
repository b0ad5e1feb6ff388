/** The money rules of the discovery engine: how often a city is paid for, when the engine is
    exhausted or finished, the floor, and where the credits went. */
module ManusMoney {
  import opened Common
  import opened Manus
  import opened ManusProofs

  // ---------------------------------------------------------------- create_task calls

  /** The calls made for one city: every key at most once, all failing but possibly the last. */
  ghost predicate OneRound(calls: seq<Call>, city: string, keys: seq<string>, tried: set<string>, done: bool) {
    && (forall i | 0 <= i < |calls| :: calls[i].city == city && calls[i].key < |keys| && keys[calls[i].key] !in tried)
    && (forall i, j | 0 <= i < j < |calls| :: calls[i].key != calls[j].key)
    && (forall i | 0 <= i < |calls| :: calls[i].error.None? <==> done && i == |calls| - 1)
    && (done ==> calls != [])
  }

  lemma RoundGrows(call: Call, rest: seq<Call>, city: string, keys: seq<string>, tried: set<string>, k: string,
                   done: bool)
    requires OneRound(rest, city, keys, tried + {k}, done)
    requires k !in tried && call.city == city && call.error.Some? && call.key < |keys| && keys[call.key] == k
    ensures OneRound([call] + rest, city, keys, tried, done)
  {
    var calls := [call] + rest;
    assert forall i | 0 < i < |calls| :: calls[i] == rest[i - 1];
  }

  ghost predicate AddsOneRound(before: seq<Call>, after: seq<Call>, city: string, keys: seq<string>, tried: set<string>,
                               done: bool)
  {
    && before <= after
    && OneRound(after[|before|..], city, keys, tried, done)
    && |after| - |before| <= |Untried(keys, tried)|
  }

  lemma OneCallMore(before: seq<Call>, call: Call, after: seq<Call>, city: string, keys: seq<string>,
                    tried: set<string>, k: string, done: bool)
    requires AddsOneRound(before + [call], after, city, keys, tried + {k}, done)
    requires |Untried(keys, tried + {k})| < |Untried(keys, tried)|
    requires k !in tried && call.city == city && call.error.Some? && call.key < |keys| && keys[call.key] == k
    ensures AddsOneRound(before, after, city, keys, tried, done)
  {
    assert after[|before|] == (before + [call])[|before|];
    assert after[|before|..] == [call] + after[|before| + 1..];
    RoundGrows(call, after[|before| + 1..], city, keys, tried, k, done);
  }

  /** `_submit_one` makes at most one create_task call per key it has not tried yet. */
  lemma {:induction false} OneCallPerKey(s: System, script: Script, city: string, tried: set<string>, now: real)
    requires LedgerOk(s.e.ledger)
    ensures var (s', done) := SubmitOne(s, script, city, tried, now);
            AddsOneRound(s.calls, s'.calls, city, s.e.ledger.keys, tried, done)
    decreases |Untried(s.e.ledger.keys, tried)|
  {
    var s' := SubmitOne(s, script, city, tried, now).0;
    var usable := Usable(s.e, tried, 0);
    if usable == [] {
      assert s'.calls[|s.calls|..] == [];
    } else {
      var k := Richest(s.e.ledger, usable);
      var s1 := Attempt(s, script, city, k, now);
      var call := Call(city, Position(s.e.ledger.keys, k), script(|s.calls|));
      assert s1.calls == s.calls + [call];
      OneFewerUntried(s.e.ledger.keys, tried, k);
      if script(|s.calls|).None? {
        assert s'.calls[|s.calls|..] == [call];
        assert OneRound([call], city, s.e.ledger.keys, tried, true);
      } else {
        OneCallPerKey(s1, script, city, tried + {k}, now);
        OneCallMore(s.calls, call, s'.calls, city, s.e.ledger.keys, tried, k,
                    SubmitOne(s1, script, city, tried + {k}, now).1);
      }
    }
  }

  lemma {:induction false} UntriedBound(keys: seq<string>)
    ensures |Untried(keys, {})| <= |keys|
  {
    if keys != [] {
      var n := |keys| - 1;
      UntriedBound(keys[..n]);
      assert Untried(keys, {}) == Untried(keys[..n], {}) + {keys[n]};
    }
  }

  /** So one city costs at most as many calls as there are keys, and `submit` always returns. */
  lemma CallsPerCity(s: System, script: Script, city: string, now: real)
    requires LedgerOk(s.e.ledger)
    ensures |SubmitOne(s, script, city, {}, now).0.calls| <= |s.calls| + |s.e.ledger.keys|
  {
    OneCallPerKey(s, script, city, {}, now);
    UntriedBound(s.e.ledger.keys);
  }

  /** 'exhausted' agrees with 'cannot submit': with cities still to do, the engine is exhausted exactly
      if the next submit makes no call at all, whatever the service would have said. */
  lemma ExhaustedIffNoCall(s: System, script: Script, cities: seq<string>, now: real)
    requires LedgerOk(s.e.ledger) && s.e.unsubmitted != []
    ensures Exhausted(s.e) <==> Submit(s, script, cities, now).calls == s.calls
  {
    var city := s.e.unsubmitted[0];
    OneCallPerKey(s, script, city, {}, now);
    if !Exhausted(s.e) {
      var s1 := SubmitOne(s, script, city, {}, now).0;
      SubmitOneCalls(s, script, city, {}, now);
      SubmitAllExtends(s1, script, s.e.unsubmitted[1..], now);
    }
  }

  lemma SubmitOneCalls(s: System, script: Script, city: string, tried: set<string>, now: real)
    requires LedgerOk(s.e.ledger) && Usable(s.e, tried, 0) != []
    ensures |s.calls| < |SubmitOne(s, script, city, tried, now).0.calls|
  {
    var k := Richest(s.e.ledger, Usable(s.e, tried, 0));
    OneCallPerKey(Attempt(s, script, city, k, now), script, city, tried + {k}, now);
  }

  lemma {:induction false} SubmitAllExtends(s: System, script: Script, cities: seq<string>, now: real)
    requires LedgerOk(s.e.ledger)
    ensures s.calls <= SubmitAll(s, script, cities, now).calls
    decreases |cities|
  {
    if cities != [] {
      OneCallPerKey(s, script, cities[0], {}, now);
      var (s1, done) := SubmitOne(s, script, cities[0], {}, now);
      if done {
        SubmitAllExtends(s1, script, cities[1..], now);
      }
    }
  }

  /** Once work has begun, `finished` (nothing in flight, nothing left to submit) holds exactly when
      every city of the ICP has been collected or has timed out. */
  lemma FinishedIff(e: Engine, minted: nat, cities: seq<string>)
    requires Inv(e, minted, cities) && e.submitted + e.unsubmitted == cities
    ensures e.tasks == [] && e.unsubmitted == [] <==> |e.collected| + e.timedOut == |cities|
  {
  }

  /** The cities of the successful calls, in order: what has been paid for. */
  function Paid(calls: seq<Call>): seq<string> {
    if calls == [] then []
    else
      var last := calls[|calls| - 1];
      Paid(calls[..|calls| - 1]) + (if last.error.None? then [last.city] else [])
  }

  lemma {:induction false} PaidConcat(a: seq<Call>, b: seq<Call>)
    ensures Paid(a + b) == Paid(a) + Paid(b)
  {
    if b == [] {
      assert a + b == a;
    } else {
      PaidConcat(a, b[..|b| - 1]);
      assert (a + b)[..|a + b| - 1] == a + b[..|b| - 1];
    }
  }

  lemma {:induction false} PaidRound(calls: seq<Call>, city: string, keys: seq<string>, tried: set<string>, done: bool)
    requires OneRound(calls, city, keys, tried, done)
    ensures Paid(calls) == if done then [city] else []
  {
    if calls != [] {
      NothingPaid(calls[..|calls| - 1]);
    }
  }

  lemma {:induction false} NothingPaid(calls: seq<Call>)
    requires forall i | 0 <= i < |calls| :: calls[i].error.Some?
    ensures Paid(calls) == []
  {
    if calls != [] {
      NothingPaid(calls[..|calls| - 1]);
    }
  }

  lemma SubmitOnePays(s: System, script: Script, city: string, now: real)
    requires LedgerOk(s.e.ledger)
    ensures var (s', done) := SubmitOne(s, script, city, {}, now);
            Paid(s'.calls) == Paid(s.calls) + (if done then [city] else [])
  {
    OneCallPerKey(s, script, city, {}, now);
    var (s', done) := SubmitOne(s, script, city, {}, now);
    RoundPays(s.calls, s'.calls, city, s.e.ledger.keys, done);
  }

  lemma RoundPays(before: seq<Call>, after: seq<Call>, city: string, keys: seq<string>, done: bool)
    requires AddsOneRound(before, after, city, keys, {}, done)
    ensures Paid(after) == Paid(before) + (if done then [city] else [])
  {
    var made := after[|before|..];
    assert after == before + made;
    PaidConcat(before, made);
    PaidRound(made, city, keys, {}, done);
  }

  lemma TailGrows(paid: seq<string>, before: seq<string>, city: string, after: seq<string>)
    requires before + [city] <= after
    ensures before <= after && paid + [city] + after[|before| + 1..] == paid + after[|before|..]
  {
  }

  /** One submit pays for exactly the cities it moves to `submitted`: the next ones in ICP order. */
  lemma {:induction false} SubmitAllPays(s: System, script: Script, now: real, cities: seq<string>)
    requires Inv(s.e, s.minted, cities)
    ensures var s' := SubmitAll(s, script, s.e.unsubmitted, now);
            && s.e.submitted <= s'.e.submitted
            && Paid(s'.calls) == Paid(s.calls) + s'.e.submitted[|s.e.submitted|..]
    decreases |s.e.unsubmitted|
  {
    var s' := SubmitAll(s, script, s.e.unsubmitted, now);
    if s.e.unsubmitted == [] {
      assert s'.e.submitted[|s.e.submitted|..] == [];
    } else {
      var city := s.e.unsubmitted[0];
      var (s1, done) := SubmitOne(s, script, city, {}, now);
      SubmitOneKeepsInv(s, script, {}, now, cities);
      SubmitOnePays(s, script, city, now);
      if done {
        SubmitAllPays(s1, script, now, cities);
        assert s' == SubmitAll(s1, script, s1.e.unsubmitted, now);
        TailGrows(Paid(s.calls), s.e.submitted, city, s'.e.submitted);
      } else {
        assert s' == s1;
        assert s'.e.submitted[|s.e.submitted|..] == [];
      }
    }
  }

  lemma SubmitPays(s: System, script: Script, now: real, cities: seq<string>)
    requires Inv(s.e, s.minted, cities)
    ensures var s' := Submit(s, script, cities, now);
            && s.e.submitted <= s'.e.submitted
            && Paid(s'.calls) == Paid(s.calls) + s'.e.submitted[|s.e.submitted|..]
  {
    var s0 := s.(e := Begun(s.e, cities));
    assert Inv(s0.e, s0.minted, cities);
    SubmitAllPays(s0, script, now, cities);
  }
}
