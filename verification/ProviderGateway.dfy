/** infrastructure/providers/gateway.py: the gateway object and the ledger table it writes, in place. */
module ProviderGatewayModule {
  import opened Common
  import opened Gateway
  import opened GatewayProofs

  // ---------------------------------------------------------------- the registry's order

  /** Adapters registered earlier come earlier, among those of equal priority. */
  ghost predicate ByRegistration(s: seq<Adapter>) {
    forall i, j | 0 <= i < j < |s| && s[i].priority == s[j].priority :: s[i].serial < s[j].serial
  }

  /** `a` may come after everything of its priority. */
  ghost predicate Latest(s: seq<Adapter>, a: Adapter) {
    forall i | 0 <= i < |s| && s[i].priority == a.priority :: s[i].serial < a.serial
  }

  lemma InOrderSplice(s: seq<Adapter>, k: nat, a: Adapter)
    requires InOrder(s) && k <= |s|
    requires forall i | 0 <= i < k :: Precedes(s[i], a)
    requires forall i | k <= i < |s| :: Precedes(a, s[i])
    ensures InOrder(s[..k] + [a] + s[k..])
    ensures multiset(s[..k] + [a] + s[k..]) == multiset(s) + multiset{a}
  {
    assert s[..k] + s[k..] == s;
  }

  method InsertByPriority(s: seq<Adapter>, a: Adapter) returns (r: seq<Adapter>)
    requires InOrder(s) && Latest(s, a)
    ensures InOrder(r) && multiset(r) == multiset(s) + multiset{a}
  {
    var k := |s|;
    while k > 0 && s[k - 1].priority > a.priority
      invariant 0 <= k <= |s|
      invariant forall i | k <= i < |s| :: Precedes(a, s[i])
    {
      k := k - 1;
    }
    forall i | 0 <= i < k ensures Precedes(s[i], a) {
      assert i < k - 1 ==> Precedes(s[i], s[k - 1]);
    }
    InOrderSplice(s, k, a);
    r := s[..k] + [a] + s[k..];
  }

  lemma LatestOfPrefix(s: seq<Adapter>, n: nat, r: seq<Adapter>)
    requires ByRegistration(s) && n < |s| && multiset(r) == multiset(s[..n])
    ensures Latest(r, s[n])
  {
    forall i | 0 <= i < |r| && r[i].priority == s[n].priority ensures r[i].serial < s[n].serial {
      assert r[i] in multiset(s[..n]);
      var j :| 0 <= j < n && s[j] == r[i];
    }
  }

  /** A stable sort on the priority. */
  method SortByPriority(s: seq<Adapter>) returns (r: seq<Adapter>)
    requires ByRegistration(s)
    ensures InOrder(r) && multiset(r) == multiset(s)
  {
    r := [];
    for n := 0 to |s|
      invariant InOrder(r) && multiset(r) == multiset(s[..n])
    {
      LatestOfPrefix(s, n, r);
      r := InsertByPriority(r, s[n]);
      assert s[..n + 1] == s[..n] + [s[n]];
    }
    assert s[..|s|] == s;
  }

  lemma FirstIsLeast(s: seq<Adapter>, a: Adapter)
    requires InOrder(s) && a in s
    ensures a == s[0] || Precedes(s[0], a)
  {
  }

  /** Priority and registration leave only one order for given adapters. */
  lemma {:induction false} OrderIsUnique(s: seq<Adapter>, t: seq<Adapter>)
    requires InOrder(s) && InOrder(t) && multiset(s) == multiset(t)
    ensures s == t
  {
    assert |s| == |multiset(s)| && |t| == |multiset(t)|;
    if s != [] {
      assert s[0] in multiset(t) && t[0] in multiset(s);
      FirstIsLeast(s, t[0]);
      FirstIsLeast(t, s[0]);
      RestMatches(s, t);
      OrderIsUnique(s[1..], t[1..]);
      assert s == [s[0]] + s[1..] && t == [t[0]] + t[1..];
    }
  }

  lemma RestMatches(s: seq<Adapter>, t: seq<Adapter>)
    requires s != [] && t != [] && s[0] == t[0] && multiset(s) == multiset(t)
    ensures multiset(s[1..]) == multiset(t[1..])
  {
    assert s == [s[0]] + s[1..] && t == [t[0]] + t[1..];
    assert multiset(s[1..]) == multiset(s) - multiset{s[0]};
    assert multiset(t[1..]) == multiset(t) - multiset{t[0]};
  }

  /** So of all the adapters registered for a capability, the one whose result is returned is the one
      of least priority, earliest registered among equals, that does not pass the request on. */
  lemma StopIsLeast(rows: seq<Effect>, adapters: seq<Adapter>, req: Request, budget: Option<int>, replies: nat -> Reply,
                    k: nat)
    requires InOrder(adapters) && k < |adapters|
    requires VerdictOf(rows, adapters[k], req, budget, replies(k)) != TryNext
    ensures var stop := FirstStop(rows, adapters, 0, req, budget, replies);
            && stop < |adapters|
            && (stop == k || adapters[stop].priority < adapters[k].priority
                || (adapters[stop].priority == adapters[k].priority && adapters[stop].serial < adapters[k].serial))
  {
    var stop := FirstStop(rows, adapters, 0, req, budget, replies);
    assert !(k < stop);
  }

  // ---------------------------------------------------------------- the gateway

  class ProviderGateway {
    var registry: map<string, seq<Adapter>>
    var registered: nat
    var effects: seq<Effect>

    ghost predicate RegistryOk()
      reads this
    {
      forall c | c in registry ::
        InOrder(registry[c]) && forall a | a in registry[c] :: a.capability == c && a.serial < registered
    }

    ghost predicate Valid()
      reads this
    {
      RegistryOk() && RowsOk(effects)
    }

    constructor ()
      ensures Valid() && registry == map[] && effects == []
    {
      registry := map[];
      registered := 0;
      effects := [];
    }

    function Adapters(capability: string): seq<Adapter>
      reads this
    {
      if capability in registry then registry[capability] else []
    }

    /** Appends and sorts; with OrderIsUnique, this contract determines the new list. */
    method Register(provider: string, capability: string, priority: int, price: nat)
      requires Valid()
      modifies this`registry, this`registered
      ensures Valid() && registered == old(registered) + 1
      ensures var a := Adapter(provider, capability, priority, price, old(registered));
              multiset(Adapters(capability)) == multiset(old(Adapters(capability))) + multiset{a}
      ensures InOrder(Adapters(capability))
      ensures var adapters := Adapters(capability);
              forall i, j | 0 <= i < j < |adapters| ::
                adapters[i].priority < adapters[j].priority
                || (adapters[i].priority == adapters[j].priority && adapters[i].serial < adapters[j].serial)
      ensures forall c | c != capability :: Adapters(c) == old(Adapters(c))
    {
      var a := Adapter(provider, capability, priority, price, registered);
      var before := Adapters(capability);
      var unsorted := before + [a];
      assert forall i | 0 <= i < |before| :: before[i] in before;
      var sorted := SortByPriority(unsorted);
      forall x | x in sorted ensures x.capability == capability && x.serial <= a.serial {
        assert x in multiset(unsorted);
        assert x in unsorted;
      }
      registry := registry[capability := sorted];
      registered := registered + 1;
    }

    /** `_Ledger.reserve`. */
    method ReserveEffect(key: EffectKey) returns (id: nat, already: bool)
      modifies this`effects
      ensures already <==> HasSucceeded(old(effects), key)
      ensures effects == if already then old(effects) else Reserve(old(effects), key)
      ensures id == Find(old(effects), key) && id < |effects|
    {
      id := Find(effects, key);
      if id < |effects| {
        if effects[id].status == Failed {
          effects := effects[id := effects[id].(status := Reserved)];
          already := false;
        } else {
          already := effects[id].status == Succeeded;
        }
      } else {
        effects := effects + [Effect(key, Reserved, 0)];
        already := false;
      }
    }

    /** `_Ledger.complete`. */
    method CompleteEffect(id: nat, ok: bool, cost: int, failure: Option<FailureClass>)
      requires id < |effects| && (ok || cost == 0)
      modifies this`effects
      ensures effects == Complete(old(effects), id, Reply(ok, cost, failure))
    {
      var final := if ok then Succeeded else if failure == Some(Ambiguous) then Uncertain else Failed;
      effects := effects[id := effects[id].(status := final, cost := cost)];
    }

    /** `execute`: the loop computes the waterfall on the ledger as it was, hence returns the result
        of the first adapter in order that does not pass the request on (`calls` are the effects whose
        adapter was called). */
    method Execute(capability: string, req: Request, budget: Option<int>, replies: nat -> Reply)
      returns (outcome: Outcome, ghost calls: seq<EffectKey>)
      requires Valid()
      modifies this`effects
      ensures Valid()
      ensures Run(effects, outcome, calls) == Gateway.Execute(old(effects), Adapters(capability), req, budget, replies)
      ensures var list := Adapters(capability);
              var stop := FirstStop(old(effects), list, 0, req, budget, replies);
              && OutcomeIs(old(effects), list, stop, req, budget, replies, outcome)
              && calls == KeysOf(list, 0, CalledUpTo(old(effects), list, stop, req, budget, replies), req)
    {
      var list := Adapters(capability);
      ghost var run := Gateway.Execute(effects, list, req, budget, replies);
      ExecuteBooksOnly(effects, Op(req, list, budget, replies));
      WaterfallIsFirstStop(effects, list, req, budget, replies);
      outcome, calls := WaterfallLoop(list, req, budget, replies);
      assert Run(effects, outcome, calls) == run;
    }

    method WaterfallLoop(list: seq<Adapter>, req: Request, budget: Option<int>, replies: nat -> Reply)
      returns (outcome: Outcome, ghost calls: seq<EffectKey>)
      modifies this`effects
      ensures Run(effects, outcome, calls) == Waterfall(old(effects), list, 0, req, budget, None, replies, [])
    {
      ghost var run := Waterfall(effects, list, 0, req, budget, None, replies, []);
      calls := [];
      var spent: Option<int> := None;
      var i := 0;
      while i < |list|
        invariant i <= |list|
        invariant run == Waterfall(effects, list, i, req, budget, spent, replies, calls)
      {
        var adapter := list[i];
        var key := EffectKey(req, adapter.provider);
        ghost var before, known := effects, spent;
        TurnEnds(before, list, i, req, budget, known, replies, calls);
        var id, already := ReserveEffect(key);
        if already {
          return CachedEffect(id), calls;
        }
        if budget.Some? && adapter.price > 0 {
          if spent.None? {
            spent := Some(Spent(effects, req));
          }
          var remaining := budget.value - spent.value;
          if adapter.price > remaining {
            CompleteEffect(id, false, 0, Some(Capacity));
            return BudgetExhausted, calls;
          }
        }
        var result := replies(i);
        ghost var reserved := effects;
        assert reserved == Reserve(before, key) && spent == SpentOnce(reserved, adapter, req, budget, known);
        assert !(spent.Some? && TooDear(adapter, budget, spent.value));
        if result.ok {
          CompleteEffect(id, true, result.cost, None);
          assert effects == Complete(reserved, id, result);
          return FromAdapter(i, result), calls + [key];
        }
        CompleteEffect(id, false, 0, result.failure);
        assert effects == Complete(reserved, id, result);
        if result.failure !in {Some(Transient), Some(RateLimit), Some(Capacity), Some(Ambiguous)} {
          return FromAdapter(i, result), calls + [key];
        }
        TurnGoesOn(before, list, i, req, budget, known, replies, calls);
        calls := calls + [key];
        i := i + 1;
      }
      outcome := NoProvider;
    }
  }
}
