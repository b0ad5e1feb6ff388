/** One key, one city, paid for twice: after a crash before the save, and by attempts that overlap. */
module ManusCases {
  import opened Common
  import opened Manus
  import opened ManusProofs
  import opened ManusMoney
  import opened ManusRuns
  import opened ManusPayments

  function NewEngine(): Engine {
    Engine(Ledger(["k"], 30.0, map["k" := 300.0], map["k" := 0.0]), 60.0, 1500.0, [], [], [], {}, {}, 0, 0)
  }

  lemma NewEngineOk(minted: nat, cities: seq<string>)
    ensures Inv(NewEngine(), minted, cities) && Restarted(NewEngine()) == NewEngine()
  {
    RestartIsFaithful(NewEngine());
    var l := Restarted(NewEngine()).ledger;
    assert l.balances.Keys == {"k"} && l.held.Keys == {"k"};
    assert "k" in NewEngine().ledger.keys;
    NewLedgerRestored(l);
  }

  lemma NewLedgerRestored(l: Ledger)
    requires l.keys == ["k"] && l.floor == 30.0 && l.balances.Keys == l.held.Keys == {"k"}
    requires l.held["k"] == 0.0 && l.balances["k"] == Round2(300.0)
    ensures l == NewEngine().ledger
  {
    Round2Whole(30000);
    assert l.balances == map["k" := 300.0] && l.held == map["k" := 0.0];
  }

  /** Nothing has been paid for in a new world, so the theorems about runs apply from there. */
  lemma NewWorldIsAccounted(e: Engine, cities: seq<string>)
    requires Inv(e, 0, cities) && e.submitted == []
    ensures var w := NewWorld(e);
            && WorldOk(w, cities) && Accounted(w, cities) && NobodyMisses(w) && NewestLeads(w) && Once(w.entries)
  {
  }

  /** After the first call for the one city has been accepted. */
  function Submitted(c: string, id: TaskId): Engine {
    NewEngine().(ledger := Hold(NewEngine().ledger, "k", 60.0), tasks := [Task(id, c, 0, 0.0)], submitted := [c])
  }

  lemma FirstCall(w: World, k: nat, c: string)
    requires k in w.hands && w.hands[k] == Fresh()
    ensures EngineOk(NewEngine())
    ensures Called(w, k, None, 0.0, [c])
            == w.(hands := w.hands[k := Hand(Submitted(c, w.minted), {})], minted := w.minted + 1,
                  calls := w.calls + [Call(c, 0, None)], entries := w.entries + [0])
  {
    var e := Begun(NewEngine(), [c]);
    assert Usable(e, {}, 1) == [];
    assert Usable(e, {}, 0) == ["k"];
    assert Richest(e.ledger, ["k"]) == "k";
    assert WithoutFirst([c], c) == [];
    assert Started(e.(ledger := Hold(e.ledger, "k", 60.0)), w.minted, c, "k", 0.0) == Submitted(c, w.minted);
  }

  function Fresh(): Hand { Hand(NewEngine(), {}) }

  /** One attempt, and two, that have begun from the new snapshot. */
  function OneBegun(): World { NewWorld(NewEngine()).(hands := map[0 := Fresh()], started := 1) }

  function TwoBegun(): World { NewWorld(NewEngine()).(hands := map[0 := Fresh(), 1 := Fresh()], started := 2) }

  lemma OneMore(w: World, ops: seq<Op>, op: Op, cities: seq<string>)
    requires WorldOk(w, cities)
    ensures Run(w, ops + [op], cities) == Step(Run(w, ops, cities), op, cities)
  {
    assert (ops + [op])[..|ops|] == ops;
  }

  lemma NewWorldOk(c: string)
    ensures WorldOk(NewWorld(NewEngine()), [c])
  {
    NewEngineOk(0, [c]);
  }

  lemma Starts(c: string)
    ensures WorldOk(NewWorld(NewEngine()), [c])
    ensures Run(NewWorld(NewEngine()), [DoStart], [c]) == OneBegun()
    ensures Run(NewWorld(NewEngine()), [DoStart] + [DoStart], [c]) == TwoBegun()
  {
    NewWorldOk(c);
    NewEngineOk(0, [c]);
    var w := NewWorld(NewEngine());
    OneMore(w, [], DoStart, [c]);
    assert [] + [DoStart] == [DoStart];
    assert map[][0 := Fresh()] == OneBegun().hands;
    OneMore(w, [DoStart], DoStart, [c]);
    assert OneBegun().hands[1 := Fresh()] == TwoBegun().hands;
  }

  /** Submit, stop before the save, start again, submit. */
  function Crash(c: string): seq<Op> {
    [DoStart] + [DoCall(0, None, 0.0)] + [DoStop(0)] + [DoStart] + [DoCall(1, None, 0.0)]
  }

  /** The first attempt has paid. */
  function OnePaid(c: string): World {
    OneBegun().(hands := map[0 := Hand(Submitted(c, 0), {})], minted := 1, calls := [Call(c, 0, None)], entries := [0])
  }

  lemma FirstPays(c: string)
    ensures EnginesOk(OneBegun()) && Step(OneBegun(), DoCall(0, None, 0.0), [c]) == OnePaid(c)
  {
    FirstCall(OneBegun(), 0, c);
    assert OneBegun().hands[0 := Hand(Submitted(c, 0), {})] == OnePaid(c).hands;
    assert [] + [Call(c, 0, None)] == [Call(c, 0, None)] && [] + [0] == [0];
  }

  /** ... and is gone. */
  function OneGone(c: string): World { OnePaid(c).(hands := map[]) }

  lemma FirstStops(c: string)
    ensures EnginesOk(OnePaid(c)) && Step(OnePaid(c), DoStop(0), [c]) == OneGone(c)
  {
    assert OnePaid(c).hands - {0} == map[];
  }

  lemma AfterTheCrash(c: string)
    ensures WorldOk(NewWorld(NewEngine()), [c])
    ensures Run(NewWorld(NewEngine()), [DoStart] + [DoCall(0, None, 0.0)] + [DoStop(0)], [c]) == OneGone(c)
  {
    Starts(c);
    OneMore(NewWorld(NewEngine()), [DoStart], DoCall(0, None, 0.0), [c]);
    FirstPays(c);
    OneMore(NewWorld(NewEngine()), [DoStart] + [DoCall(0, None, 0.0)], DoStop(0), [c]);
    FirstStops(c);
  }

  /** The second attempt starts from the same snapshot, and pays again. */
  lemma SecondPays(c: string)
    ensures EnginesOk(OneGone(c)) && EnginesOk(Step(OneGone(c), DoStart, [c]))
    ensures Step(Step(OneGone(c), DoStart, [c]), DoCall(1, None, 0.0), [c]).calls
            == [Call(c, 0, None)] + [Call(c, 0, None)]
  {
    NewEngineOk(0, [c]);
    FirstCall(Step(OneGone(c), DoStart, [c]), 1, c);
  }

  lemma StaleRestartPaysTwice(c: string)
    ensures WorldOk(NewWorld(NewEngine()), [c])
    ensures Paid(Run(NewWorld(NewEngine()), Crash(c), [c]).calls) == [c, c]
  {
    AfterTheCrash(c);
    var w := NewWorld(NewEngine());
    var ops := [DoStart] + [DoCall(0, None, 0.0)] + [DoStop(0)];
    OneMore(w, ops, DoStart, [c]);
    OneMore(w, ops + [DoStart], DoCall(1, None, 0.0), [c]);
    SecondPays(c);
    TwoPaid(Call(c, 0, None));
  }

  lemma TwoPaid(call: Call)
    requires call.error.None?
    ensures Paid([call] + [call]) == [call.city, call.city]
  {
    PaidOne([call], call);
    assert [call][..0] == [];
    assert Paid([call]) == [call.city];
  }

  /** Two attempts begin from the same, up-to-date snapshot; the second submits and saves; then the first,
      which has lost its lease, submits. */
  function Overlap(c: string): seq<Op> {
    [DoStart] + [DoStart] + [DoCall(1, None, 0.0)] + [DoSave(1)] + [DoCall(0, None, 0.0)]
  }

  /** The second attempt has paid, and saved. */
  function SecondSaved(c: string): World {
    TwoBegun().(hands := map[0 := Fresh(), 1 := Hand(Submitted(c, 0), {})], stored := Submitted(c, 0), minted := 1,
                calls := [Call(c, 0, None)], entries := [0])
  }

  lemma SecondSaves(c: string)
    ensures EnginesOk(TwoBegun()) && EnginesOk(Step(TwoBegun(), DoCall(1, None, 0.0), [c]))
    ensures Step(Step(TwoBegun(), DoCall(1, None, 0.0), [c]), DoSave(1), [c]) == SecondSaved(c)
  {
    FirstCall(TwoBegun(), 1, c);
    assert TwoBegun().hands[1 := Hand(Submitted(c, 0), {})] == SecondSaved(c).hands;
    assert [] + [Call(c, 0, None)] == [Call(c, 0, None)] && [] + [0] == [0];
  }

  lemma FirstPaysToo(c: string)
    ensures EnginesOk(SecondSaved(c))
    ensures Step(SecondSaved(c), DoCall(0, None, 0.0), [c]).calls == [Call(c, 0, None)] + [Call(c, 0, None)]
  {
    FirstCall(SecondSaved(c), 0, c);
  }

  /** No crash and no stale snapshot: the city is on record when it is paid for again. */
  lemma OverlapPaysTwice(c: string)
    ensures WorldOk(NewWorld(NewEngine()), [c])
    ensures var w := Run(NewWorld(NewEngine()), Overlap(c)[..4], [c]);
            w.stored.submitted == [c] && Paid(w.calls) == [c]
    ensures Paid(Run(NewWorld(NewEngine()), Overlap(c), [c]).calls) == [c, c]
  {
    Starts(c);
    var w := NewWorld(NewEngine());
    var call := Call(c, 0, None);
    var ops := [DoStart] + [DoStart];
    OneMore(w, ops, DoCall(1, None, 0.0), [c]);
    OneMore(w, ops + [DoCall(1, None, 0.0)], DoSave(1), [c]);
    SecondSaves(c);
    assert Overlap(c)[..4] == ops + [DoCall(1, None, 0.0)] + [DoSave(1)];
    PaidOne([], call);
    assert [] + [call] == [call];
    OneMore(w, ops + [DoCall(1, None, 0.0)] + [DoSave(1)], DoCall(0, None, 0.0), [c]);
    FirstPaysToo(c);
    TwoPaid(call);
  }
}
