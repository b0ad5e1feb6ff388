/** Runs of any number of discovery engines over one job. An attempt that has lost its lease goes on
    calling the service until its next save stops it, so engines overlap: a step is one create_task call,
    one poll of a task, one save, the start of an attempt from the snapshot, or the end of one. */
module ManusRuns {
  import opened Common
  import opened Manus
  import opened ManusProofs
  import opened ManusMoney

  /** An engine at work, and the keys it has tried for the city it is at. */
  datatype Hand = Hand(e: Engine, tried: set<string>)

  /** `hands` by the number of their attempt, `stored` the engine in the job's checkpoint. `entries` is
      history only: for which entry of the ICP each payment was, by position. */
  datatype World = World(
    hands: map<nat, Hand>,
    started: nat,
    stored: Engine,
    minted: nat,
    calls: seq<Call>,
    reported: real,
    entries: seq<nat>)

  datatype Op =
    | DoCall(k: nat, reply: Option<ErrorKind>, now: real)
    | DoPoll(k: nat, task: nat, answer: Reply, now: real)
    | DoSave(k: nat)
    | DoStart
    | DoStop(k: nat)

  function SystemOf(w: World, k: nat): System
    requires k in w.hands
  {
    System(w.hands[k].e, w.minted, w.calls, w.reported)
  }

  ghost predicate EnginesOk(w: World) {
    EngineOk(w.stored) && forall k | k in w.hands :: EngineOk(w.hands[k].e)
  }

  /** The next create_task call of hand `k`, which the service answers with `reply`; or the end of its
      `submit`, if no key is left to try. */
  function Called(w: World, k: nat, reply: Option<ErrorKind>, now: real, cities: seq<string>): World
    requires k in w.hands && EngineOk(w.hands[k].e)
  {
    var s := SystemOf(w, k).(e := Begun(w.hands[k].e, cities));
    if s.e.unsubmitted == [] then w
    else
      var usable := Usable(s.e, w.hands[k].tried, 0);
      if usable == [] then w.(hands := w.hands[k := Hand(s.e, {})])
      else
        var key := Richest(s.e.ledger, usable);
        var s' := Attempt(s, _ => reply, s.e.unsubmitted[0], key, now);
        w.(hands := w.hands[k := Hand(s'.e, if reply.None? then {} else w.hands[k].tried + {key})],
           minted := s'.minted,
           calls := s'.calls,
           entries := w.entries + (if reply.None? then [|s.e.submitted|] else []))
  }

  function Polled(w: World, k: nat, task: nat, answer: Reply, now: real): World
    requires k in w.hands && EngineOk(w.hands[k].e) && task < |w.hands[k].e.tasks|
  {
    var s := PollTask(SystemOf(w, k), w.hands[k].e.tasks[task], answer, now);
    w.(hands := w.hands[k := w.hands[k].(e := s.e)], reported := s.reported)
  }

  /** A save is fenced: it takes effect only for the attempt that started last. */
  function Step(w: World, op: Op, cities: seq<string>): World
    requires EnginesOk(w)
  {
    match op
    case DoCall(k, reply, now) => if k in w.hands then Called(w, k, reply, now, cities) else w
    case DoPoll(k, task, answer, now) =>
      if k in w.hands && task < |w.hands[k].e.tasks| then Polled(w, k, task, answer, now) else w
    case DoSave(k) => if k in w.hands && k + 1 == w.started then w.(stored := w.hands[k].e) else w
    case DoStart => w.(hands := w.hands[w.started := Hand(Restarted(w.stored), {})], started := w.started + 1)
    case DoStop(k) => w.(hands := w.hands - {k})
  }

  // ---------------------------------------------------------------- what every engine keeps

  ghost predicate WorldOk(w: World, cities: seq<string>) {
    && Inv(w.stored, w.minted, cities)
    && forall k | k in w.hands :: k < w.started && Inv(w.hands[k].e, w.minted, cities)
  }

  /** One call of one engine. */
  lemma AttemptKeepsInv(s: System, tried: set<string>, reply: Option<ErrorKind>, now: real, cities: seq<string>)
    requires Inv(s.e, s.minted, cities) && s.e.unsubmitted != [] && Usable(s.e, tried, 0) != []
    ensures var key := Richest(s.e.ledger, Usable(s.e, tried, 0));
            var s' := Attempt(s, _ => reply, s.e.unsubmitted[0], key, now);
            && Inv(s'.e, s'.minted, cities) && s.minted <= s'.minted
            && s'.e.submitted == s.e.submitted + (if reply.None? then [s.e.unsubmitted[0]] else [])
  {
    var key := Richest(s.e.ledger, Usable(s.e, tried, 0));
    if reply.None? {
      StartedKeepsInv(s, _ => reply, key, now, cities);
    } else {
      RefusedKeepsInv(s, _ => reply, key, now, cities);
    }
  }

  lemma CalledKeepsInv(w: World, k: nat, reply: Option<ErrorKind>, now: real, cities: seq<string>)
    requires WorldOk(w, cities) && k in w.hands
    ensures var w' := Called(w, k, reply, now, cities);
            && k in w'.hands && Inv(w'.hands[k].e, w'.minted, cities) && w.minted <= w'.minted
            && w'.hands == w.hands[k := w'.hands[k]]
  {
    var s := SystemOf(w, k).(e := Begun(w.hands[k].e, cities));
    BegunKeepsInv(w.hands[k].e, w.minted, cities);
    if s.e.unsubmitted != [] && Usable(s.e, w.hands[k].tried, 0) != [] {
      AttemptKeepsInv(s, w.hands[k].tried, reply, now, cities);
    }
    assert w.hands == w.hands[k := w.hands[k]];
  }

  lemma BegunKeepsInv(e: Engine, minted: nat, cities: seq<string>)
    requires Inv(e, minted, cities)
    ensures Inv(Begun(e, cities), minted, cities)
  {
  }

  lemma OneHandKeepsOk(w: World, w': World, k: nat, cities: seq<string>)
    requires WorldOk(w, cities) && k in w.hands && k in w'.hands
    requires w'.hands == w.hands[k := w'.hands[k]] && w'.stored == w.stored && w'.started == w.started
    requires Inv(w'.hands[k].e, w'.minted, cities) && w.minted <= w'.minted
    ensures WorldOk(w', cities)
  {
    MoreMinted(w.stored, w.minted, w'.minted, cities);
    forall j | j in w'.hands ensures j < w'.started && Inv(w'.hands[j].e, w'.minted, cities) {
      if j != k {
        MoreMinted(w.hands[j].e, w.minted, w'.minted, cities);
      }
    }
  }

  lemma PolledKeepsOk(w: World, k: nat, task: nat, answer: Reply, now: real, cities: seq<string>)
    requires WorldOk(w, cities) && k in w.hands && task < |w.hands[k].e.tasks|
    ensures WorldOk(Polled(w, k, task, answer, now), cities)
  {
    PollTaskKeepsInv(SystemOf(w, k), task, answer, now, cities);
    OneHandKeepsOk(w, Polled(w, k, task, answer, now), k, cities);
  }

  lemma CalledKeepsOk(w: World, k: nat, reply: Option<ErrorKind>, now: real, cities: seq<string>)
    requires WorldOk(w, cities) && k in w.hands
    ensures WorldOk(Called(w, k, reply, now, cities), cities)
  {
    CalledKeepsInv(w, k, reply, now, cities);
    OneHandKeepsOk(w, Called(w, k, reply, now, cities), k, cities);
  }

  lemma StepKeepsInv(w: World, op: Op, cities: seq<string>)
    requires WorldOk(w, cities)
    ensures WorldOk(Step(w, op, cities), cities)
  {
    match op
    case DoCall(k, reply, now) =>
      if k in w.hands {
        CalledKeepsOk(w, k, reply, now, cities);
      }
    case DoPoll(k, task, answer, now) =>
      if k in w.hands && task < |w.hands[k].e.tasks| {
        PolledKeepsOk(w, k, task, answer, now, cities);
      }
    case DoSave(k) =>
    case DoStart => StartKeepsOk(w, cities);
    case DoStop(k) =>
  }

  lemma StartKeepsOk(w: World, cities: seq<string>)
    requires WorldOk(w, cities)
    ensures WorldOk(Step(w, DoStart, cities), cities)
  {
    RestartKeepsInv(w.stored, w.minted, cities);
  }

  function Run(w: World, ops: seq<Op>, cities: seq<string>): (w': World)
    requires WorldOk(w, cities)
    ensures WorldOk(w', cities)
  {
    if ops == [] then w
    else
      var w1 := Run(w, ops[..|ops| - 1], cities);
      StepKeepsInv(w1, ops[|ops| - 1], cities);
      Step(w1, ops[|ops| - 1], cities)
  }

  /** Before the first attempt: nothing stored, nothing called. */
  function NewWorld(engine: Engine): World {
    World(map[], 0, engine, 0, [], 0.0, [])
  }

  // ---------------------------------------------------------------- a submit is a run of calls

  lemma {:induction false} RunConcat(w: World, a: seq<Op>, b: seq<Op>, cities: seq<string>)
    requires WorldOk(w, cities)
    ensures Run(w, a + b, cities) == Run(Run(w, a, cities), b, cities)
  {
    if b == [] {
      assert a + b == a;
    } else {
      assert (a + b)[..|a + b| - 1] == a + b[..|b| - 1];
      RunConcat(w, a, b[..|b| - 1], cities);
    }
  }

  /** Hand `k` after `s` has happened to its engine, with the entries of the ICP it has paid for. */
  function Handed(w: World, k: nat, s: System, entries: seq<nat>): World {
    w.(hands := w.hands[k := Hand(s.e, {})], minted := s.minted, calls := s.calls, entries := w.entries + entries)
  }

  lemma OneCall(w: World, op: Op, cities: seq<string>)
    requires WorldOk(w, cities)
    ensures Run(w, [op], cities) == Step(w, op, cities)
  {
    assert [op][..0] == [];
  }

  /** A call that is refused. */
  lemma RefusedCall(w: World, k: nat, kind: ErrorKind, now: real, cities: seq<string>)
    requires WorldOk(w, cities) && k in w.hands && w.hands[k].e.unsubmitted != []
    requires Usable(w.hands[k].e, w.hands[k].tried, 0) != []
    ensures var e := w.hands[k].e;
            var key := Richest(e.ledger, Usable(e, w.hands[k].tried, 0));
            var s' := Attempt(SystemOf(w, k), _ => Some(kind), e.unsubmitted[0], key, now);
            && Called(w, k, Some(kind), now, cities)
               == w.(hands := w.hands[k := Hand(s'.e, w.hands[k].tried + {key})], minted := s'.minted,
                     calls := s'.calls)
            && s'.minted == w.minted && s'.reported == w.reported
            && s'.e.submitted == e.submitted && s'.e.unsubmitted == e.unsubmitted
  {
    var e := w.hands[k].e;
    var key := Richest(e.ledger, Usable(e, w.hands[k].tried, 0));
    assert Begun(e, cities) == e && SystemOf(w, k).(e := e) == SystemOf(w, k);
    RefusedKeepsInv(SystemOf(w, k), _ => Some(kind), key, now, cities);
    assert w.entries + [] == w.entries;
  }

  lemma AttemptByReply(s: System, script: Script, reply: Option<ErrorKind>, city: string, key: string, now: real)
    requires LedgerOk(s.e.ledger) && key in s.e.ledger.keys && script(|s.calls|) == reply
    ensures Attempt(s, script, city, key, now) == Attempt(s, _ => reply, city, key, now)
  {
  }

  /** The last call of a round: accepted, or none left to make. */
  lemma LastCall(w: World, k: nat, script: Script, now: real, cities: seq<string>)
    requires WorldOk(w, cities) && k in w.hands && w.hands[k].e.unsubmitted != []
    requires Usable(w.hands[k].e, w.hands[k].tried, 0) == [] || script(|w.calls|).None?
    ensures var e := w.hands[k].e;
            var (s', done) := SubmitOne(SystemOf(w, k), script, e.unsubmitted[0], w.hands[k].tried, now);
            Called(w, k, script(|w.calls|), now, cities) == Handed(w, k, s', if done then [|e.submitted|] else [])
  {
    var e := w.hands[k].e;
    assert Begun(e, cities) == e && SystemOf(w, k).(e := e) == SystemOf(w, k);
    assert w.entries + [] == w.entries;
    var usable := Usable(e, w.hands[k].tried, 0);
    if usable != [] {
      AttemptByReply(SystemOf(w, k), script, None, e.unsubmitted[0], Richest(e.ledger, usable), now);
    }
  }

  /** A refused round leaves the rest of `_submit_one` to do, with one key less to try. */
  lemma RefusedRound(w: World, k: nat, script: Script, now: real, cities: seq<string>)
    requires WorldOk(w, cities) && k in w.hands && w.hands[k].e.unsubmitted != []
    requires Usable(w.hands[k].e, w.hands[k].tried, 0) != [] && script(|w.calls|).Some?
    ensures var e := w.hands[k].e;
            var w1 := Called(w, k, script(|w.calls|), now, cities);
            && WorldOk(w1, cities) && k in w1.hands
            && w1.hands[k].e.submitted == e.submitted && w1.hands[k].e.unsubmitted == e.unsubmitted
            && |Untried(w1.hands[k].e.ledger.keys, w1.hands[k].tried)| < |Untried(e.ledger.keys, w.hands[k].tried)|
            && SubmitOne(SystemOf(w, k), script, e.unsubmitted[0], w.hands[k].tried, now)
               == SubmitOne(SystemOf(w1, k), script, e.unsubmitted[0], w1.hands[k].tried, now)
            && forall s, entries :: Handed(w1, k, s, entries) == Handed(w, k, s, entries)
  {
    var e, tried := w.hands[k].e, w.hands[k].tried;
    var reply := script(|w.calls|);
    var key := Richest(e.ledger, Usable(e, tried, 0));
    RefusedCall(w, k, reply.value, now, cities);
    AttemptByReply(SystemOf(w, k), script, reply, e.unsubmitted[0], key, now);
    CalledKeepsOk(w, k, reply, now, cities);
    OneFewerUntried(e.ledger.keys, tried, key);
    HandedOver(w, Called(w, k, reply, now, cities), k);
  }

  /** The `while True` of `_submit_one` is a run of calls. */
  lemma {:induction false} SubmitOneIsARun(w: World, k: nat, script: Script, now: real, cities: seq<string>)
    returns (ops: seq<Op>)
    requires WorldOk(w, cities) && k in w.hands && w.hands[k].e.unsubmitted != []
    ensures var e := w.hands[k].e;
            var (s', done) := SubmitOne(SystemOf(w, k), script, e.unsubmitted[0], w.hands[k].tried, now);
            Run(w, ops, cities) == Handed(w, k, s', if done then [|e.submitted|] else [])
    decreases |Untried(w.hands[k].e.ledger.keys, w.hands[k].tried)|
  {
    var op := DoCall(k, script(|w.calls|), now);
    OneCall(w, op, cities);
    ops := [op];
    if Usable(w.hands[k].e, w.hands[k].tried, 0) == [] || script(|w.calls|).None? {
      LastCall(w, k, script, now, cities);
    } else {
      RefusedRound(w, k, script, now, cities);
      var more := SubmitOneIsARun(Step(w, op, cities), k, script, now, cities);
      RunConcat(w, [op], more, cities);
      ops := [op] + more;
    }
  }

  /** What happens to the hand afterwards does not care what it was. */
  lemma HandedOver(w: World, w1: World, k: nat)
    requires w1.hands.Keys == w.hands.Keys + {k} && forall j | j in w.hands && j != k :: w1.hands[j] == w.hands[j]
    requires w1.started == w.started && w1.stored == w.stored && w1.reported == w.reported && w1.entries == w.entries
    ensures forall s, entries :: Handed(w1, k, s, entries) == Handed(w, k, s, entries)
  {
    forall s: System, entries ensures Handed(w1, k, s, entries) == Handed(w, k, s, entries) {
      assert w1.hands[k := Hand(s.e, {})] == w.hands[k := Hand(s.e, {})];
    }
  }

  /** The first of the cities, and what is left to do after it. */
  lemma FirstCityIsARun(w: World, k: nat, script: Script, now: real, cities: seq<string>)
    returns (ops: seq<Op>, s1: System, done: bool, w1: World)
    requires WorldOk(w, cities) && k in w.hands && w.hands[k].tried == {} && w.hands[k].e.unsubmitted != []
    ensures LedgerOk(s1.e.ledger) && EngineOk(w.hands[k].e)
    ensures SubmitAll(SystemOf(w, k), script, w.hands[k].e.unsubmitted, now)
            == if done then SubmitAll(s1, script, s1.e.unsubmitted, now) else s1
    ensures w1 == Handed(w, k, s1, if done then [|w.hands[k].e.submitted|] else [])
    ensures Run(w, ops, cities) == w1 && WorldOk(w1, cities)
    ensures done ==> SystemOf(w1, k) == s1 && |s1.e.unsubmitted| < |w.hands[k].e.unsubmitted|
  {
    var e := w.hands[k].e;
    ops := SubmitOneIsARun(w, k, script, now, cities);
    var (s', done') := SubmitOne(SystemOf(w, k), script, e.unsubmitted[0], {}, now);
    s1, done := s', done';
    assert SubmitAll(SystemOf(w, k), script, e.unsubmitted, now)
        == if done then SubmitAll(s1, script, e.unsubmitted[1..], now) else s1;
    w1 := Handed(w, k, s1, if done then [|e.submitted|] else []);
    SubmitOneKeepsInv(SystemOf(w, k), script, {}, now, cities);
    SubmitOneReports(SystemOf(w, k), script, e.unsubmitted[0], {}, now);
  }

  /** So a whole `submit`, uninterrupted, is a run of calls of one hand. */
  lemma {:induction false} SubmitAllIsARun(w: World, k: nat, script: Script, now: real, cities: seq<string>)
    returns (ops: seq<Op>, entries: seq<nat>)
    requires WorldOk(w, cities) && k in w.hands && w.hands[k].tried == {}
    ensures Run(w, ops, cities)
            == Handed(w, k, SubmitAll(SystemOf(w, k), script, w.hands[k].e.unsubmitted, now), entries)
    decreases |w.hands[k].e.unsubmitted|
  {
    if w.hands[k].e.unsubmitted == [] {
      ops, entries := [], [];
      HandedAsIs(w, k);
    } else {
      var s1, done, w1;
      ops, s1, done, w1 := FirstCityIsARun(w, k, script, now, cities);
      entries := if done then [|w.hands[k].e.submitted|] else [];
      if done {
        var more, rest := SubmitAllIsARun(w1, k, script, now, cities);
        AndThen(w, k, ops, s1, entries, more, SubmitAll(s1, script, s1.e.unsubmitted, now), rest, cities);
        ops, entries := ops + more, entries + rest;
      }
    }
  }

  lemma HandedAsIs(w: World, k: nat)
    requires k in w.hands && w.hands[k].tried == {}
    ensures Handed(w, k, SystemOf(w, k), []) == w
  {
    assert w.hands[k := w.hands[k]] == w.hands && w.entries + [] == w.entries;
  }

  lemma AndThen(w: World, k: nat, ops: seq<Op>, s1: System, first: seq<nat>, more: seq<Op>, s2: System, rest: seq<nat>,
                cities: seq<string>)
    requires WorldOk(w, cities) && Run(w, ops, cities) == Handed(w, k, s1, first)
    requires Run(Handed(w, k, s1, first), more, cities) == Handed(Handed(w, k, s1, first), k, s2, rest)
    ensures Run(w, ops + more, cities) == Handed(w, k, s2, first + rest)
  {
    RunConcat(w, ops, more, cities);
    HandedTwice(w, k, s1, first, s2, rest);
  }

  lemma HandedTwice(w: World, k: nat, s1: System, first: seq<nat>, s2: System, rest: seq<nat>)
    ensures Handed(Handed(w, k, s1, first), k, s2, rest) == Handed(w, k, s2, first + rest)
  {
    var w1 := Handed(w, k, s1, first);
    assert w1.hands[k := Hand(s2.e, {})] == w.hands[k := Hand(s2.e, {})];
    assert w1.entries + rest == w.entries + (first + rest);
  }

  lemma {:induction false} SubmitOneReports(s: System, script: Script, city: string, tried: set<string>, now: real)
    requires LedgerOk(s.e.ledger)
    ensures SubmitOne(s, script, city, tried, now).0.reported == s.reported
    decreases |Untried(s.e.ledger.keys, tried)|
  {
    var usable := Usable(s.e, tried, 0);
    if usable != [] && script(|s.calls|).Some? {
      var key := Richest(s.e.ledger, usable);
      OneFewerUntried(s.e.ledger.keys, tried, key);
      SubmitOneReports(Attempt(s, script, city, key, now), script, city, tried + {key}, now);
    }
  }

  /** And a whole `poll` is a run of polls of one hand's tasks. `kept` tasks have been looked at and stay. */
  lemma {:induction false} PollAllIsARun(w: World, k: nat, kept: nat, replies: TaskId -> Reply, now: real,
                                         cities: seq<string>)
    returns (ops: seq<Op>)
    requires WorldOk(w, cities) && k in w.hands && kept <= |w.hands[k].e.tasks|
    ensures var s := PollAll(SystemOf(w, k), w.hands[k].e.tasks[kept..], replies, now);
            Run(w, ops, cities) == PolledTo(w, k, s)
    decreases |w.hands[k].e.tasks| - kept
  {
    var tasks := w.hands[k].e.tasks;
    if kept == |tasks| {
      ops := [];
      assert w.hands[k := w.hands[k]] == w.hands;
    } else {
      var answer := replies(tasks[kept].id);
      var op := DoPoll(k, kept, answer, now);
      OneCall(w, op, cities);
      PolledKeepsOk(w, k, kept, answer, now, cities);
      var w1 := Polled(w, k, kept, answer, now);
      PollTaskKeepsInv(SystemOf(w, k), kept, answer, now, cities);
      var kept1 := if w1.hands[k].e.tasks == tasks then kept + 1 else kept;
      assert w1.hands[k].e.tasks[kept1..] == tasks[kept..][1..];
      assert SystemOf(w1, k) == PollTask(SystemOf(w, k), tasks[kept], answer, now);
      var more := PollAllIsARun(w1, k, kept1, replies, now, cities);
      RunConcat(w, [op], more, cities);
      ops := [op] + more;
      PolledTwice(w, w1, k);
    }
  }

  function PolledTo(w: World, k: nat, s: System): World
    requires k in w.hands
  {
    w.(hands := w.hands[k := w.hands[k].(e := s.e)], reported := s.reported)
  }

  lemma PolledTwice(w: World, w1: World, k: nat)
    requires k in w.hands && k in w1.hands && w1.hands[k].tried == w.hands[k].tried
    requires w1 == w.(hands := w.hands[k := w1.hands[k]], reported := w1.reported)
    ensures forall s :: PolledTo(w1, k, s) == PolledTo(w, k, s)
  {
    forall s ensures PolledTo(w1, k, s) == PolledTo(w, k, s) {
      assert w1.hands[k := w1.hands[k].(e := s.e)] == w.hands[k := w.hands[k].(e := s.e)];
    }
  }
}
