/** infrastructure/providers/manus.py and manus_engine.py as values: the credit ledger, the discovery
    engine, and what it has asked of the remote service. Credits are reals; a key is its text, a task
    refers to its key by position. */
module Manus {
  import opened Common

  type TaskId = nat

  datatype ErrorKind = Auth | RateLimit | Capacity | Transient | Validation

  const DEFAULT_BALANCE := 300.0

  // ---------------------------------------------------------------- the ledger

  datatype Ledger = Ledger(keys: seq<string>, floor: real, balances: map<string, real>, held: map<string, real>)

  ghost predicate LedgerOk(l: Ledger) {
    && (forall i, j | 0 <= i < j < |l.keys| :: l.keys[i] != l.keys[j])
    && (forall i | 0 <= i < |l.keys| :: l.keys[i] in l.balances && l.keys[i] in l.held)
  }

  function Available(l: Ledger, k: string): real
    requires k in l.balances && k in l.held
  {
    l.balances[k] - l.held[k]
  }

  function Clamp(x: real): real { if x >= 0.0 then x else 0.0 }

  function Hold(l: Ledger, k: string, amount: real): (l': Ledger)
    requires k in l.held
    ensures LedgerOk(l) ==> LedgerOk(l')
  {
    l.(held := l.held[k := l.held[k] + amount])
  }

  function Release(l: Ledger, k: string, amount: real): Ledger
    requires k in l.held
  {
    l.(held := l.held[k := Clamp(l.held[k] - amount)])
  }

  function Charge(l: Ledger, k: string, credits: real): Ledger
    requires k in l.balances
  {
    l.(balances := l.balances[k := Clamp(l.balances[k] - credits)])
  }

  function Settle(l: Ledger, k: string, estimate: real, actual: real): Ledger
    requires k in l.balances && k in l.held
  {
    Charge(Release(l, k, estimate), k, actual)
  }

  /** max(candidates, key=available): the first of the richest. */
  function Richest(l: Ledger, candidates: seq<string>): (best: string)
    requires candidates != [] && forall k | k in candidates :: k in l.balances && k in l.held
    ensures best in candidates
    ensures forall k | k in candidates :: Available(l, k) <= Available(l, best)
  {
    var last := candidates[|candidates| - 1];
    if |candidates| == 1 then last
    else
      var best := Richest(l, candidates[..|candidates| - 1]);
      assert candidates == candidates[..|candidates| - 1] + [last];
      if Available(l, last) > Available(l, best) then last else best
  }

  /** round(x, 2): to the nearest hundredth, ties to even. */
  function Round2(x: real): real {
    var y := x * 100.0;
    var f := y.Floor;
    var d := y - f as real;
    (if d < 0.5 then f else if d > 0.5 then f + 1 else if f % 2 == 0 then f else f + 1) as real / 100.0
  }

  // ---------------------------------------------------------------- the engine

  datatype Task = Task(id: TaskId, city: string, key: nat, at: real)

  datatype Engine = Engine(
    ledger: Ledger,
    estimate: real,
    timeout: real,
    tasks: seq<Task>,           // a dict in the source: insertion order, distinct ids
    submitted: seq<string>,
    unsubmitted: seq<string>,
    retired: set<nat>,
    collected: set<TaskId>,
    failed: nat,
    timedOut: nat)

  /** One create_task call: the city, the position of the key, and the error if it failed. */
  datatype Call = Call(city: string, key: nat, error: Option<ErrorKind>)

  /** The engine, the ids the service has handed out, every create_task call so far, and the sum of
      the credits reported for tasks that were settled. */
  datatype System = System(e: Engine, minted: nat, calls: seq<Call>, reported: real)

  /** How the service answers create_task call number n; None is success. */
  type Script = nat -> Option<ErrorKind>

  ghost predicate EngineOk(e: Engine) {
    LedgerOk(e.ledger) && forall t | t in e.tasks :: t.key < |e.ledger.keys|
  }

  predicate CanPay(e: Engine, p: nat)
    requires p < |e.ledger.keys| && e.ledger.keys[p] in e.ledger.balances && e.ledger.keys[p] in e.ledger.held
  {
    p !in e.retired && Available(e.ledger, e.ledger.keys[p]) - e.estimate >= e.ledger.floor
  }

  /** `_affordable` without the keys already tried, over the keys from position `p` on. */
  function Usable(e: Engine, tried: set<string>, p: nat): (ks: seq<string>)
    requires LedgerOk(e.ledger) && p <= |e.ledger.keys|
    ensures forall k | k in ks :: k in e.ledger.keys && k !in tried
                                  && Available(e.ledger, k) - e.estimate >= e.ledger.floor
    decreases |e.ledger.keys| - p
  {
    if p == |e.ledger.keys| then []
    else if CanPay(e, p) && e.ledger.keys[p] !in tried then [e.ledger.keys[p]] + Usable(e, tried, p + 1)
    else Usable(e, tried, p + 1)
  }

  function Position(keys: seq<string>, k: string): (p: nat)
    requires k in keys
    ensures p < |keys| && keys[p] == k
  {
    if keys[0] == k then 0 else 1 + Position(keys[1..], k)
  }

  function WithoutFirst(cities: seq<string>, city: string): seq<string> {
    if cities == [] then []
    else if cities[0] == city then cities[1..]
    else [cities[0]] + WithoutFirst(cities[1..], city)
  }

  /** A failed create_task: the hold is dropped; AUTH retires the key, CAPACITY empties it. */
  function Refused(e: Engine, k: string, kind: ErrorKind): Engine
    requires LedgerOk(e.ledger) && k in e.ledger.keys
  {
    var e1 := e.(ledger := Release(e.ledger, k, e.estimate));
    match kind
    case Auth => e1.(retired := e1.retired + {Position(e.ledger.keys, k)})
    case Capacity => e1.(ledger := e1.ledger.(balances := e1.ledger.balances[k := 0.0]))
    case _ => e1
  }

  function Started(e: Engine, id: TaskId, city: string, k: string, now: real): Engine
    requires k in e.ledger.keys
  {
    e.(tasks := e.tasks + [Task(id, city, Position(e.ledger.keys, k), now)],
       submitted := e.submitted + [city],
       unsubmitted := WithoutFirst(e.unsubmitted, city))
  }

  function Untried(keys: seq<string>, tried: set<string>): set<string> {
    set k | k in keys && k !in tried
  }

  lemma OneFewerUntried(keys: seq<string>, tried: set<string>, k: string)
    requires k in keys && k !in tried
    ensures |Untried(keys, tried + {k})| < |Untried(keys, tried)|
  {
    assert Untried(keys, tried) == Untried(keys, tried + {k}) + {k};
  }

  /** Hold the estimate on `k`, call create_task, and book the outcome. */
  function Attempt(s: System, script: Script, city: string, k: string, now: real): (s': System)
    requires LedgerOk(s.e.ledger) && k in s.e.ledger.keys
    ensures LedgerOk(s'.e.ledger) && s'.e.ledger.keys == s.e.ledger.keys
  {
    var e1 := s.e.(ledger := Hold(s.e.ledger, k, s.e.estimate));
    var reply := script(|s.calls|);
    var calls := s.calls + [Call(city, Position(s.e.ledger.keys, k), reply)];
    if reply.Some? then s.(e := Refused(e1, k, reply.value), calls := calls)
    else s.(e := Started(e1, s.minted, city, k, now), minted := s.minted + 1, calls := calls)
  }

  /** The `while True` of `_submit_one`: every round takes a key that was not tried before. */
  function SubmitOne(s: System, script: Script, city: string, tried: set<string>, now: real): (r: (System, bool))
    requires LedgerOk(s.e.ledger)
    ensures LedgerOk(r.0.e.ledger) && r.0.e.ledger.keys == s.e.ledger.keys
    decreases |Untried(s.e.ledger.keys, tried)|
  {
    var usable := Usable(s.e, tried, 0);
    if usable == [] then (s, false)
    else
      var k := Richest(s.e.ledger, usable);
      var s1 := Attempt(s, script, city, k, now);
      if script(|s.calls|).None? then (s1, true)
      else
        OneFewerUntried(s.e.ledger.keys, tried, k);
        SubmitOne(s1, script, city, tried + {k}, now)
  }

  /** The loop of `submit` over the cities still to do when it began. */
  function SubmitAll(s: System, script: Script, cities: seq<string>, now: real): (s': System)
    requires LedgerOk(s.e.ledger)
    ensures LedgerOk(s'.e.ledger) && s'.e.ledger.keys == s.e.ledger.keys
    decreases |cities|
  {
    if cities == [] then s
    else
      var (s1, done) := SubmitOne(s, script, cities[0], {}, now);
      if done then SubmitAll(s1, script, cities[1..], now) else s1
  }

  function Begun(e: Engine, cities: seq<string>): Engine {
    if e.submitted == [] && e.unsubmitted == [] then e.(unsubmitted := cities) else e
  }

  function Submit(s: System, script: Script, cities: seq<string>, now: real): System
    requires LedgerOk(s.e.ledger)
  {
    var e := Begun(s.e, cities);
    SubmitAll(s.(e := e), script, e.unsubmitted, now)
  }

  predicate Exhausted(e: Engine)
    requires LedgerOk(e.ledger)
  {
    e.unsubmitted != [] && Usable(e, {}, 0) == []
  }

  // ---------------------------------------------------------------- polling

  /** What task_detail and final_answer say: the call failed, it still runs, or it has ended
      (failed, or with an answer that could or could not be fetched). */
  datatype Reply = Unreachable | Running(credits: real) | Ended(credits: real, ok: bool, answered: bool)

  function WithoutTask(tasks: seq<Task>, id: TaskId): seq<Task> {
    if tasks == [] then []
    else if tasks[0].id == id then tasks[1..]
    else [tasks[0]] + WithoutTask(tasks[1..], id)
  }

  function Settled(s: System, t: Task, credits: real): System
    requires EngineOk(s.e) && t.key < |s.e.ledger.keys|
  {
    var k := s.e.ledger.keys[t.key];
    s.(e := s.e.(ledger := Settle(s.e.ledger, k, s.e.estimate, credits)), reported := s.reported + credits)
  }

  function Abandoned(e: Engine, id: TaskId): Engine {
    e.(tasks := WithoutTask(e.tasks, id), timedOut := e.timedOut + 1)
  }

  function PollTask(s: System, t: Task, reply: Reply, now: real): System
    requires EngineOk(s.e) && t.key < |s.e.ledger.keys|
  {
    var late := now - t.at > s.e.timeout;
    match reply
    case Unreachable =>
      if late then
        s.(e := Abandoned(s.e.(ledger := Release(s.e.ledger, s.e.ledger.keys[t.key], s.e.estimate)), t.id))
      else s
    case Running(credits) =>
      if late then
        var s1 := Settled(s, t, credits);
        s1.(e := Abandoned(s1.e, t.id))
      else s
    case Ended(credits, ok, answered) =>
      var s1 := Settled(s, t, credits);
      s1.(e := s1.e.(tasks := WithoutTask(s1.e.tasks, t.id),
                     collected := s1.e.collected + {t.id},
                     failed := if ok && answered then s1.e.failed else s1.e.failed + 1))
  }

  lemma TaskFrom(tasks: seq<Task>, id: TaskId)
    ensures forall t | t in WithoutTask(tasks, id) :: t in tasks
  {
  }

  lemma PollTaskKeepsKeys(s: System, t: Task, reply: Reply, now: real)
    requires EngineOk(s.e) && t.key < |s.e.ledger.keys|
    ensures EngineOk(PollTask(s, t, reply, now).e)
    ensures PollTask(s, t, reply, now).e.ledger.keys == s.e.ledger.keys
  {
    TaskFrom(s.e.tasks, t.id);
  }

  /** The loop of `poll` over the tasks in flight when it began. */
  function PollAll(s: System, todo: seq<Task>, replies: TaskId -> Reply, now: real): System
    requires EngineOk(s.e) && forall t | t in todo :: t.key < |s.e.ledger.keys|
    decreases |todo|
  {
    if todo == [] then s
    else
      PollTaskKeepsKeys(s, todo[0], replies(todo[0].id), now);
      PollAll(PollTask(s, todo[0], replies(todo[0].id), now), todo[1..], replies, now)
  }

  function Poll(s: System, replies: TaskId -> Reply, now: real): System
    requires EngineOk(s.e)
  {
    PollAll(s, s.e.tasks, replies, now)
  }

  // ---------------------------------------------------------------- snapshot and restore

  datatype Snapshot = Snapshot(
    tasks: seq<Task>,
    submitted: seq<string>,
    unsubmitted: seq<string>,
    retired: set<nat>,
    collected: set<TaskId>,
    ledger: map<nat, real>,     // balances by key position, rounded
    failed: nat,
    timedOut: nat)

  function LedgerSnapshot(l: Ledger): map<nat, real>
    requires LedgerOk(l)
  {
    map i: nat | i < |l.keys| :: Round2(l.balances[l.keys[i]])
  }

  function StateOf(e: Engine): Snapshot
    requires LedgerOk(e.ledger)
  {
    Snapshot(e.tasks, e.submitted, e.unsubmitted, e.retired, e.collected, LedgerSnapshot(e.ledger), e.failed,
             e.timedOut)
  }

  function RestoredLedger(keys: seq<string>, floor: real, snap: map<nat, real>): Ledger {
    Ledger(keys, floor,
           map k | k in keys :: var i := Position(keys, k); if i in snap then snap[i] else DEFAULT_BALANCE,
           map k | k in keys :: 0.0)
  }

  /** The constructor holds the estimate again for every task in flight. */
  function Reheld(l: Ledger, tasks: seq<Task>, estimate: real): (l': Ledger)
    requires LedgerOk(l) && forall t | t in tasks :: t.key < |l.keys|
    ensures LedgerOk(l') && l' == l.(held := l'.held)
  {
    if tasks == [] then l
    else
      var last := tasks[|tasks| - 1];
      Hold(Reheld(l, tasks[..|tasks| - 1], estimate), l.keys[last.key], estimate)
  }

  function Restored(keys: seq<string>, floor: real, estimate: real, timeout: real, snap: Snapshot): Engine
    requires forall i, j | 0 <= i < j < |keys| :: keys[i] != keys[j]
    requires forall t | t in snap.tasks :: t.key < |keys|
  {
    Engine(Reheld(RestoredLedger(keys, floor, snap.ledger), snap.tasks, estimate), estimate, timeout,
           snap.tasks, snap.submitted, snap.unsubmitted, snap.retired, snap.collected, snap.failed, snap.timedOut)
  }

  /** A worker stops and another one starts from what it had stored. */
  function Restarted(e: Engine): Engine
    requires EngineOk(e)
  {
    Restored(e.ledger.keys, e.ledger.floor, e.estimate, e.timeout, StateOf(e))
  }
}
