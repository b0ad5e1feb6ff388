/** What the discovery engine does with one task, one poll and one refusal, said on its columns. */
module ManusLaws {
  import opened Common
  import opened Manus
  import opened ManusProofs
  import opened ManusRuns

  // ---------------------------------------------------------------- the deadline

  predicate DistinctIds(tasks: seq<Task>) {
    forall i, j | 0 <= i < j < |tasks| :: tasks[i].id != tasks[j].id
  }

  function NotBelowZero(x: real): real {
    if x < 0.0 then 0.0 else x
  }

  /** The engine after one task has left it: its hold is dropped and, if it is charged, its credits taken. */
  ghost predicate Left(s: System, s': System, i: nat, charged: Option<real>)
    requires EngineOk(s.e) && EngineOk(s'.e) && i < |s.e.tasks|
  {
    var k := s.e.ledger.keys[s.e.tasks[i].key];
    var l, l' := s.e.ledger, s'.e.ledger;
    && s'.e.tasks == s.e.tasks[..i] + s.e.tasks[i + 1..]
    && l' == l.(held := l.held[k := NotBelowZero(l.held[k] - s.e.estimate)], balances := l'.balances)
    && l'.balances == (if charged.Some? then l.balances[k := NotBelowZero(l.balances[k] - charged.value)]
                       else l.balances)
    && s'.reported == s.reported + (if charged.Some? then charged.value else 0.0)
  }

  /** A task that has not ended is left alone up to its deadline and abandoned after it, charged exactly if
      the service could still say what it has cost. */
  lemma DeadlineIsKept(s: System, i: nat, reply: Reply, now: real)
    requires EngineOk(s.e) && i < |s.e.tasks| && DistinctIds(s.e.tasks) && !reply.Ended?
    ensures var t, s' := s.e.tasks[i], PollTask(s, s.e.tasks[i], reply, now);
            && (now - t.at <= s.e.timeout ==> s' == s)
            && (now - t.at > s.e.timeout ==>
                  && EngineOk(s'.e) && Left(s, s', i, if reply.Running? then Some(reply.credits) else None)
                  && s'.e == s.e.(tasks := s'.e.tasks, ledger := s'.e.ledger, timedOut := s.e.timedOut + 1)
                  && s'.minted == s.minted && s'.calls == s.calls)
  {
    WithoutTaskAt(s.e.tasks, i);
    PollTaskKeepsKeys(s, s.e.tasks[i], reply, now);
    assert s.e.ledger.balances == s.e.ledger.balances;
  }

  /** A task that has ended is collected and charged, early or late, and counted as failed unless it
      succeeded and its answer was read. */
  lemma EndedIsCollected(s: System, i: nat, reply: Reply, now: real)
    requires EngineOk(s.e) && i < |s.e.tasks| && DistinctIds(s.e.tasks) && reply.Ended?
    ensures var t, s' := s.e.tasks[i], PollTask(s, s.e.tasks[i], reply, now);
            && EngineOk(s'.e) && Left(s, s', i, Some(reply.credits))
            && s'.e == s.e.(tasks := s'.e.tasks, ledger := s'.e.ledger, collected := s.e.collected + {t.id},
                            failed := s.e.failed + (if reply.ok && reply.answered then 0 else 1))
            && s'.minted == s.minted && s'.calls == s.calls
  {
    WithoutTaskAt(s.e.tasks, i);
    PollTaskKeepsKeys(s, s.e.tasks[i], reply, now);
  }

  // ---------------------------------------------------------------- a whole poll

  predicate Stays(t: Task, reply: Reply, timeout: real, now: real) {
    !reply.Ended? && now - t.at <= timeout
  }

  predicate Overdue(t: Task, reply: Reply, timeout: real, now: real) {
    !reply.Ended? && now - t.at > timeout
  }

  /** The tasks still in flight after a poll, in their order. */
  function Staying(tasks: seq<Task>, replies: TaskId -> Reply, timeout: real, now: real): (r: seq<Task>)
    ensures forall t :: t in r <==> t in tasks && Stays(t, replies(t.id), timeout, now)
  {
    if tasks == [] then []
    else (if Stays(tasks[0], replies(tasks[0].id), timeout, now) then [tasks[0]] else [])
         + Staying(tasks[1..], replies, timeout, now)
  }

  function CountOverdue(tasks: seq<Task>, replies: TaskId -> Reply, timeout: real, now: real): nat {
    if tasks == [] then 0
    else (if Overdue(tasks[0], replies(tasks[0].id), timeout, now) then 1 else 0)
         + CountOverdue(tasks[1..], replies, timeout, now)
  }

  function CountFailed(tasks: seq<Task>, replies: TaskId -> Reply): nat {
    if tasks == [] then 0
    else
      var reply := replies(tasks[0].id);
      (if reply.Ended? && !(reply.ok && reply.answered) then 1 else 0) + CountFailed(tasks[1..], replies)
  }

  function Ends(tasks: seq<Task>, replies: TaskId -> Reply): set<TaskId> {
    set t | t in tasks && replies(t.id).Ended? :: t.id
  }

  /** What a poll of `tasks` makes of an engine that has looked at the tasks `kept` before. */
  ghost predicate PolledEngine(e: Engine, e': Engine, kept: seq<Task>, tasks: seq<Task>, replies: TaskId -> Reply,
                               now: real)
  {
    && e'.tasks == kept + Staying(tasks, replies, e.timeout, now)
    && e'.timedOut == e.timedOut + CountOverdue(tasks, replies, e.timeout, now)
    && e'.failed == e.failed + CountFailed(tasks, replies)
    && e'.collected == e.collected + Ends(tasks, replies)
    && e' == e.(ledger := e'.ledger, tasks := e'.tasks, timedOut := e'.timedOut, failed := e'.failed,
                collected := e'.collected)
  }

  /** The same of its task number `i` alone. */
  ghost predicate OnePolled(e: Engine, e': Engine, i: nat, reply: Reply, now: real)
    requires i < |e.tasks|
  {
    var t := e.tasks[i];
    && e'.tasks == e.tasks[..i] + (if Stays(t, reply, e.timeout, now) then [t] else []) + e.tasks[i + 1..]
    && e'.timedOut == e.timedOut + (if Overdue(t, reply, e.timeout, now) then 1 else 0)
    && e'.failed == e.failed + (if reply.Ended? && !(reply.ok && reply.answered) then 1 else 0)
    && e'.collected == e.collected + (if reply.Ended? then {t.id} else {})
    && e' == e.(ledger := e'.ledger, tasks := e'.tasks, timedOut := e'.timedOut, failed := e'.failed,
                collected := e'.collected)
  }

  lemma TaskIsPolled(s: System, i: nat, reply: Reply, now: real)
    requires EngineOk(s.e) && DistinctIds(s.e.tasks) && i < |s.e.tasks|
    ensures OnePolled(s.e, PollTask(s, s.e.tasks[i], reply, now).e, i, reply, now)
    ensures EngineOk(PollTask(s, s.e.tasks[i], reply, now).e)
  {
    assert s.e.tasks[..i] + [s.e.tasks[i]] + s.e.tasks[i + 1..] == s.e.tasks;
    assert s.e.tasks[..i] + [] + s.e.tasks[i + 1..] == s.e.tasks[..i] + s.e.tasks[i + 1..];
    if reply.Ended? {
      EndedIsCollected(s, i, reply, now);
    } else {
      DeadlineIsKept(s, i, reply, now);
      assert s.e.collected + {} == s.e.collected;
    }
  }

  /** Where the loop goes on. */
  function KeptAfter(e: Engine, i: nat, reply: Reply, now: real): nat
    requires i < |e.tasks|
  {
    if Stays(e.tasks[i], reply, e.timeout, now) then i + 1 else i
  }

  lemma RestToPoll(e: Engine, e1: Engine, i: nat, reply: Reply, now: real)
    requires i < |e.tasks| && OnePolled(e, e1, i, reply, now) && DistinctIds(e.tasks)
    ensures var kept := KeptAfter(e, i, reply, now);
            && kept <= |e1.tasks| && DistinctIds(e1.tasks) && e1.tasks[kept..] == e.tasks[i + 1..]
            && e1.tasks[..kept] == e.tasks[..i] + (if kept > i then [e.tasks[i]] else [])
  {
    assert e.tasks == e.tasks[..i] + [e.tasks[i]] + e.tasks[i + 1..];
  }

  lemma TallyOneMore(tasks: seq<Task>, replies: TaskId -> Reply, timeout: real, now: real)
    requires tasks != []
    ensures var t, rest := tasks[0], tasks[1..];
            var reply := replies(t.id);
            && Staying(tasks, replies, timeout, now)
               == (if Stays(t, reply, timeout, now) then [t] else []) + Staying(rest, replies, timeout, now)
            && CountOverdue(tasks, replies, timeout, now)
               == (if Overdue(t, reply, timeout, now) then 1 else 0) + CountOverdue(rest, replies, timeout, now)
            && CountFailed(tasks, replies)
               == (if reply.Ended? && !(reply.ok && reply.answered) then 1 else 0) + CountFailed(rest, replies)
            && Ends(tasks, replies) == (if reply.Ended? then {t.id} else {}) + Ends(rest, replies)
  {
    EndsOneMore(tasks, replies);
  }

  lemma Associates<T>(a: seq<T>, b: seq<T>, c: seq<T>)
    ensures a + b + c == a + (b + c)
  {
  }

  /** A first task, and then the rest, is all of them. */
  lemma OneThenRest(e: Engine, e1: Engine, e2: Engine, before: seq<Task>, kept: seq<Task>, tasks: seq<Task>,
                    replies: TaskId -> Reply, now: real)
    requires tasks != [] && |before| < |e.tasks| && e.tasks[|before|] == tasks[0]
    requires OnePolled(e, e1, |before|, replies(tasks[0].id), now)
    requires kept == before + (if Stays(tasks[0], replies(tasks[0].id), e.timeout, now) then [tasks[0]] else [])
    requires PolledEngine(e1, e2, kept, tasks[1..], replies, now)
    ensures PolledEngine(e, e2, before, tasks, replies, now)
  {
    TallyOneMore(tasks, replies, e.timeout, now);
    Associates(before, if Stays(tasks[0], replies(tasks[0].id), e.timeout, now) then [tasks[0]] else [],
               Staying(tasks[1..], replies, e.timeout, now));
  }

  lemma {:induction false} PollRest(s: System, kept: nat, replies: TaskId -> Reply, now: real)
    requires EngineOk(s.e) && DistinctIds(s.e.tasks) && kept <= |s.e.tasks|
    ensures PolledEngine(s.e, PollAll(s, s.e.tasks[kept..], replies, now).e, s.e.tasks[..kept], s.e.tasks[kept..],
                         replies, now)
    decreases |s.e.tasks| - kept
  {
    if kept == |s.e.tasks| {
      NoneToPoll(s, replies, now);
    } else {
      var t := s.e.tasks[kept];
      var reply := replies(t.id);
      var s1 := PollTask(s, t, reply, now);
      TaskIsPolled(s, kept, reply, now);
      RestToPoll(s.e, s1.e, kept, reply, now);
      var kept1 := KeptAfter(s.e, kept, reply, now);
      PollRest(s1, kept1, replies, now);
      assert s.e.tasks[kept..][0] == t && s.e.tasks[kept..][1..] == s1.e.tasks[kept1..];
      OneThenRest(s.e, s1.e, PollAll(s1, s1.e.tasks[kept1..], replies, now).e, s.e.tasks[..kept],
                  s1.e.tasks[..kept1], s.e.tasks[kept..], replies, now);
    }
  }

  lemma NoneToPoll(s: System, replies: TaskId -> Reply, now: real)
    requires EngineOk(s.e)
    ensures var n := |s.e.tasks|;
            && s.e.tasks[n..] == []
            && PolledEngine(s.e, PollAll(s, s.e.tasks[n..], replies, now).e, s.e.tasks[..n], s.e.tasks[n..], replies,
                            now)
  {
    assert s.e.tasks[..|s.e.tasks|] + [] == s.e.tasks;
    assert s.e.collected + {} == s.e.collected;
  }

  lemma EndsOneMore(tasks: seq<Task>, replies: TaskId -> Reply)
    requires tasks != []
    ensures Ends(tasks, replies)
            == (if replies(tasks[0].id).Ended? then {tasks[0].id} else {}) + Ends(tasks[1..], replies)
  {
    assert tasks == [tasks[0]] + tasks[1..];
  }

  /** After a whole poll exactly the tasks that have not ended and are within their deadline are still in
      flight, in their order; those that had ended are collected; the others are counted as timed out. */
  lemma PollKeepsDeadlines(s: System, replies: TaskId -> Reply, now: real)
    requires EngineOk(s.e) && DistinctIds(s.e.tasks)
    ensures PolledEngine(s.e, Poll(s, replies, now).e, [], s.e.tasks, replies, now)
  {
    assert s.e.tasks[0..] == s.e.tasks && s.e.tasks[..0] == [];
    PollRest(s, 0, replies, now);
  }

  // ---------------------------------------------------------------- which keys pay

  /** Exactly the keys that are not retired and not tried, and whose balance pays for one more task on top
      of those in flight without going below the floor. */
  lemma {:induction false} UsableMeans(e: Engine, tried: set<string>, from: nat, k: string)
    requires LedgerOk(e.ledger) && from <= |e.ledger.keys|
    ensures k in Usable(e, tried, from) <==>
              exists p | from <= p < |e.ledger.keys| ::
                && e.ledger.keys[p] == k && p !in e.retired && k !in tried
                && e.ledger.balances[k] - e.ledger.held[k] - e.estimate >= e.ledger.floor
    decreases |e.ledger.keys| - from
  {
    if from < |e.ledger.keys| {
      UsableMeans(e, tried, from + 1, k);
    }
  }

  /** Of equally rich keys the first is taken. */
  lemma {:induction false} RichestIsFirst(l: Ledger, candidates: seq<string>) returns (i: nat)
    requires candidates != [] && forall k | k in candidates :: k in l.balances && k in l.held
    ensures i < |candidates| && Richest(l, candidates) == candidates[i]
    ensures forall j | 0 <= j < i ::
              l.balances[candidates[j]] - l.held[candidates[j]] < l.balances[candidates[i]] - l.held[candidates[i]]
    ensures forall j | i <= j < |candidates| ::
              l.balances[candidates[j]] - l.held[candidates[j]] <= l.balances[candidates[i]] - l.held[candidates[i]]
  {
    if |candidates| == 1 {
      i := 0;
    } else {
      var before, last := candidates[..|candidates| - 1], candidates[|candidates| - 1];
      assert forall k | k in before :: k in candidates;
      i := RichestIsFirst(l, before);
      assert forall j | 0 <= j < |before| :: before[j] == candidates[j];
      if Available(l, last) > Available(l, before[i]) {
        i := |candidates| - 1;
      }
    }
  }

  // ---------------------------------------------------------------- refusals

  /** A call that is refused costs nothing and starts nothing. AUTH retires the key, CAPACITY empties it;
      any other error leaves no trace in the engine at all. */
  lemma RefusalMeans(e: Engine, k: string, kind: ErrorKind)
    requires LedgerOk(e.ledger) && k in e.ledger.keys && e.estimate >= 0.0 && e.ledger.held[k] >= 0.0
    ensures var e' := Refused(e.(ledger := Hold(e.ledger, k, e.estimate)), k, kind);
            && (kind == Auth ==>
                  e' == e.(retired := e'.retired)
                  && forall p: nat | p < |e.ledger.keys| ::
                       p in e'.retired <==> p in e.retired || e.ledger.keys[p] == k)
            && (kind == Capacity ==> e' == e.(ledger := e.ledger.(balances := e.ledger.balances[k := 0.0])))
            && (kind != Auth && kind != Capacity ==> e' == e)
  {
    var held := e.ledger.held;
    assert held[k := held[k] + e.estimate][k := held[k]] == held;
  }

  /** Hand `k` does not use the key at position `p` again. */
  ghost predicate Retired(w: World, k: nat, p: nat) {
    k in w.hands ==> p in w.hands[k].e.retired
  }

  /** No call goes to a key that is retired, or that the call would take below the floor. */
  lemma CallIsCovered(e: Engine, tried: set<string>)
    requires EngineOk(e) && Usable(e, tried, 0) != []
    ensures var key := Richest(e.ledger, Usable(e, tried, 0));
            && key in e.ledger.keys && key !in tried && Position(e.ledger.keys, key) !in e.retired
            && e.ledger.balances[key] - e.ledger.held[key] - e.estimate >= e.ledger.floor
  {
    var key := Richest(e.ledger, Usable(e, tried, 0));
    UsableMeans(e, tried, 0, key);
    assert e.ledger.keys[Position(e.ledger.keys, key)] == key;
  }

  lemma CallSparesRetired(w: World, k: nat, reply: Option<ErrorKind>, now: real, cities: seq<string>, p: nat)
    requires EnginesOk(w) && k in w.hands && Retired(w, k, p)
    ensures var w' := Called(w, k, reply, now, cities);
            && Retired(w', k, p) && w.calls <= w'.calls && w'.started == w.started
            && forall i | |w.calls| <= i < |w'.calls| :: w'.calls[i].key != p
  {
    var e, tried := Begun(w.hands[k].e, cities), w.hands[k].tried;
    if e.unsubmitted != [] && Usable(e, tried, 0) != [] {
      CallIsCovered(e, tried);
    }
  }

  lemma StepSparesRetired(w: World, op: Op, cities: seq<string>, k: nat, p: nat)
    requires WorldOk(w, cities) && k < w.started && Retired(w, k, p)
    ensures k < Step(w, op, cities).started && Retired(Step(w, op, cities), k, p)
  {
    match op
    case DoCall(j, reply, now) =>
      if j == k && k in w.hands {
        CallSparesRetired(w, k, reply, now, cities, p);
      }
    case DoPoll(j, task, answer, now) =>
      if j == k && k in w.hands && task < |w.hands[k].e.tasks| {
        PollKeepsRetired(SystemOf(w, k), w.hands[k].e.tasks[task], answer, now);
      }
    case DoSave(_) =>
    case DoStart =>
    case DoStop(_) =>
  }

  /** A key that was refused for AUTH, or retired in any other way, is never called again by that engine
      (`CallSparesRetired`), whatever is called and polled in between. */
  lemma {:induction false} RetiredForGood(w: World, ops: seq<Op>, cities: seq<string>, k: nat, p: nat)
    requires WorldOk(w, cities) && k < w.started && Retired(w, k, p)
    ensures k < Run(w, ops, cities).started && Retired(Run(w, ops, cities), k, p)
  {
    if ops != [] {
      RetiredForGood(w, ops[..|ops| - 1], cities, k, p);
      StepSparesRetired(Run(w, ops[..|ops| - 1], cities), ops[|ops| - 1], cities, k, p);
    }
  }

  lemma PollKeepsRetired(s: System, t: Task, reply: Reply, now: real)
    requires EngineOk(s.e) && t.key < |s.e.ledger.keys|
    ensures PollTask(s, t, reply, now).e.retired == s.e.retired
  {
  }

  /** ... nor, once its attempt has been stored, by the attempts that start from there. */
  lemma RetiredIsStored(e: Engine)
    requires EngineOk(e)
    ensures Restarted(e).retired == e.retired
  {
  }

  // ---------------------------------------------------------------- what a call starts

  /** A call that is accepted moves the city from those to do to those submitted, and starts a task for it
      on the key that pays, at that moment; the deadline counts from there. */
  lemma AcceptanceMeans(s: System, script: Script, key: string, now: real)
    requires EngineOk(s.e) && s.e.unsubmitted != [] && key in s.e.ledger.keys && script(|s.calls|).None?
    ensures var s' := Attempt(s, script, s.e.unsubmitted[0], key, now);
            var p := Position(s.e.ledger.keys, key);
            && s'.e.tasks == s.e.tasks + [Task(s.minted, s.e.unsubmitted[0], p, now)] && s.e.ledger.keys[p] == key
            && s'.e.submitted == s.e.submitted + [s.e.unsubmitted[0]] && s'.e.unsubmitted == s.e.unsubmitted[1..]
            && s'.e.ledger == s.e.ledger.(held := s.e.ledger.held[key := s.e.ledger.held[key] + s.e.estimate])
            && s'.calls == s.calls + [Call(s.e.unsubmitted[0], p, None)]
  {
    assert WithoutFirst(s.e.unsubmitted, s.e.unsubmitted[0]) == s.e.unsubmitted[1..];
  }

  // ---------------------------------------------------------------- snapshots

  /** Exactly half way between two hundredths the even one is taken. */
  lemma TiesGoToEven(n: int)
    ensures Round2((n as real + 0.5) / 100.0) == (if n % 2 == 0 then n else n + 1) as real / 100.0
  {
    assert (n as real + 0.5) / 100.0 * 100.0 == n as real + 0.5;
    assert (n as real + 0.5).Floor == n;
  }

  /** A pool that has grown since the snapshot: a key that was in it has its balance of then, a new one the
      default of 300; nothing is held. */
  lemma GrownPool(keys: seq<string>, floor: real, snap: map<nat, real>, p: nat)
    requires p < |keys| && forall i, j | 0 <= i < j < |keys| :: keys[i] != keys[j]
    ensures var l := RestoredLedger(keys, floor, snap);
            && l.balances[keys[p]] == (if p in snap then snap[p] else 300.0) && l.held[keys[p]] == 0.0
  {
    PositionUnique(keys, p);
  }
}
