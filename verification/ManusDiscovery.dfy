/** infrastructure/providers/manus.py and manus_engine.py: the key ledger and the discovery engine,
    updated in place. Each method is proved to be the step of `Manus` that the lemmas are about. */
module ManusDiscoveryModule {
  import opened Common
  import opened Manus
  import opened ManusLaws

  lemma {:induction false} UsableEmptyIff(e: Engine, p: nat)
    requires LedgerOk(e.ledger) && p <= |e.ledger.keys|
    ensures Usable(e, {}, p) == [] <==> forall q | p <= q < |e.ledger.keys| :: !CanPay(e, q)
    decreases |e.ledger.keys| - p
  {
    if p < |e.ledger.keys| {
      UsableEmptyIff(e, p + 1);
    }
  }

  lemma OneMoreUsable(usable: seq<string>, e: Engine, tried: set<string>, p: nat)
    requires LedgerOk(e.ledger) && p < |e.ledger.keys| && CanPay(e, p) && e.ledger.keys[p] !in tried
    ensures usable + Usable(e, tried, p) == usable + [e.ledger.keys[p]] + Usable(e, tried, p + 1)
  {
  }

  class KeyLedger {
    const keys: seq<string>
    const floor: real
    var balances: map<string, real>
    var held: map<string, real>

    ghost function Now(): Ledger reads this {
      Ledger(keys, floor, balances, held)
    }

    ghost predicate Valid() reads this {
      LedgerOk(Now())
    }

    /** KeyLedger.restore: balances by position, the default for a position that is not there. */
    constructor Restore(keys: seq<string>, snap: map<nat, real>, floor: real)
      requires forall i, j | 0 <= i < j < |keys| :: keys[i] != keys[j]
      ensures Valid() && Now() == RestoredLedger(keys, floor, snap)
    {
      this.keys, this.floor := keys, floor;
      balances := map k | k in keys :: var i := Position(keys, k); if i in snap then snap[i] else DEFAULT_BALANCE;
      held := map k | k in keys :: 0.0;
    }

    method HoldFor(k: string, amount: real)
      requires Valid() && k in keys
      modifies this`held
      ensures Valid() && Now() == Hold(old(Now()), k, amount)
    {
      held := held[k := held[k] + amount];
    }

    /** Hold the estimate again for every task in flight. */
    method HoldForTasks(tasks: seq<Task>, estimate: real)
      requires Valid() && forall t | t in tasks :: t.key < |keys|
      modifies this`held
      ensures Valid() && Now() == Reheld(old(Now()), tasks, estimate)
    {
      var i := 0;
      while i < |tasks|
        invariant i <= |tasks| && Valid()
        invariant Now() == Reheld(old(Now()), tasks[..i], estimate)
      {
        assert tasks[..i + 1][..i] == tasks[..i];
        HoldFor(keys[tasks[i].key], estimate);
        i := i + 1;
      }
      assert tasks[..i] == tasks;
    }

    method ReleaseHold(k: string, estimate: real)
      requires Valid() && k in keys
      modifies this`held
      ensures Valid() && Now() == Release(old(Now()), k, estimate)
    {
      var left := held[k] - estimate;
      held := held[k := if left >= 0.0 then left else 0.0];
    }

    method ChargeKey(k: string, credits: real)
      requires Valid() && k in keys
      modifies this`balances
      ensures Valid() && Now() == Charge(old(Now()), k, credits)
    {
      var left := balances[k] - credits;
      balances := balances[k := if left >= 0.0 then left else 0.0];
    }

    method SettleKey(k: string, estimate: real, actual: real)
      requires Valid() && k in keys
      modifies this
      ensures Valid() && Now() == Settle(old(Now()), k, estimate, actual)
    {
      ReleaseHold(k, estimate);
      ChargeKey(k, actual);
    }

    method EmptyKey(k: string)
      requires Valid() && k in keys
      modifies this`balances
      ensures Valid() && Now() == old(Now()).(balances := old(balances)[k := 0.0])
    {
      balances := balances[k := 0.0];
    }

    /** max(candidates, key=available). */
    method PickRichest(candidates: seq<string>) returns (best: string)
      requires candidates != [] && forall k | k in candidates :: k in balances && k in held
      ensures best == Richest(Now(), candidates)
    {
      best := candidates[0];
      var i := 1;
      assert candidates[..1] == [best];
      while i < |candidates|
        invariant 1 <= i <= |candidates|
        invariant best == Richest(Now(), candidates[..i])
      {
        assert candidates[..i + 1][..i] == candidates[..i];
        if balances[candidates[i]] - held[candidates[i]] > balances[best] - held[best] {
          best := candidates[i];
        }
        i := i + 1;
      }
      assert candidates[..i] == candidates;
    }

    /** reserve: a key that can pay `estimate` and still stay at or above the floor. */
    method Reserve(estimate: real) returns (r: Option<string>)
      requires Valid()
      modifies this`held
      ensures Valid()
      ensures r.None? <==> forall k | k in keys :: Available(old(Now()), k) - estimate < floor
      ensures r.None? ==> Now() == old(Now())
      ensures r.Some? ==>
                && r.value in keys && Now() == Hold(old(Now()), r.value, estimate)
                && Available(Now(), r.value) >= floor
                && forall k | k in keys && Available(old(Now()), k) - estimate >= floor ::
                     Available(old(Now()), k) <= Available(old(Now()), r.value)
    {
      var usable: seq<string> := [];
      var i := 0;
      while i < |keys|
        invariant i <= |keys|
        invariant forall k | k in usable :: k in keys && Available(Now(), k) - estimate >= floor
        invariant forall j | 0 <= j < i && Available(Now(), keys[j]) - estimate >= floor :: keys[j] in usable
      {
        if balances[keys[i]] - held[keys[i]] - estimate >= floor {
          usable := usable + [keys[i]];
        }
        i := i + 1;
      }
      if usable == [] {
        return None;
      }
      var best := PickRichest(usable);
      HoldFor(best, estimate);
      return Some(best);
    }

    method TakeSnapshot() returns (snap: map<nat, real>)
      requires Valid()
      ensures snap == LedgerSnapshot(Now())
    {
      snap := map p: nat | p < |keys| :: Round2(balances[keys[p]]);
    }
  }

  /** The remote service: it answers create_task calls as `script` says and never reuses a task id. */
  class Remote {
    const script: Script
    var minted: nat
    var calls: seq<Call>

    constructor (script: Script)
      ensures this.script == script && minted == 0 && calls == []
    {
      this.script := script;
      minted, calls := 0, [];
    }

    method CreateTask(city: string, key: nat) returns (r: Result<TaskId, ErrorKind>)
      modifies this
      ensures calls == old(calls) + [Call(city, key, script(|old(calls)|))]
      ensures match script(|old(calls)|)
              case None => r == Ok(old(minted)) && minted == old(minted) + 1
              case Some(kind) => r == Err(kind) && minted == old(minted)
    {
      var error := script(|calls|);
      calls := calls + [Call(city, key, error)];
      if error.Some? {
        return Err(error.value);
      }
      r := Ok(minted);
      minted := minted + 1;
    }
  }

  datatype PollResult = PollResult(answered: seq<Task>, failed: nat, timedOut: nat, finished: bool)

  lemma OneTaskMore(s: System, todo: seq<Task>, i: nat, replies: TaskId -> Reply, now: real)
    requires i < |todo| && EngineOk(s.e) && forall t | t in todo[i..] :: t.key < |s.e.ledger.keys|
    ensures todo[i] in todo[i..] && forall t | t in todo[i + 1..] :: t in todo[i..]
    ensures var s1 := PollTask(s, todo[i], replies(todo[i].id), now);
            && EngineOk(s1.e) && s1.e.ledger.keys == s.e.ledger.keys
            && PollAll(s, todo[i..], replies, now) == PollAll(s1, todo[i + 1..], replies, now)
  {
    assert todo[i..][0] == todo[i] && todo[i..][1..] == todo[i + 1..];
    assert todo[i..] == [todo[i]] + todo[i + 1..];
    PollTaskKeepsKeys(s, todo[i], replies(todo[i].id), now);
  }

  predicate Answers(reply: Reply) {
    reply.Ended? && reply.ok && reply.answered
  }

  /** The tasks whose answers a poll reads, in the order it meets them. */
  function Answered(tasks: seq<Task>, replies: TaskId -> Reply): (r: seq<Task>)
    ensures forall t :: t in r <==> t in tasks && Answers(replies(t.id))
  {
    if tasks == [] then []
    else
      var last := tasks[|tasks| - 1];
      assert tasks == tasks[..|tasks| - 1] + [last];
      Answered(tasks[..|tasks| - 1], replies) + (if Answers(replies(last.id)) then [last] else [])
  }

  lemma AnsweredMore(tasks: seq<Task>, i: nat, replies: TaskId -> Reply)
    requires i < |tasks|
    ensures Answered(tasks[..i + 1], replies)
            == Answered(tasks[..i], replies) + (if Answers(replies(tasks[i].id)) then [tasks[i]] else [])
  {
    assert tasks[..i + 1][..i] == tasks[..i];
  }

  lemma OneCityMore(s: System, script: Script, todo: seq<string>, i: nat, now: real)
    requires LedgerOk(s.e.ledger) && i < |todo|
    ensures var (s1, done) := SubmitOne(s, script, todo[i], {}, now);
            SubmitAll(s, script, todo[i..], now) == if done then SubmitAll(s1, script, todo[i + 1..], now) else s1
  {
    assert todo[i..][1..] == todo[i + 1..];
  }

  class ManusDiscovery {
    var ledger: KeyLedger
    const remote: Remote
    const estimate: real
    const timeout: real
    var tasks: seq<Task>
    var submitted: seq<string>
    var unsubmitted: seq<string>
    var retired: set<nat>
    var collected: set<TaskId>
    var failed: nat
    var timedOut: nat
    ghost var reported: real

    ghost function Now(): Engine reads this, ledger {
      Engine(ledger.Now(), estimate, timeout, tasks, submitted, unsubmitted, retired, collected, failed, timedOut)
    }

    ghost function Sys(): System reads this, ledger, remote {
      System(Now(), remote.minted, remote.calls, reported)
    }

    ghost predicate Valid() reads this, ledger {
      EngineOk(Now())
    }

    /** A worker starts from a stored snapshot: credit is held again for the tasks in flight. */
    constructor Restore(keys: seq<string>, floor: real, estimate: real, timeout: real, remote: Remote, snap: Snapshot)
      requires forall i, j | 0 <= i < j < |keys| :: keys[i] != keys[j]
      requires forall t | t in snap.tasks :: t.key < |keys|
      ensures Valid() && fresh(ledger) && this.remote == remote
      ensures Now() == Restored(keys, floor, estimate, timeout, snap)
    {
      this.remote, this.estimate, this.timeout := remote, estimate, timeout;
      tasks, submitted, unsubmitted := snap.tasks, snap.submitted, snap.unsubmitted;
      retired, collected, failed, timedOut := snap.retired, snap.collected, snap.failed, snap.timedOut;
      reported := 0.0;
      ledger := new KeyLedger.Restore(keys, snap.ledger, floor);
      new;
      ledger.HoldForTasks(tasks, estimate);
    }

    /** `state()`. */
    method TakeState() returns (snap: Snapshot)
      requires Valid()
      ensures snap == StateOf(Now())
    {
      var balances := ledger.TakeSnapshot();
      snap := Snapshot(tasks, submitted, unsubmitted, retired, collected, balances, failed, timedOut);
    }

    predicate Pays(p: nat, tried: set<string>)
      requires Valid() && p < |ledger.keys|
      reads this, ledger
      ensures Pays(p, tried) <==> CanPay(Now(), p) && ledger.keys[p] !in tried
    {
      var k := ledger.keys[p];
      p !in retired && ledger.balances[k] - ledger.held[k] - estimate >= ledger.floor && k !in tried
    }

    /** `_affordable`, without the keys that were tried already. */
    method Affordable(tried: set<string>) returns (usable: seq<string>)
      requires Valid()
      ensures usable == Usable(Now(), tried, 0)
    {
      ghost var e := Now();
      usable := [];
      var p := 0;
      while p < |ledger.keys|
        invariant p <= |ledger.keys|
        invariant usable + Usable(e, tried, p) == Usable(e, tried, 0)
      {
        if Pays(p, tried) {
          OneMoreUsable(usable, e, tried, p);
          usable := usable + [ledger.keys[p]];
        }
        p := p + 1;
      }
    }

    /** `_reserve`: hold the estimate on the richest affordable key that was not tried yet. */
    method ReserveUntried(tried: set<string>) returns (r: Option<string>)
      requires Valid()
      modifies ledger`held
      ensures Valid()
      ensures r.None? <==> Usable(old(Now()), tried, 0) == []
      ensures r.None? ==> Now() == old(Now())
      ensures r.Some? ==>
                && r.value == Richest(old(Now()).ledger, Usable(old(Now()), tried, 0))
                && Now() == old(Now()).(ledger := Hold(old(Now()).ledger, r.value, estimate))
    {
      var usable := Affordable(tried);
      if usable == [] {
        return None;
      }
      var best := ledger.PickRichest(usable);
      ledger.HoldFor(best, estimate);
      return Some(best);
    }

    /** What happens after a hold: create_task is called and its outcome booked. */
    method Try(city: string, k: string, now: real) returns (ok: bool)
      requires Valid() && k in ledger.keys
      modifies this`tasks, this`submitted, this`unsubmitted, this`retired, ledger, remote
      ensures Valid() && ledger == old(ledger)
      ensures ok <==> remote.script(|old(remote.calls)|).None?
      ensures match remote.script(|old(remote.calls)|)
              case None => Now() == Started(old(Now()), old(remote.minted), city, k, now)
              case Some(kind) => Now() == Refused(old(Now()), k, kind)
      ensures remote.minted == old(remote.minted) + (if ok then 1 else 0)
      ensures remote.calls
              == old(remote.calls) + [Call(city, Position(ledger.keys, k), remote.script(|old(remote.calls)|))]
    {
      var reply := remote.CreateTask(city, Position(ledger.keys, k));
      match reply {
        case Err(kind) =>
          ledger.ReleaseHold(k, estimate);
          if kind == Auth {
            retired := retired + {Position(ledger.keys, k)};
          } else if kind == Capacity {
            ledger.EmptyKey(k);
          }
          ok := false;
        case Ok(id) =>
          tasks := tasks + [Task(id, city, Position(ledger.keys, k), now)];
          submitted := submitted + [city];
          unsubmitted := WithoutFirst(unsubmitted, city);
          ok := true;
      }
    }

    method SubmitCity(city: string, now: real) returns (done: bool)
      requires Valid()
      modifies this`tasks, this`submitted, this`unsubmitted, this`retired, ledger, remote
      ensures Valid() && ledger == old(ledger)
      ensures (Sys(), done) == SubmitOne(old(Sys()), remote.script, city, {}, now)
    {
      var tried: set<string> := {};
      while true
        invariant Valid() && ledger == old(ledger)
        invariant SubmitOne(Sys(), remote.script, city, tried, now)
                  == SubmitOne(old(Sys()), remote.script, city, {}, now)
        decreases |Untried(ledger.keys, tried)|
      {
        ghost var s := Sys();
        var key := ReserveUntried(tried);
        if key.None? {
          return false;
        }
        var ok := Try(city, key.value, now);
        assert Sys() == Attempt(s, remote.script, city, key.value, now);
        if ok {
          return true;
        }
        OneFewerUntried(ledger.keys, tried, key.value);
        tried := tried + {key.value};
      }
    }

    method SubmitCities(cities: seq<string>, now: real)
      requires Valid()
      modifies this`tasks, this`submitted, this`unsubmitted, this`retired, ledger, remote
      ensures Valid() && ledger == old(ledger)
      ensures Sys() == Submit(old(Sys()), remote.script, cities, now)
    {
      if submitted == [] && unsubmitted == [] {
        unsubmitted := cities;
      }
      SubmitEach(unsubmitted, now);
    }

    /** The loop of `submit`. */
    method SubmitEach(todo: seq<string>, now: real)
      requires Valid()
      modifies this`tasks, this`submitted, this`unsubmitted, this`retired, ledger, remote
      ensures Valid() && ledger == old(ledger)
      ensures Sys() == SubmitAll(old(Sys()), remote.script, todo, now)
    {
      ghost var end := SubmitAll(Sys(), remote.script, todo, now);
      var i := 0;
      assert todo[0..] == todo;
      while i < |todo|
        invariant i <= |todo| && Valid() && ledger == old(ledger)
        invariant SubmitAll(Sys(), remote.script, todo[i..], now) == end
      {
        ghost var s := Sys();
        OneCityMore(s, remote.script, todo, i, now);
        var done := SubmitCity(todo[i], now);
        assert end == if done then SubmitAll(Sys(), remote.script, todo[i + 1..], now) else Sys();
        if !done {
          return;
        }
        i := i + 1;
      }
    }

    method IsExhausted() returns (exhausted: bool)
      requires Valid()
      ensures exhausted <==> Exhausted(Now())
      ensures exhausted <==>
                && unsubmitted != []
                && forall p | 0 <= p < |ledger.keys| && p !in retired ::
                     ledger.balances[ledger.keys[p]] - ledger.held[ledger.keys[p]] - estimate < ledger.floor
    {
      UsableEmptyIff(Now(), 0);
      var p := 0;
      while p < |ledger.keys|
        invariant p <= |ledger.keys|
        invariant forall q | 0 <= q < p :: !CanPay(Now(), q)
        invariant forall q | 0 <= q < p && q !in retired ::
                    ledger.balances[ledger.keys[q]] - ledger.held[ledger.keys[q]] - estimate < ledger.floor
      {
        var k := ledger.keys[p];
        if p !in retired && ledger.balances[k] - ledger.held[k] - estimate >= ledger.floor {
          assert CanPay(Now(), p);
          return false;
        }
        p := p + 1;
      }
      return unsubmitted != [];
    }

    /** `_abandon`, and the two ways a task leaves: with its credits charged or not. */
    method Abandon(t: Task, charged: bool)
      requires Valid() && t.key < |ledger.keys|
      modifies this`tasks, this`timedOut, ledger
      ensures Valid() && ledger == old(ledger)
      ensures Now() == Abandoned(if charged then old(Now())
                                 else old(Now()).(ledger := Release(old(Now()).ledger, ledger.keys[t.key], estimate)),
                                 t.id)
    {
      if !charged {
        ledger.ReleaseHold(ledger.keys[t.key], estimate);
      }
      TaskFrom(tasks, t.id);
      tasks := WithoutTask(tasks, t.id);
      timedOut := timedOut + 1;
    }

    method PollOne(t: Task, reply: Reply, now: real)
      requires Valid() && t.key < |ledger.keys|
      modifies this`tasks, this`collected, this`failed, this`timedOut, this`reported, ledger
      ensures Valid() && ledger == old(ledger)
      ensures Sys() == PollTask(old(Sys()), t, reply, now)
    {
      var late := now - t.at > timeout;
      var k := ledger.keys[t.key];
      match reply {
        case Unreachable =>
          if late {
            Abandon(t, false);
          }
        case Running(credits) =>
          if late {
            ledger.SettleKey(k, estimate, credits);
            reported := reported + credits;
            Abandon(t, true);
          }
        case Ended(credits, ok, answered) =>
          ledger.SettleKey(k, estimate, credits);
          reported := reported + credits;
          TaskFrom(tasks, t.id);
          tasks := WithoutTask(tasks, t.id);
          collected := collected + {t.id};
          if !ok || !answered {
            failed := failed + 1;
          }
      }
    }

    method PollTasks(replies: TaskId -> Reply, now: real) returns (r: PollResult)
      requires Valid()
      modifies this`tasks, this`collected, this`failed, this`timedOut, this`reported, ledger
      ensures Valid() && ledger == old(ledger)
      ensures Sys() == Poll(old(Sys()), replies, now)
      ensures r.failed == failed - old(failed) && r.timedOut == timedOut - old(timedOut)
      ensures r.finished <==> tasks == [] && unsubmitted == []
      ensures r.answered == Answered(old(tasks), replies)
      ensures DistinctIds(old(tasks)) ==>
                && tasks == Staying(old(tasks), replies, timeout, now)
                && r.timedOut == CountOverdue(old(tasks), replies, timeout, now)
                && r.failed == CountFailed(old(tasks), replies)
                && collected == old(collected) + Ends(old(tasks), replies)
    {
      if DistinctIds(tasks) {
        PollKeepsDeadlines(Sys(), replies, now);
      }
      var failedBefore, timedOutBefore := failed, timedOut;
      var answered := PollEach(tasks, replies, now);
      r := PollResult(answered, failed - failedBefore, timedOut - timedOutBefore, tasks == [] && unsubmitted == []);
    }

    /** The loop of `poll`. */
    method PollEach(todo: seq<Task>, replies: TaskId -> Reply, now: real) returns (answered: seq<Task>)
      requires Valid() && forall t | t in todo :: t.key < |ledger.keys|
      modifies this`tasks, this`collected, this`failed, this`timedOut, this`reported, ledger
      ensures Valid() && ledger == old(ledger)
      ensures Sys() == PollAll(old(Sys()), todo, replies, now)
      ensures failed >= old(failed) && timedOut >= old(timedOut)
      ensures answered == Answered(todo, replies)
    {
      ghost var end := PollAll(Sys(), todo, replies, now);
      answered := [];
      var i := 0;
      assert todo[0..] == todo;
      while i < |todo|
        invariant i <= |todo| && Valid() && ledger == old(ledger)
        invariant (forall t | t in todo[i..] :: t.key < |ledger.keys|) && PollAll(Sys(), todo[i..], replies, now) == end
        invariant failed >= old(failed) && timedOut >= old(timedOut)
        invariant answered == Answered(todo[..i], replies)
      {
        var reply := replies(todo[i].id);
        OneTaskMore(Sys(), todo, i, replies, now);
        PollOne(todo[i], reply, now);
        if Answers(reply) {
          answered := answered + [todo[i]];
        }
        AnsweredMore(todo, i, replies);
        i := i + 1;
      }
      assert todo[..i] == todo;
    }
  }
}
