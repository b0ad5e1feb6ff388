/** The waterfall against the ledger it started from, and the ledger over whole runs. */
module GatewayProofs {
  import opened Common
  import opened Gateway

  // ---------------------------------------------------------------- the ledger

  /** One row per key; only a succeeded effect has a cost. */
  ghost predicate RowsOk(rows: seq<Effect>) {
    && (forall i, j | 0 <= i < j < |rows| :: rows[i].key != rows[j].key)
    && (forall i | 0 <= i < |rows| :: rows[i].status != Succeeded ==> rows[i].cost == 0)
  }

  lemma {:induction false} BookedUpdate(rows: seq<Effect>, id: nat, row: Effect, org: string, job: string)
    requires id < |rows| && row.key == rows[id].key
    ensures Booked(rows[id := row], org, job) == Booked(rows, org, job) +
                                                 (if row.key.req.org == org && row.key.req.job == Some(job)
                                                  then row.cost - rows[id].cost else 0)
  {
    var n := |rows| - 1;
    if id == n {
      assert rows[id := row][..n] == rows[..n];
    } else {
      assert rows[id := row][..n] == rows[..n][id := row];
      BookedUpdate(rows[..n], id, row, org, job);
    }
  }

  lemma FindSameKeys(rows: seq<Effect>, rows': seq<Effect>, key: EffectKey)
    requires |rows| == |rows'| && forall i | 0 <= i < |rows| :: rows[i].key == rows'[i].key
    ensures Find(rows, key) == Find(rows', key)
  {
  }

  lemma {:induction false} FindInMore(rows: seq<Effect>, e: Effect, key: EffectKey)
    ensures Find(rows + [e], key) == if Find(rows, key) < |rows| || e.key == key then Find(rows, key) else |rows| + 1
  {
    if rows != [] {
      assert (rows + [e])[1..] == rows[1..] + [e];
      FindInMore(rows[1..], e, key);
    }
  }

  lemma FindAppend(rows: seq<Effect>, e: Effect, key: EffectKey)
    requires Find(rows, e.key) == |rows|
    ensures HasSucceeded(rows + [e], key) <==> HasSucceeded(rows, key) || (key == e.key && e.status == Succeeded)
  {
    FindInMore(rows, e, key);
  }

  lemma ReserveKeepsRows(rows: seq<Effect>, key: EffectKey)
    requires RowsOk(rows) && !HasSucceeded(rows, key)
    ensures RowsOk(Reserve(rows, key)) && Reserve(rows, key)[Find(rows, key)].status != Succeeded
  {
  }

  lemma ReserveBooksNothing(rows: seq<Effect>, key: EffectKey, org: string, job: string)
    ensures Booked(Reserve(rows, key), org, job) == Booked(rows, org, job)
  {
    var i := Find(rows, key);
    var e := Effect(key, Reserved, 0);
    if i == |rows| {
      assert (rows + [e])[..|rows|] == rows;
    } else if rows[i].status == Failed {
      BookedUpdate(rows, i, rows[i].(status := Reserved), org, job);
    }
  }

  lemma ReserveSucceedsNothing(rows: seq<Effect>, key: EffectKey, k: EffectKey)
    requires !HasSucceeded(rows, key)
    ensures HasSucceeded(Reserve(rows, key), k) == HasSucceeded(rows, k)
    ensures HasSucceeded(rows, k) ==> Find(Reserve(rows, key), k) == Find(rows, k)
  {
    var i := Find(rows, key);
    if i == |rows| {
      FindInMore(rows, Effect(key, Reserved, 0), k);
      FindAppend(rows, Effect(key, Reserved, 0), k);
    } else {
      FindSameKeys(rows, Reserve(rows, key), k);
    }
  }

  lemma CompleteBooks(rows: seq<Effect>, id: nat, reply: Reply, org: string, job: string)
    requires RowsOk(rows) && id < |rows| && rows[id].status != Succeeded
    ensures RowsOk(Complete(rows, id, reply))
    ensures var mine := rows[id].key.req.org == org && rows[id].key.req.job == Some(job);
            Booked(Complete(rows, id, reply), org, job)
            == Booked(rows, org, job) + (if mine && reply.ok then reply.cost else 0)
  {
    BookedUpdate(rows, id, Complete(rows, id, reply)[id], org, job);
  }

  lemma CompleteSucceeds(rows: seq<Effect>, id: nat, reply: Reply, k: EffectKey)
    requires RowsOk(rows) && id < |rows| && rows[id].status != Succeeded
    ensures HasSucceeded(Complete(rows, id, reply), k) <==> HasSucceeded(rows, k) || (reply.ok && k == rows[id].key)
    ensures Find(Complete(rows, id, reply), k) == Find(rows, k)
  {
    FindSameKeys(rows, Complete(rows, id, reply), k);
    var i := Find(rows, rows[id].key);
    assert i == id;
  }

  /** One call of an adapter that is not already done, whatever came of it. */
  lemma OneEffect(rows: seq<Effect>, key: EffectKey, reply: Reply, org: string, job: string)
    requires RowsOk(rows) && !HasSucceeded(rows, key)
    ensures var rows' := Complete(Reserve(rows, key), Find(rows, key), reply);
            && RowsOk(rows')
            && Booked(rows', org, job) == Booked(rows, org, job) +
                                          (if key.req.org == org && key.req.job == Some(job) && reply.ok
                                           then reply.cost else 0)
            && (forall k :: HasSucceeded(rows', k) <==> HasSucceeded(rows, k) || (reply.ok && k == key))
            && forall k :: HasSucceeded(rows, k) ==> Find(rows', k) == Find(rows, k)
  {
    ReserveKeepsRows(rows, key);
    ReserveBooksNothing(rows, key, org, job);
    CompleteBooks(Reserve(rows, key), Find(rows, key), reply, org, job);
    forall k
      ensures HasSucceeded(Complete(Reserve(rows, key), Find(rows, key), reply), k)
              <==> HasSucceeded(rows, k) || (reply.ok && k == key)
      ensures HasSucceeded(rows, k) ==> Find(Complete(Reserve(rows, key), Find(rows, key), reply), k) == Find(rows, k)
    {
      ReserveSucceedsNothing(rows, key, k);
      CompleteSucceeds(Reserve(rows, key), Find(rows, key), reply, k);
    }
  }

  // ---------------------------------------------------------------- the waterfall against its start

  /** What the waterfall makes of an adapter, judged on the ledger as it was before the waterfall. */
  datatype Verdict = Already | Unaffordable | Final | TryNext

  function VerdictOf(rows: seq<Effect>, a: Adapter, req: Request, budget: Option<int>, reply: Reply): Verdict {
    if HasSucceeded(rows, EffectKey(req, a.provider)) then Already
    else if TooDear(a, budget, Spent(rows, req)) then Unaffordable
    else if Retriable(reply) then TryNext
    else Final
  }

  /** The first adapter from `i` on that does not just pass the request on. */
  function FirstStop(rows: seq<Effect>, adapters: seq<Adapter>, i: nat, req: Request, budget: Option<int>,
                     replies: nat -> Reply): (stop: nat)
    requires i <= |adapters|
    ensures i <= stop <= |adapters|
    ensures forall k | i <= k < stop :: VerdictOf(rows, adapters[k], req, budget, replies(k)) == TryNext
    ensures stop < |adapters| ==> VerdictOf(rows, adapters[stop], req, budget, replies(stop)) != TryNext
    decreases |adapters| - i
  {
    if i == |adapters| || VerdictOf(rows, adapters[i], req, budget, replies(i)) != TryNext then i
    else FirstStop(rows, adapters, i + 1, req, budget, replies)
  }

  /** Two ledgers that the waterfall cannot tell apart: same successes, same cost for this request. */
  ghost predicate Alike(a: seq<Effect>, b: seq<Effect>, req: Request) {
    && (forall k :: HasSucceeded(a, k) == HasSucceeded(b, k))
    && (forall k :: HasSucceeded(a, k) ==> Find(a, k) == Find(b, k))
    && Spent(a, req) == Spent(b, req)
  }

  function KeysOf(adapters: seq<Adapter>, from: nat, to: nat, req: Request): seq<EffectKey>
    requires from <= to <= |adapters|
  {
    seq(to - from, i requires 0 <= i < to - from => EffectKey(req, adapters[from + i].provider))
  }

  /** What the outcome is, given where the waterfall stops. */
  ghost predicate OutcomeIs(rows: seq<Effect>, adapters: seq<Adapter>, stop: nat, req: Request, budget: Option<int>,
                            replies: nat -> Reply, outcome: Outcome)
    requires stop <= |adapters|
  {
    if stop == |adapters| then outcome == NoProvider
    else match VerdictOf(rows, adapters[stop], req, budget, replies(stop))
      case Already => outcome == CachedEffect(Find(rows, EffectKey(req, adapters[stop].provider)))
      case Unaffordable => outcome == BudgetExhausted
      case _ => outcome == FromAdapter(stop, replies(stop))
  }

  /** Adapters called from `i` on: everything before the stop, and the stop itself if it answered. */
  function CalledUpTo(rows: seq<Effect>, adapters: seq<Adapter>, stop: nat, req: Request, budget: Option<int>,
                      replies: nat -> Reply): nat
    requires stop <= |adapters|
  {
    if stop < |adapters| && VerdictOf(rows, adapters[stop], req, budget, replies(stop)) == Final then stop + 1 else stop
  }

  /** `key` has succeeded since, if `more`; nothing else has. */
  ghost predicate SucceededSince(before: seq<Effect>, after: seq<Effect>, more: bool, key: EffectKey) {
    forall k :: HasSucceeded(after, k) <==> HasSucceeded(before, k) || (more && k == key)
  }

  /** The ledger `run` leaves: at most the one success, and its cost. */
  ghost predicate BookedOnly(start: seq<Effect>, req: Request, provider: string, run: Run) {
    var done := run.outcome.FromAdapter? && run.outcome.reply.ok;
    && RowsOk(run.rows)
    && SucceededSince(start, run.rows, done, EffectKey(req, provider))
    && Spent(run.rows, req) == Spent(start, req) + (if req.job.Some? && done then run.outcome.reply.cost else 0)
  }

  function ProviderAt(adapters: seq<Adapter>, i: nat): string {
    if i < |adapters| then adapters[i].provider else ""
  }

  /** A finished waterfall that was at adapter `i` with `calls` behind it, told from the ledger it
      started with: where it stops, what it returns, whom it called, what it booked. */
  ghost predicate Explains(start: seq<Effect>, adapters: seq<Adapter>, i: nat, req: Request, budget: Option<int>,
                           replies: nat -> Reply, calls: seq<EffectKey>, run: Run)
    requires i <= |adapters|
  {
    ExplainsAt(start, adapters, i, FirstStop(start, adapters, i, req, budget, replies), req, budget, replies, calls,
               run)
  }

  ghost predicate ExplainsAt(start: seq<Effect>, adapters: seq<Adapter>, i: nat, stop: nat, req: Request,
                             budget: Option<int>, replies: nat -> Reply, calls: seq<EffectKey>, run: Run)
    requires i <= stop <= |adapters|
  {
    var upTo := CalledUpTo(start, adapters, stop, req, budget, replies);
    && OutcomeIs(start, adapters, stop, req, budget, replies, run.outcome)
    && run.calls == calls + KeysOf(adapters, i, upTo, req)
    && BookedOnly(start, req, ProviderAt(adapters, stop), run)
  }

  lemma StopsCached(start: seq<Effect>, rows: seq<Effect>, adapters: seq<Adapter>, i: nat, req: Request,
                    budget: Option<int>, replies: nat -> Reply, calls: seq<EffectKey>)
    requires RowsOk(rows) && Alike(start, rows, req) && i < |adapters|
    requires VerdictOf(start, adapters[i], req, budget, replies(i)) == Already
    ensures Explains(start, adapters, i, req, budget, replies, calls,
                     Run(rows, CachedEffect(Find(rows, EffectKey(req, adapters[i].provider))), calls))
  {
    assert calls + KeysOf(adapters, i, i, req) == calls;
  }

  lemma StopsShort(start: seq<Effect>, rows: seq<Effect>, adapters: seq<Adapter>, i: nat, req: Request,
                   budget: Option<int>, replies: nat -> Reply, calls: seq<EffectKey>)
    requires RowsOk(rows) && Alike(start, rows, req) && i < |adapters|
    requires VerdictOf(start, adapters[i], req, budget, replies(i)) == Unaffordable
    ensures var key := EffectKey(req, adapters[i].provider);
            Explains(start, adapters, i, req, budget, replies, calls,
                     Run(Complete(Reserve(rows, key), Find(rows, key), OUT_OF_BUDGET), BudgetExhausted, calls))
  {
    var key := EffectKey(req, adapters[i].provider);
    assert !HasSucceeded(rows, key);
    StillAlike(start, rows, key, OUT_OF_BUDGET);
    assert calls + KeysOf(adapters, i, i, req) == calls;
  }

  lemma FinalBooks(start: seq<Effect>, rows: seq<Effect>, i: nat, key: EffectKey, reply: Reply, calls: seq<EffectKey>)
    requires RowsOk(rows) && Alike(start, rows, key.req) && !HasSucceeded(rows, key)
    ensures BookedOnly(start, key.req, key.provider,
                       Run(Complete(Reserve(rows, key), Find(rows, key), reply), FromAdapter(i, reply), calls))
  {
    OneEffect(rows, key, reply, key.req.org, if key.req.job.Some? then key.req.job.value else "");
  }

  lemma StopsFinal(start: seq<Effect>, rows: seq<Effect>, adapters: seq<Adapter>, i: nat, req: Request,
                   budget: Option<int>, replies: nat -> Reply, calls: seq<EffectKey>)
    requires RowsOk(rows) && Alike(start, rows, req) && i < |adapters|
    requires VerdictOf(start, adapters[i], req, budget, replies(i)) == Final
    ensures var key := EffectKey(req, adapters[i].provider);
            Explains(start, adapters, i, req, budget, replies, calls,
                     Run(Complete(Reserve(rows, key), Find(rows, key), replies(i)), FromAdapter(i, replies(i)),
                         calls + [key]))
  {
    var key := EffectKey(req, adapters[i].provider);
    assert !HasSucceeded(rows, key) by {
      assert HasSucceeded(start, key) == HasSucceeded(rows, key);
    }
    FinalBooks(start, rows, i, key, replies(i), calls + [key]);
    assert KeysOf(adapters, i, i + 1, req) == [key];
  }

  lemma KeysFrom(adapters: seq<Adapter>, from: nat, to: nat, req: Request)
    requires from < to <= |adapters|
    ensures KeysOf(adapters, from, to, req)
            == [EffectKey(req, adapters[from].provider)] + KeysOf(adapters, from + 1, to, req)
  {
  }

  lemma GoesOn(start: seq<Effect>, adapters: seq<Adapter>, i: nat, req: Request, budget: Option<int>,
               replies: nat -> Reply, calls: seq<EffectKey>, run: Run)
    requires i < |adapters| && VerdictOf(start, adapters[i], req, budget, replies(i)) == TryNext
    requires Explains(start, adapters, i + 1, req, budget, replies, calls + [EffectKey(req, adapters[i].provider)], run)
    ensures Explains(start, adapters, i, req, budget, replies, calls, run)
  {
    var stop := FirstStop(start, adapters, i + 1, req, budget, replies);
    assert FirstStop(start, adapters, i, req, budget, replies) == stop;
    var upTo := CalledUpTo(start, adapters, stop, req, budget, replies);
    var key := EffectKey(req, adapters[i].provider);
    KeysFrom(adapters, i, upTo, req);
    assert (calls + [key]) + KeysOf(adapters, i + 1, upTo, req) == calls + ([key] + KeysOf(adapters, i + 1, upTo, req));
  }

  /** The `spent` read once stays exact inside the loop, because a failed call books nothing. */
  lemma StillAlike(start: seq<Effect>, rows: seq<Effect>, key: EffectKey, reply: Reply)
    requires RowsOk(rows) && Alike(start, rows, key.req) && !HasSucceeded(rows, key) && !reply.ok
    ensures var rows' := Complete(Reserve(rows, key), Find(rows, key), reply);
            RowsOk(rows') && Alike(start, rows', key.req)
    ensures Spent(Reserve(rows, key), key.req) == Spent(start, key.req)
  {
    FailureIsQuiet(rows, key, reply);
    AlikeAcross(start, rows, Complete(Reserve(rows, key), Find(rows, key), reply), key.req);
  }

  lemma FailureIsQuiet(rows: seq<Effect>, key: EffectKey, reply: Reply)
    requires RowsOk(rows) && !HasSucceeded(rows, key) && !reply.ok
    ensures var rows' := Complete(Reserve(rows, key), Find(rows, key), reply);
            RowsOk(rows') && Alike(rows, rows', key.req)
    ensures Spent(Reserve(rows, key), key.req) == Spent(rows, key.req)
  {
    var job := if key.req.job.Some? then key.req.job.value else "";
    OneEffect(rows, key, reply, key.req.org, job);
    ReserveBooksNothing(rows, key, key.req.org, job);
  }

  lemma AlikeAcross(a: seq<Effect>, b: seq<Effect>, c: seq<Effect>, req: Request)
    requires Alike(a, b, req) && Alike(b, c, req)
    ensures Alike(a, c, req)
  {
  }

  lemma {:induction false} WaterfallFrom(start: seq<Effect>, rows: seq<Effect>, adapters: seq<Adapter>, i: nat,
                                         req: Request, budget: Option<int>, spent: Option<int>, replies: nat -> Reply,
                                         calls: seq<EffectKey>)
    requires RowsOk(rows) && Alike(start, rows, req) && i <= |adapters|
    requires spent.Some? ==> spent.value == Spent(start, req)
    ensures Explains(start, adapters, i, req, budget, replies, calls,
                     Waterfall(rows, adapters, i, req, budget, spent, replies, calls))
    decreases |adapters| - i
  {
    var run := Waterfall(rows, adapters, i, req, budget, spent, replies, calls);
    if i == |adapters| {
      assert calls + KeysOf(adapters, i, i, req) == calls;
    } else {
      var key := EffectKey(req, adapters[i].provider);
      assert HasSucceeded(start, key) == HasSucceeded(rows, key);
      if HasSucceeded(rows, key) {
        StopsCached(start, rows, adapters, i, req, budget, replies, calls);
      } else {
        StillAlike(start, rows, key, OUT_OF_BUDGET);
        var verdict := VerdictOf(start, adapters[i], req, budget, replies(i));
        if verdict == TryNext {
          StillAlike(start, rows, key, replies(i));
          var spent1 := SpentOnce(Reserve(rows, key), adapters[i], req, budget, spent);
          var rows2 := Complete(Reserve(rows, key), Find(rows, key), replies(i));
          WaterfallFrom(start, rows2, adapters, i + 1, req, budget, spent1, replies, calls + [key]);
          GoesOn(start, adapters, i, req, budget, replies, calls, run);
        } else if verdict == Unaffordable {
          StopsShort(start, rows, adapters, i, req, budget, replies, calls);
        } else {
          StopsFinal(start, rows, adapters, i, req, budget, replies, calls);
        }
      }
    }
  }

  /** The waterfall, told from the ledger it started with. Its result is that of the first adapter in
      order that is already done, unaffordable, ok or terminally failing; every adapter before it was
      called exactly once, in order, and failed retriably; nobody after it was called. */
  lemma WaterfallIsFirstStop(rows: seq<Effect>, adapters: seq<Adapter>, req: Request, budget: Option<int>,
                             replies: nat -> Reply)
    requires RowsOk(rows)
    ensures var run := Execute(rows, adapters, req, budget, replies);
            var stop := FirstStop(rows, adapters, 0, req, budget, replies);
            && OutcomeIs(rows, adapters, stop, req, budget, replies, run.outcome)
            && run.calls == KeysOf(adapters, 0, CalledUpTo(rows, adapters, stop, req, budget, replies), req)
  {
    WaterfallFrom(rows, rows, adapters, 0, req, budget, None, replies, []);
    var stop := FirstStop(rows, adapters, 0, req, budget, replies);
    var keys := KeysOf(adapters, 0, CalledUpTo(rows, adapters, stop, req, budget, replies), req);
    assert [] + keys == keys;
  }

  /** An adapter whose provider is listed once is called exactly if its effect has not succeeded, the
      waterfall comes to it, and it is not too dear. */
  lemma CalledIff(rows: seq<Effect>, adapters: seq<Adapter>, i: nat, req: Request, budget: Option<int>,
                  replies: nat -> Reply)
    requires RowsOk(rows) && i < |adapters|
    requires forall j | 0 <= j < |adapters| && j != i :: adapters[j].provider != adapters[i].provider
    ensures var key := EffectKey(req, adapters[i].provider);
            key in Execute(rows, adapters, req, budget, replies).calls <==>
              && !HasSucceeded(rows, key) && i <= FirstStop(rows, adapters, 0, req, budget, replies)
              && !TooDear(adapters[i], budget, Spent(rows, req))
  {
    WaterfallIsFirstStop(rows, adapters, req, budget, replies);
    var stop := FirstStop(rows, adapters, 0, req, budget, replies);
    KeyAmong(adapters, i, CalledUpTo(rows, adapters, stop, req, budget, replies), req);
    if i < stop {
      assert VerdictOf(rows, adapters[i], req, budget, replies(i)) == TryNext;
    }
  }

  lemma KeyAmong(adapters: seq<Adapter>, i: nat, upTo: nat, req: Request)
    requires i < |adapters| && upTo <= |adapters|
    requires forall j | 0 <= j < |adapters| && j != i :: adapters[j].provider != adapters[i].provider
    ensures EffectKey(req, adapters[i].provider) in KeysOf(adapters, 0, upTo, req) <==> i < upTo
  {
    if i < upTo {
      assert KeysOf(adapters, 0, upTo, req)[i] == EffectKey(req, adapters[i].provider);
    }
  }

  /** An effect that may have happened is not reserved: its row stays `uncertain` while its adapter is
      called again, which it is under the same condition as if nothing had happened. */
  lemma UncertainIsCalledAgain(rows: seq<Effect>, adapters: seq<Adapter>, i: nat, req: Request, budget: Option<int>,
                               replies: nat -> Reply)
    requires RowsOk(rows) && i < |adapters|
    requires forall j | 0 <= j < |adapters| && j != i :: adapters[j].provider != adapters[i].provider
    requires var id := Find(rows, EffectKey(req, adapters[i].provider)); id < |rows| && rows[id].status == Uncertain
    ensures var key := EffectKey(req, adapters[i].provider);
            && Reserve(rows, key) == rows
            && (key in Execute(rows, adapters, req, budget, replies).calls <==>
                  && i <= FirstStop(rows, adapters, 0, req, budget, replies)
                  && !TooDear(adapters[i], budget, Spent(rows, req)))
  {
    CalledIff(rows, adapters, i, req, budget, replies);
  }

  // ---------------------------------------------------------------- runs

  /** One call of `execute`. */
  datatype Op = Op(req: Request, adapters: seq<Adapter>, budget: Option<int>, replies: nat -> Reply)

  /** The ledger after a list of execute calls, and the effects whose adapter was called, in order. */
  function RunAll(rows: seq<Effect>, ops: seq<Op>): (r: (seq<Effect>, seq<EffectKey>)) {
    if ops == [] then (rows, [])
    else
      var (rows1, calls1) := RunAll(rows, ops[..|ops| - 1]);
      var op := ops[|ops| - 1];
      var run := Execute(rows1, op.adapters, op.req, op.budget, op.replies);
      (run.rows, calls1 + run.calls)
  }

  /** So two calls of `execute` call the one adapter twice, if the first is answered ambiguously: an effect
      that did happen then happens again. */
  lemma AmbiguousIsCalledTwice(req: Request, a: Adapter, again: Reply)
    ensures var key := EffectKey(req, a.provider);
            var first := Op(req, [a], None, (_: nat) => Reply(false, 0, Some(Ambiguous)));
            var second := Op(req, [a], None, (_: nat) => again);
            && RunAll([], [first]) == ([Effect(key, Uncertain, 0)], [key])
            && RunAll([], [first, second]).1 == [key, key]
  {
    var key := EffectKey(req, a.provider);
    var first := Op(req, [a], None, (_: nat) => Reply(false, 0, Some(Ambiguous)));
    var second := Op(req, [a], None, (_: nat) => again);
    OneCall([], first, a);
    assert [first][..0] == [];
    assert Reserve([], key) == [Effect(key, Reserved, 0)];
    assert Complete(Reserve([], key), 0, first.replies(0)) == [Effect(key, Uncertain, 0)];
    assert RunAll([], [first][..0]) == ([], []) && [] + [key] == [key];
    assert RunAll([], [first]) == ([Effect(key, Uncertain, 0)], [key]);
    OneCall([Effect(key, Uncertain, 0)], second, a);
    assert [first, second][..1] == [first];
  }

  lemma OneCall(rows: seq<Effect>, op: Op, a: Adapter)
    requires op.adapters == [a] && op.budget.None? && !HasSucceeded(rows, EffectKey(op.req, a.provider))
    ensures var key := EffectKey(op.req, a.provider);
            var run := Execute(rows, op.adapters, op.req, op.budget, op.replies);
            && run.rows == Complete(Reserve(rows, key), Find(rows, key), op.replies(0))
            && run.calls == [key]
  {
    var key := EffectKey(op.req, a.provider);
    assert [] + [key] == [key];
    if Retriable(op.replies(0)) {
      TurnGoesOn(rows, op.adapters, 0, op.req, op.budget, None, op.replies, []);
    } else {
      TurnEnds(rows, op.adapters, 0, op.req, op.budget, None, op.replies, []);
    }
  }

  lemma CalledHadNotSucceeded(rows: seq<Effect>, op: Op, k: EffectKey)
    requires HasSucceeded(rows, k)
    ensures var stop := FirstStop(rows, op.adapters, 0, op.req, op.budget, op.replies);
            var upTo := CalledUpTo(rows, op.adapters, stop, op.req, op.budget, op.replies);
            k !in KeysOf(op.adapters, 0, upTo, op.req)
  {
    var stop := FirstStop(rows, op.adapters, 0, op.req, op.budget, op.replies);
    var upTo := CalledUpTo(rows, op.adapters, stop, op.req, op.budget, op.replies);
    forall i: nat | i < upTo ensures EffectKey(op.req, op.adapters[i].provider) != k {
      assert VerdictOf(rows, op.adapters[i], op.req, op.budget, op.replies(i)) != Already;
    }
  }

  lemma ExecuteBooksOnly(rows: seq<Effect>, op: Op)
    requires RowsOk(rows)
    ensures var stop := FirstStop(rows, op.adapters, 0, op.req, op.budget, op.replies);
            BookedOnly(rows, op.req, ProviderAt(op.adapters, stop),
                       Execute(rows, op.adapters, op.req, op.budget, op.replies))
  {
    WaterfallFrom(rows, rows, op.adapters, 0, op.req, op.budget, None, op.replies, []);
  }

  /** A success stays, and nobody calls the adapter for it again. */
  lemma ExecuteRespectsSuccess(rows: seq<Effect>, op: Op, k: EffectKey)
    requires RowsOk(rows)
    ensures var run := Execute(rows, op.adapters, op.req, op.budget, op.replies);
            RowsOk(run.rows) && (HasSucceeded(rows, k) ==> HasSucceeded(run.rows, k) && k !in run.calls)
  {
    ExecuteBooksOnly(rows, op);
    if HasSucceeded(rows, k) {
      WaterfallIsFirstStop(rows, op.adapters, op.req, op.budget, op.replies);
      CalledHadNotSucceeded(rows, op, k);
    }
  }

  lemma {:induction false} RunKeepsRows(rows: seq<Effect>, ops: seq<Op>)
    requires RowsOk(rows)
    ensures RowsOk(RunAll(rows, ops).0)
  {
    if ops != [] {
      RunKeepsRows(rows, ops[..|ops| - 1]);
      ExecuteRespectsSuccess(RunAll(rows, ops[..|ops| - 1]).0, ops[|ops| - 1], EffectKey(ops[0].req, ""));
    }
  }

  /** A succeeded effect is never executed again, whatever is executed afterwards. */
  lemma {:induction false} SucceededNeverCalledAgain(rows: seq<Effect>, ops: seq<Op>, k: EffectKey)
    requires RowsOk(rows) && HasSucceeded(rows, k)
    ensures k !in RunAll(rows, ops).1 && HasSucceeded(RunAll(rows, ops).0, k)
  {
    if ops != [] {
      SucceededNeverCalledAgain(rows, ops[..|ops| - 1], k);
      RunKeepsRows(rows, ops[..|ops| - 1]);
      ExecuteRespectsSuccess(RunAll(rows, ops[..|ops| - 1]).0, ops[|ops| - 1], k);
    }
  }

  /** Every adapter charges at most the price it declares. */
  ghost predicate Fair(op: Op) {
    forall i | 0 <= i < |op.adapters| && op.replies(i).ok :: 0 <= op.replies(i).cost <= op.adapters[i].price
  }

  predicate OfJob(op: Op, org: string, job: string) {
    op.req.org == org && op.req.job == Some(job)
  }

  /** An adapter that answers was affordable. */
  lemma AnswerWasAffordable(rows: seq<Effect>, op: Op)
    requires op.budget.Some? && Spent(rows, op.req) <= op.budget.value && Fair(op)
    ensures var stop := FirstStop(rows, op.adapters, 0, op.req, op.budget, op.replies);
            stop < |op.adapters| && op.replies(stop).ok
            && VerdictOf(rows, op.adapters[stop], op.req, op.budget, op.replies(stop)) == Final
            ==> Spent(rows, op.req) + op.replies(stop).cost <= op.budget.value
  {
  }

  lemma ExecuteWithinBudget(rows: seq<Effect>, op: Op, org: string, job: string, budget: int)
    requires RowsOk(rows) && Fair(op) && Booked(rows, org, job) <= budget
    requires OfJob(op, org, job) && op.budget == Some(budget)
    ensures Booked(Execute(rows, op.adapters, op.req, op.budget, op.replies).rows, org, job) <= budget
  {
    ExecuteBooksOnly(rows, op);
    WaterfallIsFirstStop(rows, op.adapters, op.req, op.budget, op.replies);
    AnswerWasAffordable(rows, op);
    var run := Execute(rows, op.adapters, op.req, op.budget, op.replies);
    assert Spent(run.rows, op.req) == Booked(run.rows, org, job) && Spent(rows, op.req) == Booked(rows, org, job);
  }

  lemma {:induction false} OtherJobsUnbooked(rows: seq<Effect>, adapters: seq<Adapter>, i: nat, req: Request,
                                             budget: Option<int>, spent: Option<int>, replies: nat -> Reply,
                                             calls: seq<EffectKey>, org: string, job: string)
    requires RowsOk(rows) && i <= |adapters| && !(req.org == org && req.job == Some(job))
    requires spent.None? || budget.Some?
    ensures Booked(Waterfall(rows, adapters, i, req, budget, spent, replies, calls).rows, org, job)
            == Booked(rows, org, job)
    decreases |adapters| - i
  {
    if i < |adapters| {
      var key := EffectKey(req, adapters[i].provider);
      if !HasSucceeded(rows, key) {
        OneEffect(rows, key, OUT_OF_BUDGET, org, job);
        OneEffect(rows, key, replies(i), org, job);
        var spent1 := SpentOnce(Reserve(rows, key), adapters[i], req, budget, spent);
        var rows2 := Complete(Reserve(rows, key), Find(rows, key), replies(i));
        OtherJobsUnbooked(rows2, adapters, i + 1, req, budget, spent1, replies, calls + [key], org, job);
      }
    }
  }

  /** Over any sequence of calls, other jobs' included: if the calls for one job all carry the same
      budget and adapters charge at most what they declare, what is booked for the job stays within it. */
  lemma {:induction false} BudgetNeverExceeded(rows: seq<Effect>, ops: seq<Op>, org: string, job: string, budget: int)
    requires RowsOk(rows) && Booked(rows, org, job) <= budget
    requires forall i | 0 <= i < |ops| && OfJob(ops[i], org, job) :: Fair(ops[i]) && ops[i].budget == Some(budget)
    ensures Booked(RunAll(rows, ops).0, org, job) <= budget
  {
    if ops != [] {
      var before, op := ops[..|ops| - 1], ops[|ops| - 1];
      assert forall i | 0 <= i < |before| :: before[i] == ops[i];
      BudgetNeverExceeded(rows, before, org, job, budget);
      RunKeepsRows(rows, before);
      if OfJob(op, org, job) {
        ExecuteWithinBudget(RunAll(rows, before).0, op, org, job, budget);
      } else {
        OtherJobsUnbooked(RunAll(rows, before).0, op.adapters, 0, op.req, op.budget, None, op.replies, [], org, job);
      }
    }
  }

  /** A call without a job is not held to what was booked before: it is refused exactly if this one
      call is dearer than the whole budget. */
  lemma NoJobNoMemory(rows: seq<Effect>, rows': seq<Effect>, a: Adapter, req: Request, budget: int, reply: Reply)
    requires req.job.None? && !HasSucceeded(rows, EffectKey(req, a.provider))
             && !HasSucceeded(rows', EffectKey(req, a.provider))
    ensures VerdictOf(rows, a, req, Some(budget), reply) == VerdictOf(rows', a, req, Some(budget), reply)
    ensures VerdictOf(rows, a, req, Some(budget), reply) == Unaffordable <==> a.price > 0 && a.price > budget
  {
  }
}
