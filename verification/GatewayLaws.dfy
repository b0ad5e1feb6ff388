/** What a call of `execute` does, said on the classes of the replies and the rows of the ledger. */
module GatewayLaws {
  import opened Common
  import opened Gateway
  import opened GatewayProofs

  // ---------------------------------------------------------------- one adapter, judged beforehand

  /** The effect has a row that says it succeeded. */
  ghost predicate Done(rows: seq<Effect>, key: EffectKey) {
    exists r | 0 <= r < |rows| :: rows[r].key == key && rows[r].status == Succeeded
  }

  predicate Affordable(a: Adapter, budget: Option<int>, spent: int) {
    budget.None? || a.price == 0 || a.price <= budget.value - spent
  }

  /** A failure of one of the classes that leave the request to the next adapter. */
  predicate PassesOn(reply: Reply) {
    !reply.ok && match reply.failure
                 case None => false
                 case Some(c) => c == Transient || c == RateLimit || c == Capacity || c == Ambiguous
  }

  lemma DoneIff(rows: seq<Effect>, key: EffectKey)
    requires RowsOk(rows)
    ensures Done(rows, key) <==> HasSucceeded(rows, key)
  {
    var i := Find(rows, key);
    if r: nat :| r < |rows| && rows[r].key == key && rows[r].status == Succeeded {
      assert r == i;
    }
  }

  /** Adapter `i` is to be called if the waterfall comes to it. */
  ghost predicate Callable(rows: seq<Effect>, a: Adapter, req: Request, budget: Option<int>) {
    !Done(rows, EffectKey(req, a.provider)) && Affordable(a, budget, Spent(rows, req))
  }

  lemma VerdictMeans(rows: seq<Effect>, a: Adapter, req: Request, budget: Option<int>, reply: Reply)
    requires RowsOk(rows)
    ensures VerdictOf(rows, a, req, budget, reply)
            == if Done(rows, EffectKey(req, a.provider)) then Already
               else if !Affordable(a, budget, Spent(rows, req)) then Unaffordable
               else if PassesOn(reply) then TryNext else Final
  {
    DoneIff(rows, EffectKey(req, a.provider));
  }

  // ---------------------------------------------------------------- the whole call

  /** The request goes from adapter to adapter while each can be called, is, and fails with one of the four
      classes that pass it on. It ends at the first that is done already, cannot be paid for, succeeds or
      fails otherwise: the result is that adapter's, and nobody after it is called. */
  lemma ExecuteMeans(rows: seq<Effect>, adapters: seq<Adapter>, req: Request, budget: Option<int>,
                     replies: nat -> Reply)
    returns (stop: nat)
    requires RowsOk(rows)
    ensures stop <= |adapters|
    ensures forall i | 0 <= i < stop :: Callable(rows, adapters[i], req, budget) && PassesOn(replies(i))
    ensures stop < |adapters| ==> !(Callable(rows, adapters[stop], req, budget) && PassesOn(replies(stop)))
    ensures var run := Execute(rows, adapters, req, budget, replies);
            if stop == |adapters| then run.outcome == NoProvider && run.calls == KeysOf(adapters, 0, stop, req)
            else if Done(rows, EffectKey(req, adapters[stop].provider)) then
              && run.outcome.CachedEffect? && run.outcome.id < |rows|
              && rows[run.outcome.id].key == EffectKey(req, adapters[stop].provider)
              && rows[run.outcome.id].status == Succeeded
              && run.calls == KeysOf(adapters, 0, stop, req)
            else if !Affordable(adapters[stop], budget, Spent(rows, req)) then
              run.outcome == BudgetExhausted && run.calls == KeysOf(adapters, 0, stop, req)
            else run.outcome == FromAdapter(stop, replies(stop)) && run.calls == KeysOf(adapters, 0, stop + 1, req)
  {
    WaterfallIsFirstStop(rows, adapters, req, budget, replies);
    stop := FirstStop(rows, adapters, 0, req, budget, replies);
    forall i | 0 <= i < stop ensures Callable(rows, adapters[i], req, budget) && PassesOn(replies(i)) {
      VerdictMeans(rows, adapters[i], req, budget, replies(i));
    }
    if stop < |adapters| {
      VerdictMeans(rows, adapters[stop], req, budget, replies(stop));
      DoneIff(rows, EffectKey(req, adapters[stop].provider));
    }
  }

  ghost predicate ListedOnce(adapters: seq<Adapter>) {
    forall i, j | 0 <= i < j < |adapters| :: adapters[i].provider != adapters[j].provider
  }

  /** An adapter that was called and failed with class Transient, RateLimit, Capacity or Ambiguous is not
      what the caller hears of, and the next one is called if it can be. */
  lemma FailurePassesOn(rows: seq<Effect>, adapters: seq<Adapter>, i: nat, req: Request, budget: Option<int>,
                        replies: nat -> Reply, failure: FailureClass)
    requires RowsOk(rows) && ListedOnce(adapters) && i < |adapters|
    requires EffectKey(req, adapters[i].provider) in Execute(rows, adapters, req, budget, replies).calls
    requires !replies(i).ok && replies(i).failure == Some(failure)
    requires failure in {Transient, FailureClass.RateLimit, FailureClass.Capacity, Ambiguous}
    ensures var run := Execute(rows, adapters, req, budget, replies);
            && (run.outcome.FromAdapter? ==> run.outcome.index != i)
            && (i + 1 == |adapters| ==> run.outcome == NoProvider)
            && (i + 1 < |adapters| ==>
                  (EffectKey(req, adapters[i + 1].provider) in run.calls
                   <==> Callable(rows, adapters[i + 1], req, budget)))
  {
    var stop := ExecuteMeans(rows, adapters, req, budget, replies);
    CalledAt(rows, adapters, i, req, budget, replies, stop);
    if i + 1 < |adapters| {
      CalledAt(rows, adapters, i + 1, req, budget, replies, stop);
    }
  }

  /** One that failed in any other way, or succeeded, is what the caller hears of, and nobody after it is
      called. */
  lemma AnswerIsFinal(rows: seq<Effect>, adapters: seq<Adapter>, i: nat, req: Request, budget: Option<int>,
                      replies: nat -> Reply)
    requires RowsOk(rows) && ListedOnce(adapters) && i < |adapters|
    requires EffectKey(req, adapters[i].provider) in Execute(rows, adapters, req, budget, replies).calls
    requires replies(i).ok
             || replies(i).failure in {None, Some(FailureClass.Auth), Some(FailureClass.Validation),
                                       Some(NotSupported), Some(Permanent)}
    ensures var run := Execute(rows, adapters, req, budget, replies);
            && run.outcome == FromAdapter(i, replies(i))
            && forall j | i < j < |adapters| :: EffectKey(req, adapters[j].provider) !in run.calls
  {
    var stop := ExecuteMeans(rows, adapters, req, budget, replies);
    CalledAt(rows, adapters, i, req, budget, replies, stop);
    forall j | i < j < |adapters|
      ensures EffectKey(req, adapters[j].provider) !in Execute(rows, adapters, req, budget, replies).calls
    {
      CalledAt(rows, adapters, j, req, budget, replies, stop);
    }
  }

  lemma CalledAt(rows: seq<Effect>, adapters: seq<Adapter>, i: nat, req: Request, budget: Option<int>,
                 replies: nat -> Reply, stop: nat)
    requires RowsOk(rows) && ListedOnce(adapters) && i < |adapters| && stop <= |adapters|
    requires forall j | 0 <= j < stop :: Callable(rows, adapters[j], req, budget) && PassesOn(replies(j))
    requires stop < |adapters| ==> !(Callable(rows, adapters[stop], req, budget) && PassesOn(replies(stop)))
    ensures EffectKey(req, adapters[i].provider) in Execute(rows, adapters, req, budget, replies).calls
            <==> i < stop || (i == stop && Callable(rows, adapters[i], req, budget))
  {
    CalledIff(rows, adapters, i, req, budget, replies);
    DoneIff(rows, EffectKey(req, adapters[i].provider));
    var first := FirstStop(rows, adapters, 0, req, budget, replies);
    forall j | 0 <= j < |adapters|
      ensures VerdictOf(rows, adapters[j], req, budget, replies(j)) == TryNext
              <==> Callable(rows, adapters[j], req, budget) && PassesOn(replies(j))
    {
      VerdictMeans(rows, adapters[j], req, budget, replies(j));
    }
    assert first == stop;
  }

  // ---------------------------------------------------------------- the ledger afterwards

  /** What is on record about an effect. */
  function RowOf(rows: seq<Effect>, key: EffectKey): Option<Effect> {
    var i := Find(rows, key);
    if i < |rows| then Some(rows[i]) else None
  }

  /** The row of an effect whose adapter has replied: what it cost if it succeeded; `uncertain` exactly if
      it may have happened all the same. */
  function Replied(key: EffectKey, reply: Reply): Effect {
    if reply.ok then Effect(key, Succeeded, reply.cost)
    else match reply.failure
      case Some(Ambiguous) => Effect(key, Uncertain, 0)
      case _ => Effect(key, Failed, 0)
  }

  lemma ReservedRow(rows: seq<Effect>, key: EffectKey, k: EffectKey)
    requires RowsOk(rows) && k != key
    ensures RowOf(Reserve(rows, key), k) == RowOf(rows, k)
  {
    if Find(rows, key) == |rows| {
      FindInMore(rows, Effect(key, Reserved, 0), k);
    } else {
      FindSameKeys(rows, Reserve(rows, key), k);
    }
  }

  lemma CompletedRow(rows: seq<Effect>, id: nat, reply: Reply, k: EffectKey)
    requires RowsOk(rows) && id < |rows|
    ensures RowOf(Complete(rows, id, reply), k)
            == if k == rows[id].key then Some(Replied(k, reply)) else RowOf(rows, k)
  {
    FindSameKeys(rows, Complete(rows, id, reply), k);
    assert k == rows[id].key ==> Find(rows, k) == id;
  }

  lemma OneReply(rows: seq<Effect>, key: EffectKey, reply: Reply, k: EffectKey)
    requires RowsOk(rows) && !HasSucceeded(rows, key)
    ensures var rows' := Complete(Reserve(rows, key), Find(rows, key), reply);
            RowsOk(rows') && RowOf(rows', k) == if k == key then Some(Replied(key, reply)) else RowOf(rows, k)
  {
    ReserveKeepsRows(rows, key);
    CompleteBooks(Reserve(rows, key), Find(rows, key), reply, "", "");
    CompletedRow(Reserve(rows, key), Find(rows, key), reply, k);
    if k != key {
      ReservedRow(rows, key, k);
    }
  }

  /** A waterfall at adapter `i` touches no row but those of the adapters from there on. */
  lemma {:induction false} OthersUntouched(rows: seq<Effect>, adapters: seq<Adapter>, i: nat, req: Request,
                                           budget: Option<int>, spent: Option<int>, replies: nat -> Reply,
                                           calls: seq<EffectKey>, k: EffectKey)
    requires RowsOk(rows) && i <= |adapters|
    requires forall m | i <= m < |adapters| :: k != EffectKey(req, adapters[m].provider)
    ensures RowOf(Waterfall(rows, adapters, i, req, budget, spent, replies, calls).rows, k) == RowOf(rows, k)
    decreases |adapters| - i
  {
    if i < |adapters| {
      var key := EffectKey(req, adapters[i].provider);
      if !HasSucceeded(rows, key) {
        OneReply(rows, key, OUT_OF_BUDGET, k);
        OneReply(rows, key, replies(i), k);
        var spent1 := SpentOnce(Reserve(rows, key), adapters[i], req, budget, spent);
        OthersUntouched(Complete(Reserve(rows, key), Find(rows, key), replies(i)), adapters, i + 1, req, budget, spent1,
                        replies, calls + [key], k);
      }
    }
  }

  /** Adapters called since there were `calls`. */
  function CallsSince(run: Run, calls: seq<EffectKey>): int {
    |run.calls| - |calls|
  }

  /** Of the adapters from `i` on: an effect whose adapter was called is on record with what came of it; the
      next one, if it could not be paid for, as failed, whatever was on record before; no other changes. */
  lemma {:induction false} RecordsFrom(rows: seq<Effect>, adapters: seq<Adapter>, i: nat, req: Request,
                                       budget: Option<int>, spent: Option<int>, replies: nat -> Reply,
                                       calls: seq<EffectKey>, j: nat)
    requires RowsOk(rows) && ListedOnce(adapters) && i <= j < |adapters|
    ensures var run := Waterfall(rows, adapters, i, req, budget, spent, replies, calls);
            var key, n := EffectKey(req, adapters[j].provider), CallsSince(run, calls);
            && n >= 0
            && RowOf(run.rows, key)
               == if j < i + n then Some(Replied(key, replies(j)))
                  else if j == i + n && run.outcome == BudgetExhausted then Some(Effect(key, Failed, 0))
                  else RowOf(rows, key)
    decreases |adapters| - i
  {
    var first, key := EffectKey(req, adapters[i].provider), EffectKey(req, adapters[j].provider);
    if !HasSucceeded(rows, first) {
      OneReply(rows, first, OUT_OF_BUDGET, key);
      OneReply(rows, first, replies(i), key);
      var spent1 := SpentOnce(Reserve(rows, first), adapters[i], req, budget, spent);
      var rows2 := Complete(Reserve(rows, first), Find(rows, first), replies(i));
      if j > i {
        RecordsFrom(rows2, adapters, i + 1, req, budget, spent1, replies, calls + [first], j);
      } else {
        OthersUntouched(rows2, adapters, i + 1, req, budget, spent1, replies, calls + [first], key);
        CallsOnlyGrow(rows2, adapters, i + 1, req, budget, spent1, replies, calls + [first]);
      }
    }
  }

  lemma {:induction false} CallsOnlyGrow(rows: seq<Effect>, adapters: seq<Adapter>, i: nat, req: Request,
                                         budget: Option<int>, spent: Option<int>, replies: nat -> Reply,
                                         calls: seq<EffectKey>)
    requires i <= |adapters|
    ensures CallsSince(Waterfall(rows, adapters, i, req, budget, spent, replies, calls), calls) >= 0
    decreases |adapters| - i
  {
    if i < |adapters| {
      var key := EffectKey(req, adapters[i].provider);
      var spent1 := SpentOnce(Reserve(rows, key), adapters[i], req, budget, spent);
      CallsOnlyGrow(Complete(Reserve(rows, key), Find(rows, key), replies(i)), adapters, i + 1, req, budget, spent1,
                    replies, calls + [key]);
    }
  }

  /** What `execute` leaves on record of each adapter's effect, and that it leaves the rest alone. */
  lemma RecordsMean(rows: seq<Effect>, adapters: seq<Adapter>, req: Request, budget: Option<int>, replies: nat -> Reply,
                    k: EffectKey)
    requires RowsOk(rows) && ListedOnce(adapters)
    ensures var run := Execute(rows, adapters, req, budget, replies);
            && |run.calls| <= |adapters|
            && (forall j | 0 <= j < |adapters| && k == EffectKey(req, adapters[j].provider) ::
                  RowOf(run.rows, k)
                  == if j < |run.calls| then Some(Replied(k, replies(j)))
                     else if j == |run.calls| && run.outcome == BudgetExhausted then Some(Effect(k, Failed, 0))
                     else RowOf(rows, k))
            && ((forall j | 0 <= j < |adapters| :: k != EffectKey(req, adapters[j].provider)) ==>
                  RowOf(run.rows, k) == RowOf(rows, k))
  {
    var stop := ExecuteMeans(rows, adapters, req, budget, replies);
    forall j | 0 <= j < |adapters| && k == EffectKey(req, adapters[j].provider)
      ensures var run := Execute(rows, adapters, req, budget, replies);
              RowOf(run.rows, k)
              == if j < |run.calls| then Some(Replied(k, replies(j)))
                 else if j == |run.calls| && run.outcome == BudgetExhausted then Some(Effect(k, Failed, 0))
                 else RowOf(rows, k)
    {
      RecordsFrom(rows, adapters, 0, req, budget, None, replies, [], j);
    }
    if forall j | 0 <= j < |adapters| :: k != EffectKey(req, adapters[j].provider) {
      OthersUntouched(rows, adapters, 0, req, budget, None, replies, [], k);
    }
  }
}
