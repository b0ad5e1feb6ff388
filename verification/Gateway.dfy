/** infrastructure/providers/gateway.py as values: the effect ledger and the provider waterfall.
    Idempotency keys are their ingredients (the hash is taken to be injective); an adapter that raises
    is an adapter whose reply is the failure class of the exception. */
module Gateway {
  import opened Common

  datatype FailureClass =
    | Transient | RateLimit | Capacity | Auth | Validation | NotSupported | Permanent | Ambiguous

  datatype Status = Reserved | Succeeded | Failed | Uncertain

  datatype Request = Request(org: string, job: Option<string>, step: Option<string>, operation: string, params: string)

  datatype EffectKey = EffectKey(req: Request, provider: string)

  /** One ledger row; its id is its position. */
  datatype Effect = Effect(key: EffectKey, status: Status, cost: int)

  /** `serial` is the order of registration. */
  datatype Adapter = Adapter(provider: string, capability: string, priority: int, price: nat, serial: nat)

  datatype Reply = Reply(ok: bool, cost: int, failure: Option<FailureClass>)

  datatype Outcome =
    | CachedEffect(id: nat)
    | BudgetExhausted
    | FromAdapter(index: nat, reply: Reply)
    | NoProvider

  // ---------------------------------------------------------------- the ledger

  /** The row of `key`, or |rows| if there is none. */
  function Find(rows: seq<Effect>, key: EffectKey): (i: nat)
    ensures i <= |rows|
    ensures i < |rows| ==> rows[i].key == key
    ensures forall j | 0 <= j < i :: rows[j].key != key
  {
    if rows == [] then 0
    else if rows[0].key == key then 0
    else
      var rest := Find(rows[1..], key);
      assert forall j | 0 < j <= rest && j < |rows| :: rows[j] == rows[1..][j - 1];
      rest + 1
  }

  predicate HasSucceeded(rows: seq<Effect>, key: EffectKey) {
    Find(rows, key) < |rows| && rows[Find(rows, key)].status == Succeeded
  }

  /** `_Ledger.reserve`, when it does not report the effect as already done. */
  function Reserve(rows: seq<Effect>, key: EffectKey): (rows': seq<Effect>)
    ensures Find(rows, key) < |rows'| && rows'[Find(rows, key)].key == key
  {
    var i := Find(rows, key);
    if i == |rows| then rows + [Effect(key, Reserved, 0)]
    else if rows[i].status == Failed then rows[i := rows[i].(status := Reserved)]
    else rows
  }

  /** `_Ledger.complete`. */
  function Complete(rows: seq<Effect>, id: nat, reply: Reply): seq<Effect>
    requires id < |rows|
  {
    rows[id := rows[id].(
           status := if reply.ok then Succeeded else if reply.failure == Some(Ambiguous) then Uncertain else Failed,
           cost := if reply.ok then reply.cost else 0)]
  }

  function Booked(rows: seq<Effect>, org: string, job: string): int {
    if rows == [] then 0
    else
      var last := rows[|rows| - 1];
      Booked(rows[..|rows| - 1], org, job) +
      (if last.key.req.org == org && last.key.req.job == Some(job) then last.cost else 0)
  }

  /** `_spent_cents`: a call without a job has spent nothing. */
  function Spent(rows: seq<Effect>, req: Request): int {
    if req.job.None? then 0 else Booked(rows, req.org, req.job.value)
  }

  // ---------------------------------------------------------------- the waterfall

  predicate Retriable(reply: Reply) {
    !reply.ok && reply.failure in {Some(Transient), Some(RateLimit), Some(Capacity), Some(Ambiguous)}
  }

  predicate TooDear(a: Adapter, budget: Option<int>, spent: int) {
    budget.Some? && a.price > 0 && a.price > budget.value - spent
  }

  const OUT_OF_BUDGET := Reply(false, 0, Some(Capacity))

  datatype Run = Run(rows: seq<Effect>, outcome: Outcome, calls: seq<EffectKey>)

  /** What the loop knows to be spent once it has looked at `a`. */
  function SpentOnce(rows: seq<Effect>, a: Adapter, req: Request, budget: Option<int>, spent: Option<int>)
    : Option<int>
  {
    if budget.Some? && a.price > 0 && spent.None? then Some(Spent(rows, req)) else spent
  }

  /** The loop of `execute` from adapter `i` on. `spent` is read from the ledger once, before the first
      paid call; `calls` are the effects whose adapter has been called. */
  function Waterfall(rows: seq<Effect>, adapters: seq<Adapter>, i: nat, req: Request, budget: Option<int>,
                     spent: Option<int>, replies: nat -> Reply, calls: seq<EffectKey>): Run
    requires i <= |adapters|
    decreases |adapters| - i
  {
    if i == |adapters| then Run(rows, NoProvider, calls)
    else
      var a := adapters[i];
      var key := EffectKey(req, a.provider);
      var id := Find(rows, key);
      if HasSucceeded(rows, key) then Run(rows, CachedEffect(id), calls)
      else
        var rows1 := Reserve(rows, key);
        var spent1 := SpentOnce(rows1, a, req, budget, spent);
        if spent1.Some? && TooDear(a, budget, spent1.value) then
          Run(Complete(rows1, id, OUT_OF_BUDGET), BudgetExhausted, calls)
        else
          var reply := replies(i);
          var rows2 := Complete(rows1, id, reply);
          if Retriable(reply) then
            Waterfall(rows2, adapters, i + 1, req, budget, spent1, replies, calls + [key])
          else Run(rows2, FromAdapter(i, reply), calls + [key])
  }

  /** One turn of the loop that ends it. */
  lemma TurnEnds(rows: seq<Effect>, adapters: seq<Adapter>, i: nat, req: Request, budget: Option<int>,
                 spent: Option<int>, replies: nat -> Reply, calls: seq<EffectKey>)
    requires i < |adapters|
    ensures var key := EffectKey(req, adapters[i].provider);
            var id := Find(rows, key);
            var rows1 := Reserve(rows, key);
            var spent1 := SpentOnce(rows1, adapters[i], req, budget, spent);
            var run := Waterfall(rows, adapters, i, req, budget, spent, replies, calls);
            if HasSucceeded(rows, key) then run == Run(rows, CachedEffect(id), calls)
            else if spent1.Some? && TooDear(adapters[i], budget, spent1.value) then
              run == Run(Complete(rows1, id, OUT_OF_BUDGET), BudgetExhausted, calls)
            else !Retriable(replies(i)) ==>
              run == Run(Complete(rows1, id, replies(i)), FromAdapter(i, replies(i)), calls + [key])
  {
  }

  /** One turn of the loop that goes on to the next adapter. */
  lemma TurnGoesOn(rows: seq<Effect>, adapters: seq<Adapter>, i: nat, req: Request, budget: Option<int>,
                   spent: Option<int>, replies: nat -> Reply, calls: seq<EffectKey>)
    requires i < |adapters|
    requires var key := EffectKey(req, adapters[i].provider); !HasSucceeded(rows, key)
    requires Retriable(replies(i))
    ensures var key := EffectKey(req, adapters[i].provider);
            var rows1 := Reserve(rows, key);
            var spent1 := SpentOnce(rows1, adapters[i], req, budget, spent);
            !(spent1.Some? && TooDear(adapters[i], budget, spent1.value)) ==>
              Waterfall(rows, adapters, i, req, budget, spent, replies, calls)
              == Waterfall(Complete(rows1, Find(rows, key), replies(i)), adapters, i + 1, req, budget, spent1, replies,
                           calls + [key])
  {
  }

  function Execute(rows: seq<Effect>, adapters: seq<Adapter>, req: Request, budget: Option<int>, replies: nat -> Reply)
    : Run
  {
    Waterfall(rows, adapters, 0, req, budget, None, replies, [])
  }

  // ---------------------------------------------------------------- the registry

  /** The order of the waterfall: by priority, and by registration among equals. */
  predicate Precedes(a: Adapter, b: Adapter) {
    a.priority < b.priority || (a.priority == b.priority && a.serial < b.serial)
  }

  ghost predicate InOrder(adapters: seq<Adapter>) {
    forall i, j | 0 <= i < j < |adapters| :: Precedes(adapters[i], adapters[j])
  }
}
