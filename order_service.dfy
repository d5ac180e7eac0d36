/** `submitMarketOrder`: the market-order schema, which validates the payload and fills in the
    default slippage, then the pending order row, then the queued job. The generated order id is
    an input. */
module OrderService {
  import opened OrderTypes
  import opened Journal
  import opened OrderRepository
  import opened Effects

  /** The submitted payload as received; `slippageBps` may be absent. */
  datatype RawPayload = RawPayload(
    orderType: string,
    baseMint: string,
    quoteMint: string,
    side: string,
    amount: real,
    slippageBps: Option<real>)

  /** The fields the schema checks, in its order. */
  datatype Field = OrderTypeField | BaseMintField | QuoteMintField | SideField | AmountField | SlippageField

  /** The slippage used when the payload gives none. */
  const DefaultSlippageBps: int := 250

  /** The largest slippage accepted. */
  const MaxSlippageBps: int := 1000

  predicate IsInteger(x: real) {
    x == x.Floor as real
  }

  /** What the schema demands of each field: the literal `market`, non-empty mints, `buy` or
      `sell`, a positive amount, and a slippage that is, when given, an integer in 1..1000. */
  predicate FieldValid(p: RawPayload, f: Field) {
    match f
    case OrderTypeField => p.orderType == "market"
    case BaseMintField => |p.baseMint| >= 1
    case QuoteMintField => |p.quoteMint| >= 1
    case SideField => p.side == "buy" || p.side == "sell"
    case AmountField => p.amount > 0.0
    case SlippageField =>
      p.slippageBps.None? ||
      (IsInteger(p.slippageBps.value) && p.slippageBps.value > 0.0 && p.slippageBps.value <= MaxSlippageBps as real)
  }

  /** Position of a field in the schema. */
  function Rank(f: Field): nat {
    match f
    case OrderTypeField => 0
    case BaseMintField => 1
    case QuoteMintField => 2
    case SideField => 3
    case AmountField => 4
    case SlippageField => 5
  }

  /** Every field the payload gets wrong, each once, in schema order (the schema reports all of
      them). */
  function Issues(p: RawPayload): (r: seq<Field>)
    ensures forall f :: f in r <==> !FieldValid(p, f)
    ensures Ranked(r)
  {
    var all := [OrderTypeField, BaseMintField, QuoteMintField, SideField, AmountField, SlippageField];
    assert forall f: Field :: f in all by {
      forall f: Field ensures f in all {
        assert all[Rank(f)] == f;
      }
    }
    FailingFields(p, all)
  }

  /** Strictly increasing schema positions: schema order, each field at most once. */
  predicate Ranked(fs: seq<Field>) {
    forall i, j :: 0 <= i < j < |fs| ==> Rank(fs[i]) < Rank(fs[j])
  }

  /** The fields of `fs` that `p` gets wrong, in the order of `fs`. */
  function FailingFields(p: RawPayload, fs: seq<Field>): (r: seq<Field>)
    ensures forall f :: f in r <==> f in fs && !FieldValid(p, f)
    ensures Ranked(fs) ==> Ranked(r)
  {
    if fs == [] then []
    else
      var rest := FailingFields(p, fs[1..]);
      assert Ranked(fs) ==> forall f :: f in rest ==> Rank(fs[0]) < Rank(f) by {
        if Ranked(fs) {
          forall f | f in rest ensures Rank(fs[0]) < Rank(f) {
            var i :| 0 <= i < |fs[1..]| && fs[1..][i] == f;
            assert fs[i + 1] == f;
          }
        }
      }
      (if FieldValid(p, fs[0]) then [] else [fs[0]]) + rest
  }

  /** Every field is valid exactly when the schema's conditions all hold. */
  lemma SchemaConditions(p: RawPayload)
    ensures (forall f :: FieldValid(p, f)) <==>
      !(|| p.orderType != "market" || p.baseMint == [] || p.quoteMint == []
        || (p.side != "buy" && p.side != "sell") || p.amount <= 0.0
        || (p.slippageBps.Some? &&
            (!IsInteger(p.slippageBps.value) || p.slippageBps.value <= 0.0 || p.slippageBps.value > 1000.0)))
  {
    if forall f :: FieldValid(p, f) {
      assert && FieldValid(p, OrderTypeField) && FieldValid(p, BaseMintField) && FieldValid(p, QuoteMintField)
             && FieldValid(p, SideField) && FieldValid(p, AmountField) && FieldValid(p, SlippageField);
    }
  }

  /** The validated body. */
  datatype MarketOrder = MarketOrder(
    orderType: string,
    baseMint: string,
    quoteMint: string,
    side: OrderSide,
    amount: real,
    slippageBps: int)

  function SideOf(s: string): OrderSide {
    if s == "buy" then Buy else Sell
  }

  /** `marketOrderSchema.parse`: the body, or every issue found. */
  function ParseMarketOrder(p: RawPayload): (r: Result<MarketOrder, seq<Field>>)
    ensures r.Err? <==>
      (|| p.orderType != "market" || p.baseMint == [] || p.quoteMint == []
       || (p.side != "buy" && p.side != "sell") || p.amount <= 0.0
       || (p.slippageBps.Some? &&
           (!IsInteger(p.slippageBps.value) || p.slippageBps.value <= 0.0 || p.slippageBps.value > 1000.0)))
    ensures r.Err? ==> r.error != [] && forall f :: f in r.error <==> !FieldValid(p, f)
    ensures r.Ok? ==>
      && r.value.orderType == "market" && r.value.baseMint == p.baseMint && r.value.quoteMint == p.quoteMint
      && (r.value.side == Buy <==> p.side == "buy") && (r.value.side == Sell <==> p.side == "sell")
      && r.value.amount == p.amount > 0.0
      && 1 <= r.value.slippageBps <= MaxSlippageBps
      && (p.slippageBps.None? ==> r.value.slippageBps == DefaultSlippageBps)
      && (p.slippageBps.Some? ==> r.value.slippageBps as real == p.slippageBps.value)
  {
    var issues := Issues(p);
    SchemaConditions(p);
    if issues != [] then
      assert !FieldValid(p, issues[0]);
      Err(issues)
    else
      assert forall f :: FieldValid(p, f) by {
        forall f ensures FieldValid(p, f) { assert f !in issues; }
      }
      Ok(MarketOrder(p.orderType, p.baseMint, p.quoteMint, SideOf(p.side), p.amount,
                     match p.slippageBps case None => DefaultSlippageBps case Some(v) => v.Floor))
  }

  /** The row `createOrderRecord` is asked to insert: status `pending`, the nullable columns left out. */
  function OrderRow(body: MarketOrder, orderId: OrderId): NewOrder {
    NewOrder(orderId, body.orderType, body.baseMint, body.quoteMint, body.side, body.amount,
             Some(Pending), None, None, None)
  }

  /** The job data `orderQueue.add` is given. */
  function JobOf(body: MarketOrder, orderId: OrderId): OrderJobData {
    OrderJobData(orderId, body.baseMint, body.quoteMint, body.side, body.amount, body.slippageBps)
  }

  /** Why a submission fails: the schema's issues, or the insert's error. */
  datatype SubmitError = Invalid(issues: seq<Field>) | Rejected(error: DbError)

  /** Every effect of `submitMarketOrder`: nothing for an invalid payload; otherwise the insert,
      then, unless the insert failed, the job named and keyed by the order id. */
  function SubmissionTrace(p: RawPayload, orderId: OrderId, rows: Table): (r: seq<Effect>)
    ensures r == [] <==> ParseMarketOrder(p).Err?
    ensures |r| <= 2
    ensures |r| == 2 <==> ParseMarketOrder(p).Ok? && orderId !in rows
  {
    match ParseMarketOrder(p)
    case Err(_) => []
    case Ok(body) =>
      [Persist(InsertOrder(OrderRow(body, orderId)))]
        + (if orderId in rows then [] else [Enqueue(orderId, JobOf(body, orderId), orderId)])
  }

  /** `orderQueue.add(name, data, { jobId })`: the job is queued. The queue itself is not part of
      this model; only the call is recorded. */
  method AddJob(name: string, data: OrderJobData, jobId: string, ghost log: Log)
    modifies log
    ensures log.effects == old(log.effects) + [Enqueue(name, data, jobId)]
  {
    log.effects := log.effects + [Enqueue(name, data, jobId)];
  }

  /** `submitMarketOrder` with `orderId` as the generated id: the order id, or why it failed. Its
      calls leave exactly `SubmissionTrace` in the journal, in that order. */
  method SubmitMarketOrder(p: RawPayload, orderId: OrderId, store: OrderTable, ghost log: Log)
    returns (r: Result<OrderId, SubmitError>, ghost trace: seq<Effect>)
    modifies store, log
    ensures trace == SubmissionTrace(p, orderId, old(store.rows))
    ensures log.effects == old(log.effects) + trace
    ensures store.rows == ApplyWrites(old(store.rows), trace)
    ensures r.Ok? <==> ParseMarketOrder(p).Ok? && orderId !in old(store.rows)
    ensures r.Ok? ==> r.value == orderId
    ensures r.Err? && ParseMarketOrder(p).Err? ==> r.error == Invalid(ParseMarketOrder(p).error)
    ensures r.Err? && ParseMarketOrder(p).Ok? ==> r.error == Rejected(UniqueViolation(orderId))
  {
    var parsed := ParseMarketOrder(p);
    if parsed.Err? {
      return Err(Invalid(parsed.error)), [];
    }
    var body := parsed.value;
    ghost var rows0 := store.rows;
    var created := store.CreateOrderRecord(OrderRow(body, orderId), log);
    trace := [Persist(InsertOrder(OrderRow(body, orderId)))];
    ApplyOne(rows0, map[], map[], map[], trace[0]);
    if created.Err? {
      return Err(Rejected(created.error)), trace;
    }
    AddJob(orderId, JobOf(body, orderId), orderId, log);
    trace := trace + [Enqueue(orderId, JobOf(body, orderId), orderId)];
    ApplyWritesAppend(rows0, [Persist(InsertOrder(OrderRow(body, orderId)))], [Enqueue(orderId, JobOf(body, orderId), orderId)]);
    r := Ok(orderId);
  }

  /** A payload the schema rejects creates no row and queues no job. */
  lemma RejectionHasNoEffects(p: RawPayload, orderId: OrderId, rows: Table)
    requires ParseMarketOrder(p).Err?
    ensures SubmissionTrace(p, orderId, rows) == []
    ensures ApplyWrites(rows, SubmissionTrace(p, orderId, rows)) == rows
  {
  }

  /** An accepted payload is inserted exactly once, as a pending row, and only then queued; the
      job's name, its `orderId` and its job id are the generated id. */
  lemma CreateThenEnqueue(p: RawPayload, orderId: OrderId, rows: Table)
    requires ParseMarketOrder(p).Ok? && orderId !in rows
    ensures var t := SubmissionTrace(p, orderId, rows);
            var body := ParseMarketOrder(p).value;
            && |t| == 2
            && t[0].Persist? && t[0].query.InsertOrder? && t[0].query.order.status == Some(Pending)
            && Writes(t) == [t[0].query]
            && t[1].Enqueue? && t[1].name == orderId && t[1].data.orderId == orderId && t[1].jobId == orderId
  {
    var t := SubmissionTrace(p, orderId, rows);
    assert t[..1][..0] == [] && t[..1] == [t[0]];
    assert Writes(t[..1]) == [t[0].query];
    assert Writes(t) == Writes(t[..1]);
  }

  /** The new row: pending, with the payload's fields and null venue, hash and reason; every
      other row as it was. */
  lemma SubmissionRow(p: RawPayload, orderId: OrderId, rows: Table)
    requires ParseMarketOrder(p).Ok? && orderId !in rows
    ensures var after := ApplyWrites(rows, SubmissionTrace(p, orderId, rows));
            && after.Keys == rows.Keys + {orderId}
            && (forall k :: k in rows ==> after[k] == rows[k])
            && after[orderId] == OrderRecord(orderId, "market", p.baseMint, p.quoteMint, ParseMarketOrder(p).value.side,
                                             p.amount, Pending, None, None, None)
  {
    var body := ParseMarketOrder(p).value;
    var ins := Persist(InsertOrder(OrderRow(body, orderId)));
    var enq := Enqueue(orderId, JobOf(body, orderId), orderId);
    ApplyWritesAppend(rows, [ins], [enq]);
    ApplyOne(rows, map[], map[], map[], ins);
  }

  /** The queued job copies the payload's mints, side and amount, and carries slippage 250 when
      the payload gives none. */
  lemma JobCopiesPayload(p: RawPayload, orderId: OrderId)
    requires ParseMarketOrder(p).Ok?
    ensures var job := JobOf(ParseMarketOrder(p).value, orderId);
            && job.baseMint == p.baseMint && job.quoteMint == p.quoteMint && job.amount == p.amount
            && (job.side == Buy <==> p.side == "buy")
            && (p.slippageBps.None? ==> job.slippageBps == 250)
  {
  }
}
