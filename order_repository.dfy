/** The orders table and the five statements the repository sends to it. The table is a map from
    order id (the primary key) to row; every statement is an insert or a keyed update of named
    columns. The `created_at`/`updated_at` timestamps are not part of this model. */
module OrderRepository {
  import opened OrderTypes
  import opened Journal

  /** One row of the orders table. The nullable columns are `Option`s. */
  datatype OrderRecord = OrderRecord(
    id: OrderId,
    orderType: string,
    baseMint: string,
    quoteMint: string,
    side: OrderSide,
    amount: real,
    status: OrderStatus,
    routedVenue: Option<string>,
    txHash: Option<string>,
    failureReason: Option<string>)

  type Table = map<OrderId, OrderRecord>

  datatype Column =
    | OrderTypeColumn | BaseMintColumn | QuoteMintColumn | SideColumn | AmountColumn
    | StatusColumn | RoutedVenueColumn | TxHashColumn | FailureReasonColumn

  /** `after` is `before` with at most the columns in `cols` changed; the key never changes. */
  predicate OnlyChanged(before: OrderRecord, after: OrderRecord, cols: set<Column>) {
    && after.id == before.id
    && (OrderTypeColumn !in cols ==> after.orderType == before.orderType)
    && (BaseMintColumn !in cols ==> after.baseMint == before.baseMint)
    && (QuoteMintColumn !in cols ==> after.quoteMint == before.quoteMint)
    && (SideColumn !in cols ==> after.side == before.side)
    && (AmountColumn !in cols ==> after.amount == before.amount)
    && (StatusColumn !in cols ==> after.status == before.status)
    && (RoutedVenueColumn !in cols ==> after.routedVenue == before.routedVenue)
    && (TxHashColumn !in cols ==> after.txHash == before.txHash)
    && (FailureReasonColumn !in cols ==> after.failureReason == before.failureReason)
  }

  /** `update orders set <cols> where id = $1`: the same keys, every other row as it was, and in
      row `id`, if there is one, at most the columns `cols` changed. */
  predicate UpdatedOnly(before: Table, after: Table, id: OrderId, cols: set<Column>) {
    && after.Keys == before.Keys
    && (forall k :: k in before && k != id ==> after[k] == before[k])
    && (id in before ==> OnlyChanged(before[id], after[id], cols))
  }

  /** An insert whose id is already a key violates the primary key. */
  datatype DbError = UniqueViolation(id: OrderId)

  /** The row `createOrderRecord` inserts: status `pending` and nulls where nothing is given. */
  function RowOf(o: NewOrder): (r: OrderRecord)
    ensures o.status.None? ==> r.status == Pending
    ensures o.status.Some? ==> r.status == o.status.value
    ensures r.id == o.id && r.routedVenue == o.routedVenue && r.txHash == o.txHash && r.failureReason == o.failureReason
  {
    OrderRecord(o.id, o.orderType, o.baseMint, o.quoteMint, o.side, o.amount,
                o.status.GetOr(Pending), o.routedVenue, o.txHash, o.failureReason)
  }

  /** `insert into orders ...`: fails on an existing id, otherwise adds exactly one row. */
  function Inserted(rows: Table, o: NewOrder): (r: Result<Table, DbError>)
    ensures r.Err? <==> o.id in rows
    ensures r.Err? ==> r.error == UniqueViolation(o.id)
    ensures r.Ok? ==> r.value.Keys == rows.Keys + {o.id} && r.value[o.id] == RowOf(o)
    ensures r.Ok? ==> forall k :: k in rows ==> r.value[k] == rows[k]
  {
    if o.id in rows then Err(UniqueViolation(o.id)) else Ok(rows[o.id := RowOf(o)])
  }

  /** `appendStatus`: sets only the status of row `id`. */
  function WithStatus(rows: Table, id: OrderId, status: OrderStatus): (r: Table)
    ensures UpdatedOnly(rows, r, id, {StatusColumn})
    ensures id in rows ==> r[id].status == status
  {
    if id in rows then rows[id := rows[id].(status := status)] else rows
  }

  /** `recordRouting`: sets only `routed_venue` of row `id`. */
  function WithRoutedVenue(rows: Table, id: OrderId, venue: string): (r: Table)
    ensures UpdatedOnly(rows, r, id, {RoutedVenueColumn})
    ensures id in rows ==> r[id].routedVenue == Some(venue)
  {
    if id in rows then rows[id := rows[id].(routedVenue := Some(venue))] else rows
  }

  /** `recordSuccess`: sets only status `confirmed` and `tx_hash` of row `id`. */
  function WithSuccess(rows: Table, id: OrderId, txHash: string): (r: Table)
    ensures UpdatedOnly(rows, r, id, {StatusColumn, TxHashColumn})
    ensures id in rows ==> r[id].status == Confirmed && r[id].txHash == Some(txHash)
  {
    if id in rows then rows[id := rows[id].(status := Confirmed, txHash := Some(txHash))] else rows
  }

  /** `recordFailure`: sets only status `failed` and `failure_reason` of row `id`. */
  function WithFailure(rows: Table, id: OrderId, reason: string): (r: Table)
    ensures UpdatedOnly(rows, r, id, {StatusColumn, FailureReasonColumn})
    ensures id in rows ==> r[id].status == Failed && r[id].failureReason == Some(reason)
  {
    if id in rows then rows[id := rows[id].(status := Failed, failureReason := Some(reason))] else rows
  }

  /** The table after running `q`; a failed insert leaves the table as it was. */
  function Execute(rows: Table, q: Query): Table {
    match q
    case InsertOrder(o) => (match Inserted(rows, o) case Ok(t) => t case Err(_) => rows)
    case UpdateStatus(id, s) => WithStatus(rows, id, s)
    case UpdateRoutedVenue(id, v) => WithRoutedVenue(rows, id, v)
    case UpdateSuccess(id, h) => WithSuccess(rows, id, h)
    case UpdateFailure(id, reason) => WithFailure(rows, id, reason)
  }

  /** The columns an update statement sets. */
  function Columns(q: Query): set<Column> {
    match q
    case InsertOrder(_) => {}
    case UpdateStatus(_, _) => {StatusColumn}
    case UpdateRoutedVenue(_, _) => {RoutedVenueColumn}
    case UpdateSuccess(_, _) => {StatusColumn, TxHashColumn}
    case UpdateFailure(_, _) => {StatusColumn, FailureReasonColumn}
  }

  /** Every update statement touches at most its own columns of its own row. */
  lemma UpdateFrame(rows: Table, q: Query, cols: set<Column>)
    requires !q.InsertOrder? && Columns(q) <= cols
    ensures UpdatedOnly(rows, Execute(rows, q), q.id, cols)
  {
  }

  /** Two updates confined to the same row and columns are, together, confined to them too. */
  lemma UpdatedOnlyTrans(a: Table, b: Table, c: Table, id: OrderId, cols: set<Column>)
    requires UpdatedOnly(a, b, id, cols) && UpdatedOnly(b, c, id, cols)
    ensures UpdatedOnly(a, c, id, cols)
  {
  }

  /** An update of an id that has no row changes nothing. */
  lemma UpdateOfMissingRow(rows: Table, q: Query)
    requires !q.InsertOrder? && q.id !in rows
    ensures Execute(rows, q) == rows
  {
  }

  /** The orders table, updated in place by the repository functions. Each statement sent is
      appended to the journal `log`. */
  class OrderTable {
    var rows: Table

    constructor ()
      ensures rows == map[]
    {
      rows := map[];
    }

    method CreateOrderRecord(order: NewOrder, ghost log: Log) returns (r: Result<(), DbError>)
      modifies this, log
      ensures log.effects == old(log.effects) + [Persist(InsertOrder(order))]
      ensures r.Err? <==> order.id in old(rows)
      ensures r.Err? ==> r.error == UniqueViolation(order.id)
      ensures rows == Execute(old(rows), InsertOrder(order))
    {
      var inserted := Inserted(rows, order);
      log.effects := log.effects + [Persist(InsertOrder(order))];
      match inserted
      case Ok(t) =>
        rows := t;
        r := Ok(());
      case Err(e) =>
        r := Err(e);
    }

    method AppendStatus(id: OrderId, status: OrderStatus, ghost log: Log)
      modifies this, log
      ensures log.effects == old(log.effects) + [Persist(UpdateStatus(id, status))]
      ensures rows == Execute(old(rows), UpdateStatus(id, status))
    {
      rows := WithStatus(rows, id, status);
      log.effects := log.effects + [Persist(UpdateStatus(id, status))];
    }

    method RecordRouting(id: OrderId, venue: string, ghost log: Log)
      modifies this, log
      ensures log.effects == old(log.effects) + [Persist(UpdateRoutedVenue(id, venue))]
      ensures rows == Execute(old(rows), UpdateRoutedVenue(id, venue))
    {
      rows := WithRoutedVenue(rows, id, venue);
      log.effects := log.effects + [Persist(UpdateRoutedVenue(id, venue))];
    }

    method RecordSuccess(id: OrderId, txHash: string, ghost log: Log)
      modifies this, log
      ensures log.effects == old(log.effects) + [Persist(UpdateSuccess(id, txHash))]
      ensures rows == Execute(old(rows), UpdateSuccess(id, txHash))
    {
      rows := WithSuccess(rows, id, txHash);
      log.effects := log.effects + [Persist(UpdateSuccess(id, txHash))];
    }

    method RecordFailure(id: OrderId, reason: string, ghost log: Log)
      modifies this, log
      ensures log.effects == old(log.effects) + [Persist(UpdateFailure(id, reason))]
      ensures rows == Execute(old(rows), UpdateFailure(id, reason))
    {
      rows := WithFailure(rows, id, reason);
      log.effects := log.effects + [Persist(UpdateFailure(id, reason))];
    }
  }
}
