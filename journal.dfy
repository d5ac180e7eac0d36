/** The awaited side effects of the order pipeline, and the journal that records them as they
    happen. Every operation that sends a statement to the orders table, emits a status event,
    calls the DEX router, waits or adds a job to the queue appends its effect to the journal, so
    the order of a pipeline's calls is visible in the journal it leaves. */
module Journal {
  import opened OrderTypes

  /** Argument of `createOrderRecord`: status and the nullable columns may be left out. */
  datatype NewOrder = NewOrder(
    id: OrderId,
    orderType: string,
    baseMint: string,
    quoteMint: string,
    side: OrderSide,
    amount: real,
    status: Option<OrderStatus>,
    routedVenue: Option<string>,
    txHash: Option<string>,
    failureReason: Option<string>)

  /** The statements the repository issues. */
  datatype Query =
    | InsertOrder(order: NewOrder)
    | UpdateStatus(id: OrderId, status: OrderStatus)
    | UpdateRoutedVenue(id: OrderId, venue: string)
    | UpdateSuccess(id: OrderId, txHash: string)
    | UpdateFailure(id: OrderId, reason: string)

  /** One awaited step: a statement sent to the orders table, a status event emitted to the
      order's observers, a call to the DEX router, a timer delay, or a job added to the queue. */
  datatype Effect =
    | Persist(query: Query)
    | Notify(orderId: OrderId, event: Event)
    | QueryRouter(baseMint: string, quoteMint: string, amount: real)
    | Sleep(ms: nat)
    | Enqueue(name: string, data: OrderJobData, jobId: string)

  /** The effects performed so far, in the order they were performed. */
  class Log {
    ghost var effects: seq<Effect>

    constructor ()
      ensures effects == []
    {
      effects := [];
    }
  }
}
