/** Vocabulary shared by the order execution service: order status and side, DEX venues,
    quotes and routes, the stage events sent to observers and the data carried by a queued job. */
module OrderTypes {

  type OrderId = string

  datatype Option<+T> = None | Some(value: T) {
    /** The value, or `default` when absent (the `??` operator). */
    function GetOr(default: T): T {
      match this
      case Some(v) => v
      case None => default
    }
  }

  datatype Result<+T, +E> = Ok(value: T) | Err(error: E)

  datatype OrderSide = Buy | Sell

  /** The six lifecycle stages of an order. */
  datatype OrderStatus = Pending | Routing | Building | Submitted | Confirmed | Failed

  datatype Venue = Raydium | Meteora

  /** The text stored in the `routed_venue` column for a venue. */
  function VenueName(v: Venue): string {
    match v
    case Raydium => "raydium"
    case Meteora => "meteora"
  }

  /** A venue's offered price and liquidity. */
  datatype Quote = Quote(venue: Venue, price: real, liquidity: real)

  /** What the router hands back: the selected venue and price, every candidate quote and a
      settlement reference. */
  datatype Route = Route(venue: Venue, price: real, quotes: seq<Quote>, txHash: string)

  /** Stage-specific detail attached to a status event. */
  datatype Detail =
    | NoDetail
    | BuildingDetail(venue: Venue, quotes: seq<Quote>)
    | SubmittedDetail(txHash: string)
    | ConfirmedDetail(txHash: string, executionPrice: real, venue: Venue)
    | FailedDetail(reason: string, attempts: nat)

  /** The `{ status, detail }` argument of `OrderStream.emit`. */
  datatype Event = Event(status: OrderStatus, detail: Detail)

  /** Data of a queued order job. */
  datatype OrderJobData = OrderJobData(
    orderId: OrderId,
    baseMint: string,
    quoteMint: string,
    side: OrderSide,
    amount: real,
    slippageBps: int)
}
