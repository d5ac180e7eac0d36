# Mock Solana order execution service, modelled in Dafny

The service accepts a market order, records it in the `orders` table and queues a job for it.
A worker takes the job and runs the order lifecycle:

- `routing`: ask a mock DEX router for the better of two venue quotes (Raydium, Meteora) and record the chosen venue;
- `building`;
- `submitted`;
- `confirmed`, recording the settlement reference.

Each status is written to the table and pushed to every WebSocket subscriber of that order.
A failed job attempt is announced as `failed`. The queue retries it up to three attempts in
total. The failure is recorded in the table only on the final attempt.

The model has one module per component:

- `OrderTypes`: statuses, sides, venues, quotes, routes, event details and job data.
- `DexRouter`: the base-price table, quote simulation, best-quote selection and the settlement reference format. The random numbers and the random UUID are parameters.
- `Journal`: the awaited effects of the pipeline (a statement to the table, a status event, a router call, a delay, a queued job) and class `Log`, a ghost journal. Every operation that performs an effect appends it to the journal, so the journal shows the order in which the calls were made.
- `OrderRepository`: the `orders` table as a map from id to row. Each of its five statements is a pure function. Class `OrderTable` holds the rows and has one method per statement. Each method also appends its statement to the journal.
- `Websocket`: class `OrderStream`, the per-order subscription registry. Its fields are the listener sets, the listener records and the sockets (ready state, messages sent, pings). Its methods are registration, emission, removal, heartbeat ticks and the close and error handlers a registration attaches.
- `Effects`: what a trace of effects does to the table and to the sockets, and its events and statements in order.
- `OrderProcessor`: `emitStatus` and `processOrderLifecycle`. They are methods on the table, the stream and the journal. The calls they make are proved to append exactly the trace `LifecycleTrace` to the journal, in that order. The table and the sockets are proved to end as that trace leaves them. The ordering and row properties are lemmas about that trace.
- `OrderWorker`: the job processor, the `'failed'` handler and the queue's retries. The retries are a function of the router's answer at each attempt.
- `OrderService`: `submitMarketOrder`, which validates the payload against the schema, inserts the pending row and enqueues the job.

## Model

| member | source | states |
|---|---|---|
| DexRouter.BasePrice | src/services/dexRouter.ts:13-17 | SOL 100, USDC 1, BONK 0.00002, and the default 5 exactly for a mint the table does not list; always positive |
| DexRouter.BasePriceAsWritten | src/services/dexRouter.ts:24-26 | indexing the object literal yields an inherited member exactly for the `Object.prototype` names, and `BasePrice` for every other mint |
| DexRouter.ConstructorMintHasNoPrice | src/services/dexRouter.ts:24-26 | for the mint "constructor" the code as written gets no number, while the default 5 is evidently intended |
| DexRouter.SimulateQuote | src/services/dexRouter.ts:28-35 | the quote is for the venue asked; for draws in [0, 1) its price lies within `variationBps` basis points of the base price, above it when the direction draw exceeds one half and below it otherwise; liquidity lies between one and two times a positive amount |
| DexRouter.BestIndex | src/services/dexRouter.ts:45-47 | the quote the `reduce` keeps has the highest price, and every earlier quote has a strictly lower price, so the first quote wins a tie |
| DexRouter.StripDashes | src/services/dexRouter.ts:19 | the result has no dashes and is no longer than the input |
| DexRouter.TxHash | src/services/dexRouter.ts:19 | "0x" followed by the UUID text with no dash left in it |
| DexRouter.TxHashFormat | src/services/dexRouter.ts:19 | the settlement reference of a well-formed UUID is "0x" followed by 32 lower-case hex digits, 34 characters in all |
| DexRouter.GetBestRoute | src/services/dexRouter.ts:37-60 | the route carries both quotes (`Quotes`, the two-element array of dexRouter.ts:41-43), Raydium first; its venue and price come from the same quote; that price is the highest; Raydium wins a tie; the reference is built from the given UUID |
| OrderRepository.RowOf | src/repositories/orderRepository.ts:28-31 | the inserted row has status `pending` when none is given, and venue, hash and reason as given (null when absent) |
| OrderRepository.Inserted | src/repositories/orderRepository.ts:16-34 | the insert fails with a unique violation exactly when the id exists; otherwise it adds one row (status `pending` unless given, null venue, hash and reason unless given) and keeps every other row |
| OrderRepository.WithStatus | src/repositories/orderRepository.ts:36-38 | only the status column of the row with that id changes, and it is set |
| OrderRepository.WithRoutedVenue | src/repositories/orderRepository.ts:40-42 | only the routed venue of that row changes, and it is set |
| OrderRepository.WithSuccess | src/repositories/orderRepository.ts:44-49 | only status and tx hash of that row change, to `confirmed` and the hash |
| OrderRepository.WithFailure | src/repositories/orderRepository.ts:51-56 | only status and failure reason of that row change, to `failed` and the reason |
| OrderRepository.UpdateFrame | src/repositories/orderRepository.ts:36-56 | an update changes no row but its own and no column outside its own set |
| OrderRepository.UpdateOfMissingRow | src/repositories/orderRepository.ts:36-56 | an update of an id that has no row leaves the table as it was |
| OrderRepository.OrderTable.constructor | src/repositories/orderRepository.ts:3-14 | a new table is empty |
| OrderRepository.OrderTable.CreateOrderRecord | src/repositories/orderRepository.ts:16-34 | fails with a unique violation exactly when the id exists; the rows become the insert's result; the insert is appended to the journal, whether it fails or not |
| OrderRepository.OrderTable.AppendStatus | src/repositories/orderRepository.ts:36-38 | the rows become the status update's result, and the statement is appended to the journal |
| OrderRepository.OrderTable.RecordRouting | src/repositories/orderRepository.ts:40-42 | the rows become the venue update's result, and the statement is appended to the journal |
| OrderRepository.OrderTable.RecordSuccess | src/repositories/orderRepository.ts:44-49 | the rows become the success update's result, and the statement is appended to the journal |
| OrderRepository.OrderTable.RecordFailure | src/repositories/orderRepository.ts:51-56 | the rows become the failure update's result, and the statement is appended to the journal |
| Websocket.Copies | src/websocket/orderStream.ts:51-55 | `n` copies of one message, all equal to it |
| Websocket.Broadcast | src/websocket/orderStream.ts:51-55 | every known socket stays known; an OPEN one is sent the message once per listener of the order on it, any other is left as it was |
| Websocket.BroadcastToNobody | src/websocket/orderStream.ts:41-42 | an emit to an order with no listeners changes no socket |
| Websocket.BroadcastReaches | src/websocket/orderStream.ts:51-55 | an OPEN socket of a listener is sent the message once for each listener of the order on it, appended after what it was sent before |
| Websocket.BroadcastSkips | src/websocket/orderStream.ts:51-55 | a socket that is not OPEN, or carries no listener of the order, is left as it was |
| Websocket.BroadcastFrame | src/websocket/orderStream.ts:51-55 | an emit keeps every socket known, with its ready state and its pings |
| Websocket.SendToEach | src/websocket/orderStream.ts:51-55 | the `forEach` loop sends to each listener's socket when OPEN, and its result equals `Broadcast` over all listeners of the order |
| Websocket.Dropped | src/websocket/orderStream.ts:58-65 | the listener leaves its order's set, and the order id is deleted once its set is empty; other orders keep their sets |
| Websocket.Pruned | src/websocket/orderStream.ts:28-35 | after removing a set of listeners every order keeps its other members, and no order id maps to an empty set |
| Websocket.Silenced | src/websocket/orderStream.ts:58-59 | the listeners removed have their heartbeat stopped; every other record is unchanged |
| Websocket.DroppedPruned | src/websocket/orderStream.ts:58-65 | removing listeners one by one gives the same sets as removing them all at once |
| Websocket.RemovedListenersAreNotServed | src/websocket/orderStream.ts:28-35 | after the close handlers of a socket ran, no listener on that socket remains in any order's set, so later emits skip it |
| Websocket.Consistent | src/websocket/orderStream.ts:14-65 | the registry invariant: no order id maps to an empty set; a listener is in its own order's set exactly while its heartbeat runs; every record names a known socket |
| Websocket.RegisteredConsistent | src/websocket/orderStream.ts:14-38 | `register` keeps the registry invariant |
| Websocket.DroppedConsistent | src/websocket/orderStream.ts:58-65 | `remove` keeps the registry invariant, deleting the key of an emptied set |
| Websocket.OrderStream.constructor | src/websocket/orderStream.ts:11-12 | a new stream has no listeners, records or sockets and keeps the heartbeat interval |
| Websocket.OrderStream.Connect | src/routes/orderRoute.ts:29 | a modelling step for the WebSocket server handing the route's ws handler a new connection: the socket is known and OPEN, with nothing sent |
| Websocket.OrderStream.Register | src/websocket/orderStream.ts:14-38 | a new listener for that order and socket, heartbeat running, is added to the order's set, which is created when missing |
| Websocket.OrderStream.Emit | src/websocket/orderStream.ts:40-56 | the sockets become `Broadcast` of the event's message to the order's listeners; the registry invariant is kept; the event is appended to the journal |
| Websocket.OrderStream.HeartbeatTick | src/websocket/orderStream.ts:17-21 | a running heartbeat pings its socket when OPEN; nothing else changes |
| Websocket.OrderStream.Remove | src/websocket/orderStream.ts:58-65 | the listener's heartbeat stops and it leaves its order's set, and the emptied set goes with it |
| Websocket.OrderStream.RunRemovalHandlers | src/websocket/orderStream.ts:28-35 | running the handlers of every listener attached to a socket prunes all of them and stops their heartbeats |
| Websocket.OrderStream.HandleClose | src/websocket/orderStream.ts:28-30 | the socket stops being OPEN and all its listeners are removed |
| Websocket.OrderStream.HandleError | src/websocket/orderStream.ts:32-35 | all listeners of the socket are removed |
| Effects.ApplyWritesFrame | src/repositories/orderRepository.ts:36-56 | a trace that only updates some columns of one row leaves every other row and column as it was |
| Effects.ApplyEmitsAt | src/websocket/orderStream.ts:40-56 | an OPEN socket is sent exactly its inbox of the trace, in order; a closed socket is unchanged |
| OrderProcessor.EmitStatus | src/services/orderProcessor.ts:19-27 | the journal gains the status write and then its event, in that order; the table and the sockets are exactly what those two effects make them |
| OrderProcessor.AskRouter | src/services/orderProcessor.ts:32 | the router is asked for the order's mints and amount, recorded in the journal; its answer is returned unchanged |
| OrderProcessor.Delay | src/services/orderProcessor.ts:36 | a pause of the given length is recorded in the journal, and nothing else changes |
| OrderProcessor.ProcessOrderLifecycle | src/services/orderProcessor.ts:29-54 | returns the router's route unchanged, or fails with its error; its calls append exactly `LifecycleTrace` to the journal, in order, and the table and the sockets end as that trace makes them |
| OrderProcessor.RoutingPhase | src/services/orderProcessor.ts:31-32 | routing is written and emitted, then the router is asked; the journal gains exactly these three effects, in order |
| OrderProcessor.RoutePhases | src/services/orderProcessor.ts:33-51 | building, submitted and confirmed follow one another; the journal gains exactly their effects, in order |
| OrderProcessor.BuildingPhase | src/services/orderProcessor.ts:33-36 | the venue is written, then building is written and emitted, then the pause; the journal gains exactly these effects, in order |
| OrderProcessor.SubmittedPhase | src/services/orderProcessor.ts:38-39 | submitted is written and emitted, then the pause; the journal gains exactly these effects, in order |
| OrderProcessor.ConfirmedPhase | src/services/orderProcessor.ts:41-51 | the success is written, then confirmed is written and emitted; the journal gains exactly these effects, in order |
| OrderProcessor.LifecycleTrace | src/services/orderProcessor.ts:29-54 | thirteen effects on success and three when the router fails; the first is the routing write and the third the router call |
| OrderProcessor.SuccessEmitsEveryStageInOrder | src/services/orderProcessor.ts:31-51 | a successful lifecycle emits exactly routing, building (venue and quotes), submitted (hash) and confirmed (hash, price, venue), in this order |
| OrderProcessor.SuccessWritesInOrder | src/services/orderProcessor.ts:31-51 | the table is sent, in this order, routing, the venue's name, building, submitted, the success, and confirmed |
| OrderProcessor.RouterFailureStopsAfterRouting | src/services/orderProcessor.ts:31-32 | when the router fails, only routing is written and emitted, and the router call is the last effect |
| OrderProcessor.LifecycleOrder | src/services/orderProcessor.ts:31-51 | the thirteen effects in their places: the router before the venue, the venue before building, a 1000 ms pause after building and after submitted, the success before confirmed |
| OrderProcessor.LifecyclePersistsBeforeNotifying | src/services/orderProcessor.ts:19-27 | every status event comes right after the write of the same status for the same order |
| OrderProcessor.NeverPendingOrFailed | src/services/orderProcessor.ts:29-54 | the lifecycle never announces `pending` or `failed` |
| OrderProcessor.LifecycleWritesOnlyItsRow | src/services/orderProcessor.ts:29-54 | every write is an update of the job's own row, of status, venue or hash only |
| OrderProcessor.SuccessRow | src/services/orderProcessor.ts:29-54 | afterwards the order's row is `confirmed`, with the venue's name and the route's hash, and nothing else in the table changed |
| OrderProcessor.FailureRow | src/services/orderProcessor.ts:31-32 | after a router failure the row holds `routing` and nothing else changed |
| OrderProcessor.ObserverSeesEveryStage | src/services/orderProcessor.ts:29-54 | a single subscriber on an OPEN socket is sent exactly the four stage messages, in order |
| OrderWorker.WithOrderId | src/queue/orderWorker.ts:27 | the job result is the route's fields plus the order id |
| OrderWorker.LifecycleInput | src/queue/orderWorker.ts:16-25 | the lifecycle is given the job's order id, mints and amount |
| OrderWorker.ProcessJob | src/queue/orderWorker.ts:15-28 | succeeds exactly when the router does, with the route plus the order id; fails with the router's message; its calls append exactly the job's lifecycle trace to the journal, in order |
| OrderWorker.AttemptsMade | src/queue/orderWorker.ts:38 | the attempts made, 0 when missing |
| OrderWorker.MaxAttempts | src/queue/orderWorker.ts:39 | the configured attempts, 1 when missing |
| OrderWorker.IsFinalAttempt | src/queue/orderWorker.ts:40 | the attempts made reach the configured maximum |
| OrderWorker.FailureTrace | src/queue/orderWorker.ts:35-51 | empty exactly when there is no job; otherwise the `failed` event with reason and attempts made comes first, followed by the failure write on the final attempt only |
| OrderWorker.OnFailed | src/queue/orderWorker.ts:35-51 | its calls append exactly `FailureTrace` to the journal, in order: nothing without a job, else the `failed` event, then `recordFailure` on the final attempt only |
| OrderWorker.NoJobNoEffects | src/queue/orderWorker.ts:36 | a failure without a job emits and writes nothing |
| OrderWorker.FailureHandling | src/queue/orderWorker.ts:37-51 | the `failed` event, with reason and attempts made, comes first; the failure is written, with the same reason, exactly when attempts made reach the maximum |
| OrderWorker.MissingCountersAreNotFinal | src/queue/orderWorker.ts:38-40 | without counters the attempt counts as 0 of 1, which is not final |
| OrderWorker.AttemptTrace | src/queue/orderWorker.ts:35-51 | a successful attempt is just the lifecycle; a failed one adds its `failed` event, with its error and number, as the fourth effect, and on the last attempt a fifth effect |
| OrderWorker.RetryTrace | src/queue/orderQueue.ts:24 | the attempts from `k` on: each runs the lifecycle, and a failure is followed by the next attempt while attempts remain; the first effect is the routing write |
| OrderWorker.AttemptFailureWrites | src/queue/orderWorker.ts:35-51 | one attempt records a failure exactly when it fails and is the last |
| OrderWorker.FailedAttemptEvents | src/queue/orderWorker.ts:35-51 | a failed attempt announces routing, then `failed` with its error and number |
| OrderWorker.RecordFailureOnceIffAllFail | src/queue/orderWorker.ts:35-51 | over the attempts, `recordFailure` runs exactly once when every attempt fails, and never when one succeeds |
| OrderWorker.EveryRetryRestartsFromRouting | src/queue/orderWorker.ts:35-51 | when all attempts fail, each starts again at routing and is announced as failed with its own error and number |
| OrderWorker.AllFailEndsWithRecordFailure | src/queue/orderWorker.ts:48-50 | when all attempts fail, the last effect records the last attempt's error |
| OrderWorker.ThreeFailures | src/queue/orderQueue.ts:24 | with the queue's three attempts all failing: three routing/failed pairs numbered 1 to 3, one `recordFailure`, last, with the third error |
| OrderWorker.SuccessNeverRecordsFailure | src/queue/orderQueue.ts:24 | a job that succeeds at one of its three attempts never has a failure recorded |
| OrderService.FieldValid | src/services/orderService.ts:8-13 | each field's rule: the literal `market`, a non-empty mint, `buy` or `sell`, a positive amount, and a slippage that is absent or an integer in 1..1000 |
| OrderService.SchemaConditions | src/services/orderService.ts:7-14 | every field is valid exactly when all of the schema's conditions hold |
| OrderService.Issues | src/services/orderService.ts:7-14 | a field is reported exactly when the schema rejects it, each field once, in schema order |
| OrderService.ParseMarketOrder | src/services/orderService.ts:7-17 | rejects exactly when some field fails the schema (not "market", an empty mint, a side other than buy or sell, an amount that is not positive, a given slippage that is not an integer in 1..1000), listing every failing field; otherwise copies the fields, with slippage 250 when none is given |
| OrderService.SubmissionTrace | src/services/orderService.ts:16-46 | no effect exactly when the payload is invalid; two effects (insert, then enqueue) exactly when it is valid and the id is new; the insert alone when the id already exists |
| OrderService.SubmitMarketOrder | src/services/orderService.ts:16-46 | its calls append exactly `SubmissionTrace` to the journal, in order, and the table ends as that trace leaves it; succeeds with the generated id exactly when the payload is valid and the id is new; otherwise returns the schema's issues or the insert's error |
| OrderService.AddJob | src/services/orderService.ts:30-43 | the job, with its name, data and job id, is recorded in the journal as queued |
| OrderService.RejectionHasNoEffects | src/services/orderService.ts:17 | an invalid payload inserts nothing and queues nothing |
| OrderService.CreateThenEnqueue | src/services/orderService.ts:20-43 | a valid payload is inserted exactly once, as `pending`, before its job is queued; job name, job data order id and job id are all the generated id |
| OrderService.SubmissionRow | src/services/orderService.ts:20-28 | the table gains exactly the new row (`OrderRow`, the insert literal), `pending`, with the payload's fields and null venue, hash and reason |
| OrderService.JobCopiesPayload | src/services/orderService.ts:30-43 | the job data (`JobOf`, the job literal) carries the payload's mints, side and amount, and slippage 250 when none was given |

## Left out

- Timestamps are not modelled: the `ts` of each message and the `updated_at` of each update. Messages are values, not JSON text.
- The random numbers of `simulateQuote` and the UUID of `randomTxHash` and `randomUUID` are parameters. The router's own delay (`DEX_ROUTE_DELAY_MS`) and its logging are not modelled.
- The lifecycle takes the router's answer (a route or an error message) as a parameter, since the router is an awaited external call. `DexRouter.GetBestRoute` shows what a successful answer looks like.
- Delays are recorded as `Sleep` effects of 1000 ms. No clock is modelled.
- The database is a map. A unique violation on insert is the only error modelled; connection and SQL errors are not.
- The queue library is not modelled: the deduplication of `orderQueue.add` by `jobId`, concurrency, the rate limit, backoff timing, job retention, Redis, and several jobs interleaving. `OrderWorker.RetryTrace` assumes that the library reports `attemptsMade` equal to the attempt's number at the `'failed'` event of that attempt.
- The `'completed'` handler and every logger call only log, so they are left out.
- OrderService.ParseMarketOrder: reports which fields fail, not the schema library's issue codes and messages. Values of the wrong JavaScript type, NaN, infinities and unknown keys are not modelled, since the payload is typed.
- DexRouter.SimulateQuote and DexRouter.GetBestRoute use the corrected `BasePrice`. For a mint named like an `Object.prototype` member, the code as written multiplies a function or object and gets a NaN price; the model quotes such a mint at the default 5 instead (see Findings).
- OrderProcessor.ProcessOrderLifecycle, OrderWorker.ProcessJob and OrderWorker.OnFailed change only the sockets of the stream, besides the table and the journal. The subscriptions stay fixed for the whole run, so a subscriber that registers or disconnects between two awaited steps is not modelled.
- Numbers are real numbers, not IEEE doubles. Rounding in the quote arithmetic is not modelled.
- The HTTP route, the server start-up and the acknowledgement a new subscriber receives belong to the route handler. They are outside this model.
- Every failed attempt emits a `failed` event, final or not, so an order that fails three times is announced as failed three times.
- `recordSuccess` stores only the status and the tx hash. The execution price is not stored.

## Findings

| source | as written | input that shows it | evidently intended | confidence | as-written member | corrected member |
|---|---|---|---|---|---|---|
| src/services/dexRouter.ts:24-26 | `basePrices[baseMint] ?? 5` indexes a plain object literal, so a mint named like an inherited `Object.prototype` member yields that member (a function or object), which `??` does not replace | baseMint = "constructor" | 5 for every mint the table does not list | not executed | DexRouter.BasePriceAsWritten, DexRouter.ConstructorMintHasNoPrice | DexRouter.BasePrice |
