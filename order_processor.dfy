/** `processOrderLifecycle`: the fixed sequence of awaited store writes, status events, router
    call and delays that carries one order from routing to confirmation. The router's answer is
    an input: a route, or the message of the error it raised, which ends the sequence. */
module OrderProcessor {
  import opened OrderTypes
  import opened Journal
  import opened OrderRepository
  import opened Websocket
  import opened Effects

  /** What the lifecycle is given of a job. */
  datatype JobData = JobData(orderId: OrderId, baseMint: string, quoteMint: string, amount: real)

  /** The pause after the building and the submitted stage, in milliseconds. */
  const StageDelayMs: nat := 1000

  /** `emitStatus`: the status is written, then emitted. */
  function StatusEffects(id: OrderId, status: OrderStatus, detail: Detail): seq<Effect> {
    [Persist(UpdateStatus(id, status)), Notify(id, Event(status, detail))]
  }

  /** Routing announced, then the router asked for the best route. */
  function RoutingStage(data: JobData): seq<Effect> {
    StatusEffects(data.orderId, Routing, NoDetail) + [QueryRouter(data.baseMint, data.quoteMint, data.amount)]
  }

  /** The venue recorded, building announced with the venue and every quote, then a pause. */
  function BuildingStage(id: OrderId, route: Route): seq<Effect> {
    [Persist(UpdateRoutedVenue(id, VenueName(route.venue)))]
      + StatusEffects(id, Building, BuildingDetail(route.venue, route.quotes))
      + [Sleep(StageDelayMs)]
  }

  /** Submission announced with the settlement reference, then a pause. */
  function SubmittedStage(id: OrderId, route: Route): seq<Effect> {
    StatusEffects(id, Submitted, SubmittedDetail(route.txHash)) + [Sleep(StageDelayMs)]
  }

  /** The success recorded, then confirmation announced with reference, price and venue. */
  function ConfirmedStage(id: OrderId, route: Route): seq<Effect> {
    [Persist(UpdateSuccess(id, route.txHash))]
      + StatusEffects(id, Confirmed, ConfirmedDetail(route.txHash, route.price, route.venue))
  }

  /** Every effect of `processOrderLifecycle`, in order; a router error ends it after the call. */
  function LifecycleTrace(data: JobData, outcome: Result<Route, string>): (r: seq<Effect>)
    ensures |r| == if outcome.Ok? then 13 else 3
    ensures r[0] == Persist(UpdateStatus(data.orderId, Routing))
    ensures r[2] == QueryRouter(data.baseMint, data.quoteMint, data.amount)
  {
    match outcome
    case Err(_) => RoutingStage(data)
    case Ok(route) =>
      RoutingStage(data) + BuildingStage(data.orderId, route) + SubmittedStage(data.orderId, route)
        + ConfirmedStage(data.orderId, route)
  }

  // ---- Projections of short traces ----

  lemma Single(e: Effect, registry: Registry, listeners: Listeners, s: SocketId)
    ensures Events([e]) == if e.Notify? then [e.event] else []
    ensures Writes([e]) == if e.Persist? then [e.query] else []
    ensures Inbox(registry, listeners, s, [e])
         == if e.Notify? then Copies(PayloadOf(e.orderId, e.event), |On(Members(listeners, e.orderId), registry, s)|) else []
  {
    assert [e][..0] == [];
  }

  lemma StatusProjections(id: OrderId, status: OrderStatus, detail: Detail, registry: Registry, listeners: Listeners,
                          s: SocketId)
    ensures Events(StatusEffects(id, status, detail)) == [Event(status, detail)]
    ensures Writes(StatusEffects(id, status, detail)) == [UpdateStatus(id, status)]
    ensures Inbox(registry, listeners, s, StatusEffects(id, status, detail))
         == Copies(Payload(id, status, detail), |On(Members(listeners, id), registry, s)|)
  {
    var a := Persist(UpdateStatus(id, status));
    var b := Notify(id, Event(status, detail));
    assert StatusEffects(id, status, detail) == [a] + [b];
    Single(a, registry, listeners, s);
    Single(b, registry, listeners, s);
    EventsAppend([a], [b]);
    WritesAppend([a], [b]);
    InboxAppend(registry, listeners, s, [a], [b]);
  }

  /** Event, statement and inbox projections of `x + [e]`. */
  lemma AppendOne(x: seq<Effect>, e: Effect, registry: Registry, listeners: Listeners, s: SocketId)
    ensures Events(x + [e]) == Events(x) + Events([e])
    ensures Writes(x + [e]) == Writes(x) + Writes([e])
    ensures Inbox(registry, listeners, s, x + [e]) == Inbox(registry, listeners, s, x) + Inbox(registry, listeners, s, [e])
  {
    EventsAppend(x, [e]);
    WritesAppend(x, [e]);
    InboxAppend(registry, listeners, s, x, [e]);
  }

  /** Event, statement and inbox projections of `[e] + x`. */
  lemma PrependOne(e: Effect, x: seq<Effect>, registry: Registry, listeners: Listeners, s: SocketId)
    ensures Events([e] + x) == Events([e]) + Events(x)
    ensures Writes([e] + x) == Writes([e]) + Writes(x)
    ensures Inbox(registry, listeners, s, [e] + x) == Inbox(registry, listeners, s, [e]) + Inbox(registry, listeners, s, x)
  {
    EventsAppend([e], x);
    WritesAppend([e], x);
    InboxAppend(registry, listeners, s, [e], x);
  }

  lemma RoutingProjections(data: JobData, registry: Registry, listeners: Listeners, s: SocketId)
    ensures Events(RoutingStage(data)) == [Event(Routing, NoDetail)]
    ensures Writes(RoutingStage(data)) == [UpdateStatus(data.orderId, Routing)]
    ensures Inbox(registry, listeners, s, RoutingStage(data))
         == Copies(Payload(data.orderId, Routing, NoDetail), |On(Members(listeners, data.orderId), registry, s)|)
  {
    var q := QueryRouter(data.baseMint, data.quoteMint, data.amount);
    StatusProjections(data.orderId, Routing, NoDetail, registry, listeners, s);
    Single(q, registry, listeners, s);
    AppendOne(StatusEffects(data.orderId, Routing, NoDetail), q, registry, listeners, s);
  }

  lemma BuildingProjections(id: OrderId, route: Route, registry: Registry, listeners: Listeners, s: SocketId)
    ensures Events(BuildingStage(id, route)) == [Event(Building, BuildingDetail(route.venue, route.quotes))]
    ensures Writes(BuildingStage(id, route)) == [UpdateRoutedVenue(id, VenueName(route.venue)), UpdateStatus(id, Building)]
    ensures Inbox(registry, listeners, s, BuildingStage(id, route))
         == Copies(Payload(id, Building, BuildingDetail(route.venue, route.quotes)), |On(Members(listeners, id), registry, s)|)
  {
    var v := Persist(UpdateRoutedVenue(id, VenueName(route.venue)));
    var st := StatusEffects(id, Building, BuildingDetail(route.venue, route.quotes));
    var z := Sleep(StageDelayMs);
    StatusProjections(id, Building, BuildingDetail(route.venue, route.quotes), registry, listeners, s);
    Single(v, registry, listeners, s);
    Single(z, registry, listeners, s);
    PrependOne(v, st, registry, listeners, s);
    AppendOne([v] + st, z, registry, listeners, s);
  }

  lemma SubmittedProjections(id: OrderId, route: Route, registry: Registry, listeners: Listeners, s: SocketId)
    ensures Events(SubmittedStage(id, route)) == [Event(Submitted, SubmittedDetail(route.txHash))]
    ensures Writes(SubmittedStage(id, route)) == [UpdateStatus(id, Submitted)]
    ensures Inbox(registry, listeners, s, SubmittedStage(id, route))
         == Copies(Payload(id, Submitted, SubmittedDetail(route.txHash)), |On(Members(listeners, id), registry, s)|)
  {
    var z := Sleep(StageDelayMs);
    StatusProjections(id, Submitted, SubmittedDetail(route.txHash), registry, listeners, s);
    Single(z, registry, listeners, s);
    AppendOne(StatusEffects(id, Submitted, SubmittedDetail(route.txHash)), z, registry, listeners, s);
  }

  lemma ConfirmedProjections(id: OrderId, route: Route, registry: Registry, listeners: Listeners, s: SocketId)
    ensures Events(ConfirmedStage(id, route)) == [Event(Confirmed, ConfirmedDetail(route.txHash, route.price, route.venue))]
    ensures Writes(ConfirmedStage(id, route)) == [UpdateSuccess(id, route.txHash), UpdateStatus(id, Confirmed)]
    ensures Inbox(registry, listeners, s, ConfirmedStage(id, route))
         == Copies(Payload(id, Confirmed, ConfirmedDetail(route.txHash, route.price, route.venue)),
                   |On(Members(listeners, id), registry, s)|)
  {
    var w := Persist(UpdateSuccess(id, route.txHash));
    var st := StatusEffects(id, Confirmed, ConfirmedDetail(route.txHash, route.price, route.venue));
    StatusProjections(id, Confirmed, ConfirmedDetail(route.txHash, route.price, route.venue), registry, listeners, s);
    Single(w, registry, listeners, s);
    PrependOne(w, st, registry, listeners, s);
  }

  /** The four stage events of a successful lifecycle. */
  function SuccessEvents(route: Route): seq<Event> {
    [Event(Routing, NoDetail),
     Event(Building, BuildingDetail(route.venue, route.quotes)),
     Event(Submitted, SubmittedDetail(route.txHash)),
     Event(Confirmed, ConfirmedDetail(route.txHash, route.price, route.venue))]
  }

  /** Projections of a whole lifecycle. */
  lemma LifecycleProjections(data: JobData, route: Route, registry: Registry, listeners: Listeners, s: SocketId)
    ensures var t := LifecycleTrace(data, Ok(route));
            var id := data.orderId;
            var n := |On(Members(listeners, id), registry, s)|;
            && Events(t) == SuccessEvents(route)
            && Writes(t) == [UpdateStatus(id, Routing), UpdateRoutedVenue(id, VenueName(route.venue)),
                             UpdateStatus(id, Building), UpdateStatus(id, Submitted),
                             UpdateSuccess(id, route.txHash), UpdateStatus(id, Confirmed)]
            && Inbox(registry, listeners, s, t)
               == Copies(PayloadOf(id, SuccessEvents(route)[0]), n) + Copies(PayloadOf(id, SuccessEvents(route)[1]), n)
                  + Copies(PayloadOf(id, SuccessEvents(route)[2]), n) + Copies(PayloadOf(id, SuccessEvents(route)[3]), n)
  {
    var id := data.orderId;
    var a := RoutingStage(data);
    var b := BuildingStage(id, route);
    var c := SubmittedStage(id, route);
    var d := ConfirmedStage(id, route);
    RoutingProjections(data, registry, listeners, s);
    BuildingProjections(id, route, registry, listeners, s);
    SubmittedProjections(id, route, registry, listeners, s);
    ConfirmedProjections(id, route, registry, listeners, s);
    EventsAppend(a, b);
    EventsAppend(a + b, c);
    EventsAppend(a + b + c, d);
    WritesAppend(a, b);
    WritesAppend(a + b, c);
    WritesAppend(a + b + c, d);
    InboxAppend(registry, listeners, s, a, b);
    InboxAppend(registry, listeners, s, a + b, c);
    InboxAppend(registry, listeners, s, a + b + c, d);
  }

  // ---- Properties of the lifecycle ----

  /** On success the observers are told, in this order, routing, building (venue and quotes),
      submitted (settlement reference) and confirmed (reference, execution price, venue). */
  lemma SuccessEmitsEveryStageInOrder(data: JobData, route: Route)
    ensures Events(LifecycleTrace(data, Ok(route))) == SuccessEvents(route)
    ensures |SuccessEvents(route)| == 4
    ensures SuccessEvents(route)[0].status == Routing && SuccessEvents(route)[1].status == Building
    ensures SuccessEvents(route)[2].status == Submitted && SuccessEvents(route)[3].status == Confirmed
  {
    LifecycleProjections(data, route, map[], map[], 0);
  }

  /** On success the table is sent, in this order: routing, the venue, building, submitted, the
      success with its reference, confirmed; all for the order's own row. */
  lemma SuccessWritesInOrder(data: JobData, route: Route)
    ensures var id := data.orderId;
            Writes(LifecycleTrace(data, Ok(route)))
              == [UpdateStatus(id, Routing), UpdateRoutedVenue(id, VenueName(route.venue)),
                  UpdateStatus(id, Building), UpdateStatus(id, Submitted),
                  UpdateSuccess(id, route.txHash), UpdateStatus(id, Confirmed)]
  {
    LifecycleProjections(data, route, map[], map[], 0);
  }

  /** When the router fails, routing is written and emitted, the router is asked, and nothing
      else happens. */
  lemma RouterFailureStopsAfterRouting(data: JobData, error: string)
    ensures var t := LifecycleTrace(data, Err(error));
            && Events(t) == [Event(Routing, NoDetail)]
            && Writes(t) == [UpdateStatus(data.orderId, Routing)]
            && t[|t| - 1] == QueryRouter(data.baseMint, data.quoteMint, data.amount)
  {
    RoutingProjections(data, map[], map[], 0);
  }

  /** The router is asked before the venue is recorded, the venue before building is written;
      a pause follows building and another follows submitted; the success is recorded after
      submitted is emitted and before confirmed is written and emitted. */
  lemma LifecycleOrder(data: JobData, route: Route)
    ensures var t := LifecycleTrace(data, Ok(route));
            var id := data.orderId;
            && |t| == 13
            && t[2] == QueryRouter(data.baseMint, data.quoteMint, data.amount)
            && t[3] == Persist(UpdateRoutedVenue(id, VenueName(route.venue)))
            && t[4] == Persist(UpdateStatus(id, Building))
            && t[6] == Sleep(StageDelayMs)
            && t[8] == Notify(id, Event(Submitted, SubmittedDetail(route.txHash)))
            && t[9] == Sleep(StageDelayMs)
            && t[10] == Persist(UpdateSuccess(id, route.txHash))
            && t[11] == Persist(UpdateStatus(id, Confirmed))
            && t[12].Notify? && t[12].event.status == Confirmed
  {
  }

  /** Every status event is immediately preceded by the write of the same status for the same
      order. */
  predicate PersistedBeforeNotified(t: seq<Effect>) {
    forall i :: 0 <= i < |t| && t[i].Notify? ==>
      i > 0 && t[i - 1] == Persist(UpdateStatus(t[i].orderId, t[i].event.status))
  }

  lemma PersistedBeforeNotifiedAppend(a: seq<Effect>, b: seq<Effect>)
    requires PersistedBeforeNotified(a) && PersistedBeforeNotified(b)
    ensures PersistedBeforeNotified(a + b)
  {
    forall i | 0 <= i < |a + b| && (a + b)[i].Notify?
      ensures i > 0 && (a + b)[i - 1] == Persist(UpdateStatus((a + b)[i].orderId, (a + b)[i].event.status))
    {
      if i >= |a| {
        assert (a + b)[i] == b[i - |a|];
        assert (a + b)[i - 1] == b[i - |a| - 1];
      }
    }
  }

  lemma LifecyclePersistsBeforeNotifying(data: JobData, outcome: Result<Route, string>)
    ensures PersistedBeforeNotified(LifecycleTrace(data, outcome))
  {
    var id := data.orderId;
    var a := RoutingStage(data);
    if outcome.Ok? {
      var route := outcome.value;
      var b := BuildingStage(id, route);
      var c := SubmittedStage(id, route);
      var d := ConfirmedStage(id, route);
      PersistedBeforeNotifiedAppend(a, b);
      PersistedBeforeNotifiedAppend(a + b, c);
      PersistedBeforeNotifiedAppend(a + b + c, d);
    }
  }

  /** The lifecycle never announces `pending` or `failed`. */
  lemma NeverPendingOrFailed(data: JobData, outcome: Result<Route, string>)
    ensures forall e :: e in Events(LifecycleTrace(data, outcome)) ==> e.status != Pending && e.status != Failed
  {
    match outcome
    case Ok(route) => SuccessEmitsEveryStageInOrder(data, route);
    case Err(error) => RouterFailureStopsAfterRouting(data, error);
  }

  /** The columns the lifecycle may set. */
  const LifecycleColumns: set<Column> := {StatusColumn, RoutedVenueColumn, TxHashColumn}

  lemma LifecycleWritesOnlyItsRow(data: JobData, outcome: Result<Route, string>)
    ensures WritesOnlyTo(LifecycleTrace(data, outcome), data.orderId, LifecycleColumns)
  {
  }

  /** The table after a status write and its event. */
  lemma StatusRows(rows: Table, id: OrderId, status: OrderStatus, detail: Detail)
    ensures ApplyWrites(rows, StatusEffects(id, status, detail)) == WithStatus(rows, id, status)
  {
    var p := Persist(UpdateStatus(id, status));
    var n := Notify(id, Event(status, detail));
    assert StatusEffects(id, status, detail) == [p] + [n];
    ApplyWritesAppend(rows, [p], [n]);
    ApplyOne(rows, map[], map[], map[], p);
  }

  /** The table after the building stage: the venue, then status `building`. */
  lemma BuildingRows(rows: Table, id: OrderId, route: Route)
    ensures ApplyWrites(rows, BuildingStage(id, route))
         == WithStatus(WithRoutedVenue(rows, id, VenueName(route.venue)), id, Building)
  {
    var v := Persist(UpdateRoutedVenue(id, VenueName(route.venue)));
    var st := StatusEffects(id, Building, BuildingDetail(route.venue, route.quotes));
    ApplyOne(rows, map[], map[], map[], v);
    ApplyWritesAppend(rows, [v], st);
    StatusRows(ApplyWrites(rows, [v]), id, Building, BuildingDetail(route.venue, route.quotes));
    ApplyWritesAppend(rows, [v] + st, [Sleep(StageDelayMs)]);
  }

  /** The table after the submitted stage: status `submitted`. */
  lemma SubmittedRows(rows: Table, id: OrderId, route: Route)
    ensures ApplyWrites(rows, SubmittedStage(id, route)) == WithStatus(rows, id, Submitted)
  {
    var st := StatusEffects(id, Submitted, SubmittedDetail(route.txHash));
    StatusRows(rows, id, Submitted, SubmittedDetail(route.txHash));
    ApplyWritesAppend(rows, st, [Sleep(StageDelayMs)]);
  }

  /** The table after the confirmed stage: the success, then status `confirmed`. */
  lemma ConfirmedRows(rows: Table, id: OrderId, route: Route)
    ensures ApplyWrites(rows, ConfirmedStage(id, route))
         == WithStatus(WithSuccess(rows, id, route.txHash), id, Confirmed)
  {
    var w := Persist(UpdateSuccess(id, route.txHash));
    var st := StatusEffects(id, Confirmed, ConfirmedDetail(route.txHash, route.price, route.venue));
    ApplyOne(rows, map[], map[], map[], w);
    ApplyWritesAppend(rows, [w], st);
    StatusRows(ApplyWrites(rows, [w]), id, Confirmed, ConfirmedDetail(route.txHash, route.price, route.venue));
  }

  /** After a successful lifecycle the order's row is confirmed, with the venue's name and the
      settlement reference; no other row or column changes. */
  lemma SuccessRow(rows: Table, data: JobData, route: Route)
    ensures var after := ApplyWrites(rows, LifecycleTrace(data, Ok(route)));
            var id := data.orderId;
            && UpdatedOnly(rows, after, id, LifecycleColumns)
            && (id in rows ==>
                  && after[id].status == Confirmed
                  && after[id].routedVenue == Some(VenueName(route.venue))
                  && after[id].txHash == Some(route.txHash))
  {
    var id := data.orderId;
    var a := RoutingStage(data);
    var b := BuildingStage(id, route);
    var c := SubmittedStage(id, route);
    var d := ConfirmedStage(id, route);
    LifecycleWritesOnlyItsRow(data, Ok(route));
    ApplyWritesFrame(rows, a + b + c + d, id, LifecycleColumns);
    ApplyWritesAppend(rows, a + b + c, d);
    ApplyWritesAppend(rows, a + b, c);
    ApplyWritesAppend(rows, a, b);
    FailureRow(rows, data, "");
    var r1 := ApplyWrites(rows, a);
    BuildingRows(r1, id, route);
    var r2 := ApplyWrites(r1, b);
    SubmittedRows(r2, id, route);
    var r3 := ApplyWrites(r2, c);
    ConfirmedRows(r3, id, route);
  }

  /** After a router failure the order's row holds status `routing` and nothing else changed. */
  lemma FailureRow(rows: Table, data: JobData, error: string)
    ensures ApplyWrites(rows, LifecycleTrace(data, Err(error))) == WithStatus(rows, data.orderId, Routing)
  {
    StatusRows(rows, data.orderId, Routing, NoDetail);
    ApplyWritesAppend(rows, StatusEffects(data.orderId, Routing, NoDetail),
                      [QueryRouter(data.baseMint, data.quoteMint, data.amount)]);
  }

  /** An observer with one subscription to the order, on an OPEN socket, is sent exactly the
      four stage messages, in order, after what it had already been sent. */
  lemma ObserverSeesEveryStage(sockets: Sockets, registry: Registry, listeners: Listeners, s: SocketId,
                               data: JobData, route: Route)
    requires s in sockets && sockets[s].open
    requires |On(Members(listeners, data.orderId), registry, s)| == 1
    ensures var after := ApplyEmits(sockets, registry, listeners, LifecycleTrace(data, Ok(route)));
            var es := SuccessEvents(route);
            var id := data.orderId;
            s in after && after[s].sent == sockets[s].sent + [PayloadOf(id, es[0]), PayloadOf(id, es[1]), PayloadOf(id, es[2]), PayloadOf(id, es[3])]
  {
    var id := data.orderId;
    var es := SuccessEvents(route);
    ApplyEmitsAt(sockets, registry, listeners, LifecycleTrace(data, Ok(route)), s);
    LifecycleProjections(data, route, registry, listeners, s);
    assert Copies(PayloadOf(id, es[0]), 1) == [PayloadOf(id, es[0])];
    assert Copies(PayloadOf(id, es[1]), 1) == [PayloadOf(id, es[1])];
    assert Copies(PayloadOf(id, es[2]), 1) == [PayloadOf(id, es[2])];
    assert Copies(PayloadOf(id, es[3]), 1) == [PayloadOf(id, es[3])];
  }

  // ---- The imperative pipeline ----

  /** `emitStatus`: `appendStatus`, then `stream.emit`. */
  method EmitStatus(orderId: OrderId, status: OrderStatus, detail: Detail, store: OrderTable, stream: OrderStream,
                    ghost log: Log)
    returns (ghost t: seq<Effect>)
    requires stream.Valid()
    modifies store, stream`sockets, log
    ensures stream.Valid()
    ensures t == StatusEffects(orderId, status, detail)
    ensures log.effects == old(log.effects) + t
    ensures store.rows == ApplyWrites(old(store.rows), t)
    ensures stream.sockets == ApplyEmits(old(stream.sockets), stream.registry, stream.listeners, t)
  {
    store.AppendStatus(orderId, status, log);
    stream.Emit(orderId, Event(status, detail), log);
    t := StatusEffects(orderId, status, detail);
    assert t[..1][..0] == [] && t[..1] == [t[0]];
  }

  /** `router.getBestRoute` for the order's pair and amount. The router's answer is the input
      `outcome`: its route, or the message of the error it raised. */
  method AskRouter(data: JobData, outcome: Result<Route, string>, ghost log: Log) returns (r: Result<Route, string>)
    modifies log
    ensures r == outcome
    ensures log.effects == old(log.effects) + [QueryRouter(data.baseMint, data.quoteMint, data.amount)]
  {
    log.effects := log.effects + [QueryRouter(data.baseMint, data.quoteMint, data.amount)];
    r := outcome;
  }

  /** `delay(ms)`: a pause, which changes nothing but the journal. */
  method Delay(ms: nat, ghost log: Log)
    modifies log
    ensures log.effects == old(log.effects) + [Sleep(ms)]
  {
    log.effects := log.effects + [Sleep(ms)];
  }

  /** `processOrderLifecycle`: returns the router's route unchanged, or its error. The calls it
      makes leave exactly `LifecycleTrace` in the journal, in that order, and the table and the
      sockets as those effects leave them. */
  method ProcessOrderLifecycle(data: JobData, outcome: Result<Route, string>, store: OrderTable, stream: OrderStream,
                               ghost log: Log)
    returns (r: Result<Route, string>, ghost trace: seq<Effect>)
    requires stream.Valid()
    modifies store, stream`sockets, log
    ensures stream.Valid()
    ensures r == outcome
    ensures trace == LifecycleTrace(data, outcome)
    ensures log.effects == old(log.effects) + trace
    ensures store.rows == ApplyWrites(old(store.rows), trace)
    ensures stream.sockets == ApplyEmits(old(stream.sockets), stream.registry, stream.listeners, trace)
  {
    ghost var rows0, sockets0, log0 := store.rows, stream.sockets, log.effects;
    r, trace := RoutingPhase(data, outcome, store, stream, log);
    if r.Err? {
      return;
    }
    ghost var rest := RoutePhases(data.orderId, r.value, store, stream, log);
    Logged(log0, trace, rest);
    trace := Then(rows0, sockets0, stream.registry, stream.listeners, trace, rest);
  }

  /** Building, submitted and confirmed, once the router has answered with `route`. */
  method RoutePhases(id: OrderId, route: Route, store: OrderTable, stream: OrderStream, ghost log: Log)
    returns (ghost t: seq<Effect>)
    requires stream.Valid()
    modifies store, stream`sockets, log
    ensures stream.Valid()
    ensures t == BuildingStage(id, route) + SubmittedStage(id, route) + ConfirmedStage(id, route)
    ensures log.effects == old(log.effects) + t
    ensures store.rows == ApplyWrites(old(store.rows), t)
    ensures stream.sockets == ApplyEmits(old(stream.sockets), stream.registry, stream.listeners, t)
  {
    ghost var rows0, sockets0, log0 := store.rows, stream.sockets, log.effects;
    ghost var R, L := stream.registry, stream.listeners;
    t := BuildingPhase(id, route, store, stream, log);
    ghost var stage := SubmittedPhase(id, route, store, stream, log);
    Logged(log0, t, stage);
    t := Then(rows0, sockets0, R, L, t, stage);
    stage := ConfirmedPhase(id, route, store, stream, log);
    Logged(log0, t, stage);
    t := Then(rows0, sockets0, R, L, t, stage);
  }

  /** Routing announced, then the router asked. */
  method RoutingPhase(data: JobData, outcome: Result<Route, string>, store: OrderTable, stream: OrderStream,
                      ghost log: Log)
    returns (r: Result<Route, string>, ghost t: seq<Effect>)
    requires stream.Valid()
    modifies store, stream`sockets, log
    ensures stream.Valid()
    ensures r == outcome
    ensures t == RoutingStage(data)
    ensures log.effects == old(log.effects) + t
    ensures store.rows == ApplyWrites(old(store.rows), t)
    ensures stream.sockets == ApplyEmits(old(stream.sockets), stream.registry, stream.listeners, t)
  {
    ghost var rows0, sockets0 := store.rows, stream.sockets;
    t := EmitStatus(data.orderId, Routing, NoDetail, store, stream, log);
    r := AskRouter(data, outcome, log);
    t := Then(rows0, sockets0, stream.registry, stream.listeners, t, [QueryRouter(data.baseMint, data.quoteMint, data.amount)]);
  }

  /** The venue recorded, building announced, then a pause. */
  method BuildingPhase(id: OrderId, route: Route, store: OrderTable, stream: OrderStream, ghost log: Log)
    returns (ghost t: seq<Effect>)
    requires stream.Valid()
    modifies store, stream`sockets, log
    ensures stream.Valid()
    ensures t == BuildingStage(id, route)
    ensures log.effects == old(log.effects) + t
    ensures store.rows == ApplyWrites(old(store.rows), t)
    ensures stream.sockets == ApplyEmits(old(stream.sockets), stream.registry, stream.listeners, t)
  {
    ghost var rows0, sockets0, log0 := store.rows, stream.sockets, log.effects;
    ghost var R, L := stream.registry, stream.listeners;
    store.RecordRouting(id, VenueName(route.venue), log);
    t := [Persist(UpdateRoutedVenue(id, VenueName(route.venue)))];
    ApplyOne(rows0, sockets0, R, L, t[0]);
    ghost var step := EmitStatus(id, Building, BuildingDetail(route.venue, route.quotes), store, stream, log);
    Logged(log0, t, step);
    t := Then(rows0, sockets0, R, L, t, step);
    Delay(StageDelayMs, log);
    Logged(log0, t, [Sleep(StageDelayMs)]);
    t := Then(rows0, sockets0, R, L, t, [Sleep(StageDelayMs)]);
  }

  /** Submission announced, then a pause. */
  method SubmittedPhase(id: OrderId, route: Route, store: OrderTable, stream: OrderStream, ghost log: Log)
    returns (ghost t: seq<Effect>)
    requires stream.Valid()
    modifies store, stream`sockets, log
    ensures stream.Valid()
    ensures t == SubmittedStage(id, route)
    ensures log.effects == old(log.effects) + t
    ensures store.rows == ApplyWrites(old(store.rows), t)
    ensures stream.sockets == ApplyEmits(old(stream.sockets), stream.registry, stream.listeners, t)
  {
    ghost var rows0, sockets0 := store.rows, stream.sockets;
    t := EmitStatus(id, Submitted, SubmittedDetail(route.txHash), store, stream, log);
    Delay(StageDelayMs, log);
    t := Then(rows0, sockets0, stream.registry, stream.listeners, t, [Sleep(StageDelayMs)]);
  }

  /** The success recorded, then confirmation announced. */
  method ConfirmedPhase(id: OrderId, route: Route, store: OrderTable, stream: OrderStream, ghost log: Log)
    returns (ghost t: seq<Effect>)
    requires stream.Valid()
    modifies store, stream`sockets, log
    ensures stream.Valid()
    ensures t == ConfirmedStage(id, route)
    ensures log.effects == old(log.effects) + t
    ensures store.rows == ApplyWrites(old(store.rows), t)
    ensures stream.sockets == ApplyEmits(old(stream.sockets), stream.registry, stream.listeners, t)
  {
    ghost var rows0, sockets0 := store.rows, stream.sockets;
    ghost var R, L := stream.registry, stream.listeners;
    store.RecordSuccess(id, route.txHash, log);
    t := [Persist(UpdateSuccess(id, route.txHash))];
    ApplyOne(rows0, sockets0, R, L, t[0]);
    ghost var step := EmitStatus(id, Confirmed, ConfirmedDetail(route.txHash, route.price, route.venue), store, stream, log);
    t := Then(rows0, sockets0, R, L, t, step);
  }

  /** A journal extended by two traces in turn holds their concatenation. */
  lemma Logged(log: seq<Effect>, done: seq<Effect>, next: seq<Effect>)
    ensures log + done + next == log + (done + next)
  {
  }

  /** Extends a trace by the effects just performed: the state reached from the start by the
      longer trace is the state the new effects reach from the intermediate one. */
  lemma Then(rows0: Table, sockets0: Sockets, registry: Registry, listeners: Listeners,
             done: seq<Effect>, next: seq<Effect>) returns (t: seq<Effect>)
    ensures t == done + next
    ensures ApplyWrites(rows0, t) == ApplyWrites(ApplyWrites(rows0, done), next)
    ensures ApplyEmits(sockets0, registry, listeners, t)
         == ApplyEmits(ApplyEmits(sockets0, registry, listeners, done), registry, listeners, next)
  {
    t := done + next;
    ApplyWritesAppend(rows0, done, next);
    ApplyEmitsAppend(sockets0, registry, listeners, done, next);
  }
}
