/** The per-order subscription registry behind the WebSocket status stream.

    A socket is an id; what the model keeps of it is its ready state (OPEN or not), the messages
    sent to it and the pings sent to it. Every `register` call creates a new listener, even for a
    socket already registered; a listener remembers the order id and socket it was created for
    and whether its heartbeat interval is still running. Listener records are kept after removal
    (with the heartbeat stopped), because the close and error handlers that `register` attaches to
    a socket are never detached and may run again. */
module Websocket {
  import opened OrderTypes
  import opened Journal

  type SocketId = nat
  type ListenerId = nat

  /** The message `emit` sends: order id, status and detail (the timestamp is not modelled). */
  datatype Payload = Payload(orderId: OrderId, status: OrderStatus, detail: Detail)

  datatype Socket = Socket(open: bool, sent: seq<Payload>, pings: nat)

  datatype Listener = Listener(orderId: OrderId, socket: SocketId, heartbeat: bool)

  type Listeners = map<OrderId, set<ListenerId>>
  type Registry = map<ListenerId, Listener>
  type Sockets = map<SocketId, Socket>

  /** `listeners.get(id) ?? {}` */
  function Members(listeners: Listeners, id: OrderId): set<ListenerId> {
    if id in listeners then listeners[id] else {}
  }

  predicate NoEmptySets(listeners: Listeners) {
    forall id :: id in listeners ==> listeners[id] != {}
  }

  /** `n` copies of one payload. */
  function Copies(p: Payload, n: nat): (r: seq<Payload>)
    ensures |r| == n
    ensures forall i :: 0 <= i < n ==> r[i] == p
  {
    if n == 0 then [] else Copies(p, n - 1) + [p]
  }

  /** The listeners of `ls` whose socket is `s`. */
  function On(ls: set<ListenerId>, registry: Registry, s: SocketId): set<ListenerId> {
    set l | l in ls && l in registry && registry[l].socket == s
  }

  /** Every listener ever registered on socket `s`: those whose close and error handlers are
      attached to it. */
  function Attached(registry: Registry, s: SocketId): set<ListenerId> {
    On(registry.Keys, registry, s)
  }

  /** `n` sends of `p` to a socket; a socket that is not OPEN is not written to. */
  function Deliver(sock: Socket, p: Payload, n: nat): Socket {
    if sock.open then sock.(sent := sock.sent + Copies(p, n)) else sock
  }

  /** The sockets after `p` is sent once per listener of `ls` whose socket is OPEN. */
  function Broadcast(sockets: Sockets, registry: Registry, ls: set<ListenerId>, p: Payload): (r: Sockets)
    ensures r.Keys == sockets.Keys
  {
    map s | s in sockets :: Deliver(sockets[s], p, |On(ls, registry, s)|)
  }

  /** Sending to nobody changes nothing. */
  lemma BroadcastToNobody(sockets: Sockets, registry: Registry, p: Payload)
    ensures Broadcast(sockets, registry, {}, p) == sockets
  {
    forall s | s in sockets
      ensures Deliver(sockets[s], p, |On({}, registry, s)|) == sockets[s]
    {
      assert On({}, registry, s) == {};
      assert sockets[s].sent + Copies(p, 0) == sockets[s].sent;
    }
  }

  /** Adding listener `l` to `done` adds it to the listeners on its own socket only. */
  lemma OnStep(done: set<ListenerId>, registry: Registry, l: ListenerId, t: SocketId)
    requires l !in done && l in registry
    ensures registry[l].socket == t ==> On(done + {l}, registry, t) == On(done, registry, t) + {l}
    ensures registry[l].socket != t ==> On(done + {l}, registry, t) == On(done, registry, t)
  {
  }

  /** Two deliveries in a row are one delivery of both counts. */
  lemma DeliverTwice(sock: Socket, p: Payload, n: nat)
    ensures Deliver(Deliver(sock, p, n), p, 1) == Deliver(sock, p, n + 1)
  {
    assert Copies(p, n + 1) == Copies(p, n) + Copies(p, 1);
    assert sock.sent + Copies(p, n + 1) == (sock.sent + Copies(p, n)) + Copies(p, 1);
  }

  /** Adding listener `l` to a broadcast changes only what its own socket receives. */
  lemma BroadcastStepAt(sockets: Sockets, registry: Registry, done: set<ListenerId>, l: ListenerId, p: Payload,
                        t: SocketId)
    requires l !in done && l in registry && t in sockets
    ensures var before := Broadcast(sockets, registry, done, p)[t];
            Broadcast(sockets, registry, done + {l}, p)[t] ==
              if registry[l].socket == t then Deliver(before, p, 1) else before
  {
    OnStep(done, registry, l, t);
    DeliverTwice(sockets[t], p, |On(done, registry, t)|);
  }

  /** Adding one more listener to the broadcast adds one send to its socket, if OPEN. */
  lemma BroadcastStep(sockets: Sockets, registry: Registry, done: set<ListenerId>, l: ListenerId, p: Payload)
    requires l !in done && l in registry && registry[l].socket in sockets
    ensures var before := Broadcast(sockets, registry, done, p);
            var s := registry[l].socket;
            Broadcast(sockets, registry, done + {l}, p) == before[s := Deliver(before[s], p, 1)]
  {
    var before := Broadcast(sockets, registry, done, p);
    var after := Broadcast(sockets, registry, done + {l}, p);
    var s := registry[l].socket;
    forall t | t in sockets
      ensures after[t] == before[s := Deliver(before[s], p, 1)][t]
    {
      BroadcastStepAt(sockets, registry, done, l, p, t);
    }
  }

  /** Every listener of `ls` on an OPEN socket makes that socket receive the payload: what is
      appended to it is one copy of `p` per listener of `ls` on it, and nothing else. */
  lemma BroadcastReaches(sockets: Sockets, registry: Registry, ls: set<ListenerId>, p: Payload, l: ListenerId)
    requires l in ls && l in registry && registry[l].socket in sockets
    requires sockets[registry[l].socket].open
    ensures var s := registry[l].socket;
            var before := sockets[s].sent;
            var after := Broadcast(sockets, registry, ls, p)[s].sent;
            && |after| > |before| && after[..|before|] == before
            && forall i :: |before| <= i < |after| ==> after[i] == p
    ensures var s := registry[l].socket;
            Broadcast(sockets, registry, ls, p)[s].sent == sockets[s].sent + Copies(p, |On(ls, registry, s)|)
  {
    var s := registry[l].socket;
    assert l in On(ls, registry, s);
    assert |On(ls, registry, s)| > 0;
  }

  /** A socket that is not OPEN, or that no listener of `ls` is on, is left as it was. */
  lemma BroadcastSkips(sockets: Sockets, registry: Registry, ls: set<ListenerId>, p: Payload, s: SocketId)
    requires s in sockets
    requires !sockets[s].open || forall l :: l in ls && l in registry ==> registry[l].socket != s
    ensures Broadcast(sockets, registry, ls, p)[s] == sockets[s]
  {
    if sockets[s].open {
      assert On(ls, registry, s) == {};
      assert sockets[s].sent + Copies(p, 0) == sockets[s].sent;
    }
  }

  /** A broadcast changes no socket's ready state or pings, and no socket other than those
      listeners of `ls` are on. */
  lemma BroadcastFrame(sockets: Sockets, registry: Registry, ls: set<ListenerId>, p: Payload, s: SocketId)
    requires s in sockets
    ensures var after := Broadcast(sockets, registry, ls, p);
            s in after && after[s].open == sockets[s].open && after[s].pings == sockets[s].pings
  {
  }

  /** `listeners.get(id)?.delete(l)`, and the key deleted when its set is then empty (or absent). */
  function Dropped(listeners: Listeners, id: OrderId, l: ListenerId): (r: Listeners)
    ensures Members(r, id) == Members(listeners, id) - {l}
    ensures id in r <==> Members(r, id) != {}
    ensures forall k :: k != id ==> (k in r <==> k in listeners) && Members(r, k) == Members(listeners, k)
    ensures NoEmptySets(listeners) ==> NoEmptySets(r)
  {
    if id in listeners && listeners[id] - {l} != {} then listeners[id := listeners[id] - {l}]
    else listeners - {id}
  }

  /** The registry map with every listener of `gone` removed and emptied keys dropped. */
  function Pruned(listeners: Listeners, gone: set<ListenerId>): (r: Listeners)
    ensures forall k :: Members(r, k) == Members(listeners, k) - gone
    ensures NoEmptySets(r)
  {
    map k | k in listeners && listeners[k] - gone != {} :: listeners[k] - gone
  }

  /** The listener records with the heartbeat of every listener of `gone` cleared. */
  function Silenced(registry: Registry, gone: set<ListenerId>): (r: Registry)
    ensures r.Keys == registry.Keys
    ensures forall l :: l in registry ==>
      r[l].orderId == registry[l].orderId && r[l].socket == registry[l].socket &&
      r[l].heartbeat == (registry[l].heartbeat && l !in gone)
  {
    map l | l in registry :: if l in gone then registry[l].(heartbeat := false) else registry[l]
  }

  /** Two registry maps without empty sets are equal when they have the same members everywhere. */
  lemma {:induction false} SameMembers(a: Listeners, b: Listeners)
    requires NoEmptySets(a) && NoEmptySets(b)
    requires forall k :: Members(a, k) == Members(b, k)
    ensures a == b
  {
    forall k | k in a
      ensures k in b && a[k] == b[k]
    {
      assert Members(a, k) == a[k];
    }
    forall k | k in b
      ensures k in a
    {
      assert Members(b, k) == b[k];
    }
  }

  /** Removing listeners one at a time, each from its own order's set, is pruning them all. */
  lemma DroppedPruned(listeners: Listeners, gone: set<ListenerId>, id: OrderId, l: ListenerId)
    requires forall k :: k in listeners && l in listeners[k] ==> k == id
    ensures Dropped(Pruned(listeners, gone), id, l) == Pruned(listeners, gone + {l})
  {
    var a := Dropped(Pruned(listeners, gone), id, l);
    var b := Pruned(listeners, gone + {l});
    forall k
      ensures Members(a, k) == Members(b, k)
    {
      if k != id {
        assert l !in Members(listeners, k);
      }
    }
    SameMembers(a, b);
  }

  lemma SilencedStep(registry: Registry, gone: set<ListenerId>, l: ListenerId)
    requires l in registry
    ensures var before := Silenced(registry, gone);
            before[l := before[l].(heartbeat := false)] == Silenced(registry, gone + {l})
  {
  }

  /** Once every listener on socket `s` has been removed, no emit for any order writes to `s`
      through the registry, even if `s` is still OPEN. */
  lemma RemovedListenersAreNotServed(
    sockets: Sockets, listeners: Listeners, registry: Registry, s: SocketId, id: OrderId, p: Payload)
    requires s in sockets
    ensures var gone := Attached(registry, s);
            Broadcast(sockets, Silenced(registry, gone), Members(Pruned(listeners, gone), id), p)[s] == sockets[s]
  {
    var gone := Attached(registry, s);
    var ls := Members(Pruned(listeners, gone), id);
    var r := Silenced(registry, gone);
    forall l | l in ls && l in r
      ensures r[l].socket != s
    {
      assert l !in gone;
    }
    BroadcastSkips(sockets, r, ls, p, s);
  }

  /** Taking `l` out of what is left to visit adds it to what has been visited. */
  lemma MoveToDone(all: set<ListenerId>, todo: set<ListenerId>, l: ListenerId)
    requires l in todo && todo <= all
    ensures (all - todo) + {l} == all - (todo - {l})
  {
  }

  /** One turn of the `forEach` of `emit`, as a step of `Broadcast`. */
  lemma SendStep(sockets: Sockets, registry: Registry, done: set<ListenerId>, l: ListenerId, p: Payload,
                 before: Sockets, after: Sockets)
    requires l !in done && l in registry && registry[l].socket in sockets
    requires before == Broadcast(sockets, registry, done, p)
    requires var s := registry[l].socket;
             after == if before[s].open then before[s := before[s].(sent := before[s].sent + [p])] else before
    ensures after == Broadcast(sockets, registry, done + {l}, p)
  {
    var s := registry[l].socket;
    BroadcastStep(sockets, registry, done, l, p);
    assert Copies(p, 1) == [p];
    if !before[s].open {
      assert before[s := Deliver(before[s], p, 1)] == before;
    }
  }

  /** The `forEach` of `emit`: each listener of `ls` in turn, a send to its socket if OPEN. */
  method SendToEach(sockets: Sockets, registry: Registry, ls: set<ListenerId>, p: Payload)
    returns (r: Sockets)
    requires forall l :: l in ls ==> l in registry && registry[l].socket in sockets
    ensures r == Broadcast(sockets, registry, ls, p)
  {
    r := sockets;
    var todo := ls;
    BroadcastToNobody(sockets, registry, p);
    assert ls - todo == {};
    while todo != {}
      invariant todo <= ls
      invariant r == Broadcast(sockets, registry, ls - todo, p)
      decreases |todo|
    {
      var l :| l in todo;
      var s := registry[l].socket;
      ghost var before := r;
      if r[s].open {
        r := r[s := r[s].(sent := r[s].sent + [p])];
      }
      SendStep(sockets, registry, ls - todo, l, p, before, r);
      MoveToDone(ls, todo, l);
      todo := todo - {l};
    }
    assert ls - todo == ls;
  }

  /** No order id maps to an empty set; a listener is in the set of its own order id exactly
      while its heartbeat runs; every listener record names a known socket and an id already
      handed out. */
  ghost predicate Consistent(listeners: Listeners, registry: Registry, sockets: Sockets, nextId: ListenerId) {
    && NoEmptySets(listeners)
    && (forall id, l :: id in listeners && l in listeners[id] ==>
          l in registry && registry[l].orderId == id && registry[l].heartbeat)
    && (forall l :: l in registry && registry[l].heartbeat ==>
          registry[l].orderId in listeners && l in listeners[registry[l].orderId])
    && (forall l :: l in registry ==> l < nextId && registry[l].socket in sockets)
  }

  /** `remove` keeps the registry consistent. */
  lemma DroppedConsistent(listeners: Listeners, registry: Registry, sockets: Sockets, nextId: ListenerId,
                          id: OrderId, l: ListenerId)
    requires Consistent(listeners, registry, sockets, nextId)
    requires l in registry && registry[l].orderId == id
    ensures Consistent(Dropped(listeners, id, l), registry[l := registry[l].(heartbeat := false)], sockets, nextId)
  {
    var L := Dropped(listeners, id, l);
    var R := registry[l := registry[l].(heartbeat := false)];
    forall k, x | k in L && x in L[k]
      ensures x in R && R[x].orderId == k && R[x].heartbeat
    {
      assert x in Members(L, k);
    }
    forall x | x in R && R[x].heartbeat
      ensures R[x].orderId in L && x in L[R[x].orderId]
    {
      assert x in Members(L, R[x].orderId);
    }
  }

  /** `register` keeps the registry consistent. */
  lemma RegisteredConsistent(listeners: Listeners, registry: Registry, sockets: Sockets, nextId: ListenerId,
                             id: OrderId, socket: SocketId)
    requires Consistent(listeners, registry, sockets, nextId) && socket in sockets
    ensures Consistent(listeners[id := Members(listeners, id) + {nextId}],
                       registry[nextId := Listener(id, socket, true)], sockets, nextId + 1)
  {
    var L := listeners[id := Members(listeners, id) + {nextId}];
    var R := registry[nextId := Listener(id, socket, true)];
    assert nextId !in registry;
    forall k, x | k in L && x in L[k]
      ensures x in R && R[x].orderId == k && R[x].heartbeat
    {
      if x != nextId && k == id {
        assert x in Members(listeners, id);
      }
    }
    forall x | x in R && R[x].heartbeat
      ensures R[x].orderId in L && x in L[R[x].orderId]
    {
    }
  }

  /** Before any handler has run, nothing is pruned or silenced. */
  lemma NothingRemoved(listeners: Listeners, registry: Registry)
    requires NoEmptySets(listeners)
    ensures Pruned(listeners, {}) == listeners
    ensures Silenced(registry, {}) == registry
  {
    SameMembers(listeners, Pruned(listeners, {}));
  }

  /** One close handler's `remove`, as a step of pruning and silencing the handled listeners. */
  lemma RemovalStep(listeners: Listeners, registry: Registry, sockets: Sockets, nextId: ListenerId,
                    gone: set<ListenerId>, l: ListenerId)
    requires Consistent(listeners, registry, sockets, nextId) && l in registry
    ensures var r := Silenced(registry, gone);
            l in r && r[l].orderId == registry[l].orderId &&
            r[l := r[l].(heartbeat := false)] == Silenced(registry, gone + {l})
    ensures Dropped(Pruned(listeners, gone), registry[l].orderId, l) == Pruned(listeners, gone + {l})
  {
    DroppedPruned(listeners, gone, registry[l].orderId, l);
    SilencedStep(registry, gone, l);
  }

  /** The registry: for each order id, the set of listeners currently subscribed to it. */
  class OrderStream {
    const heartbeatInterval: nat
    var listeners: Listeners
    var registry: Registry
    var sockets: Sockets
    var nextId: ListenerId

    /** The registry's invariant, `Consistent` of its fields. */
    ghost predicate Valid()
      reads this
    {
      Consistent(listeners, registry, sockets, nextId)
    }

    constructor (heartbeatInterval: nat)
      ensures Valid() && this.heartbeatInterval == heartbeatInterval
      ensures listeners == map[] && registry == map[] && sockets == map[]
    {
      this.heartbeatInterval := heartbeatInterval;
      listeners := map[];
      registry := map[];
      sockets := map[];
      nextId := 0;
    }

    /** The WebSocket server accepting a connection: a new OPEN socket with nothing sent. */
    method Connect(s: SocketId)
      requires Valid() && s !in sockets
      modifies this`sockets
      ensures Valid()
      ensures sockets == old(sockets)[s := Socket(true, [], 0)]
    {
      sockets := sockets[s := Socket(true, [], 0)];
    }

    /** `register`: a new listener with a running heartbeat joins the set of `orderId`, which is
        created if absent; the listeners already there stay. */
    method Register(orderId: OrderId, socket: SocketId) returns (l: ListenerId)
      requires Valid() && socket in sockets
      modifies this`listeners, this`registry, this`nextId
      ensures Valid()
      ensures l !in old(registry) && nextId == old(nextId) + 1
      ensures registry == old(registry)[l := Listener(orderId, socket, true)]
      ensures listeners == old(listeners)[orderId := Members(old(listeners), orderId) + {l}]
    {
      RegisteredConsistent(listeners, registry, sockets, nextId, orderId, socket);
      l := nextId;
      nextId := nextId + 1;
      registry := registry[l := Listener(orderId, socket, true)];
      listeners := listeners[orderId := Members(listeners, orderId) + {l}];
    }

    /** `emit`: the payload goes once to every listener of `orderId` whose socket is OPEN;
        nothing else changes, and no listener is removed. The event is appended to `log`. */
    method Emit(orderId: OrderId, event: Event, ghost log: Log)
      requires Valid()
      modifies this`sockets, log
      ensures Valid()
      ensures log.effects == old(log.effects) + [Notify(orderId, event)]
      ensures sockets == Broadcast(old(sockets), registry, Members(listeners, orderId),
                                   Payload(orderId, event.status, event.detail))
    {
      var payload := Payload(orderId, event.status, event.detail);
      log.effects := log.effects + [Notify(orderId, event)];
      if orderId !in listeners || listeners[orderId] == {} {
        BroadcastToNobody(sockets, registry, payload);
        return;
      }
      sockets := SendToEach(sockets, registry, listeners[orderId], payload);
    }

    /** One firing of listener `l`'s heartbeat interval: a ping when its socket is OPEN. A
        cleared interval no longer fires. */
    method HeartbeatTick(l: ListenerId)
      requires Valid() && l in registry
      modifies this`sockets
      ensures Valid()
      ensures var s := registry[l].socket;
              var fired := registry[l].heartbeat && old(sockets)[s].open;
              sockets == old(sockets)[s := old(sockets)[s].(pings := old(sockets)[s].pings + if fired then 1 else 0)]
    {
      var s := registry[l].socket;
      if registry[l].heartbeat && sockets[s].open {
        sockets := sockets[s := sockets[s].(pings := sockets[s].pings + 1)];
      }
    }

    /** `remove`: the heartbeat is cleared, the listener leaves its order's set, the other
        listeners stay, and the key goes when the set is left empty. */
    method Remove(orderId: OrderId, l: ListenerId)
      requires Valid() && l in registry && registry[l].orderId == orderId
      modifies this`listeners, this`registry
      ensures Valid()
      ensures registry == old(registry)[l := old(registry)[l].(heartbeat := false)]
      ensures listeners == Dropped(old(listeners), orderId, l)
    {
      DroppedConsistent(listeners, registry, sockets, nextId, orderId, l);
      registry := registry[l := registry[l].(heartbeat := false)];
      listeners := Dropped(listeners, orderId, l);
    }

    /** The close (or error) handlers attached to socket `s` run in turn, each calling `remove`
        for the listener it was attached with. */
    method RunRemovalHandlers(s: SocketId)
      requires Valid()
      modifies this`listeners, this`registry
      ensures Valid()
      ensures listeners == Pruned(old(listeners), Attached(old(registry), s))
      ensures registry == Silenced(old(registry), Attached(old(registry), s))
    {
      var todo := Attached(registry, s);
      ghost var all := todo;
      ghost var listeners0, registry0, sockets0, nextId0 := listeners, registry, sockets, nextId;
      assert Consistent(listeners0, registry0, sockets0, nextId0);
      assert all <= registry0.Keys;
      NothingRemoved(listeners0, registry0);
      assert all - todo == {};
      while todo != {}
        invariant Valid()
        invariant todo <= all
        invariant listeners == Pruned(listeners0, all - todo)
        invariant registry == Silenced(registry0, all - todo)
        decreases |todo|
      {
        var l :| l in todo;
        RemovalStep(listeners0, registry0, sockets0, nextId0, all - todo, l);
        MoveToDone(all, todo, l);
        var orderId := registry[l].orderId;
        Remove(orderId, l);
        todo := todo - {l};
      }
      assert all - todo == all;
    }

    /** The socket's 'close' event: it is no longer OPEN and its handlers remove every listener
        registered on it. */
    method HandleClose(s: SocketId)
      requires Valid() && s in sockets
      modifies this`sockets, this`listeners, this`registry
      ensures Valid()
      ensures sockets == old(sockets)[s := old(sockets)[s].(open := false)]
      ensures listeners == Pruned(old(listeners), Attached(old(registry), s))
      ensures registry == Silenced(old(registry), Attached(old(registry), s))
    {
      sockets := sockets[s := sockets[s].(open := false)];
      RunRemovalHandlers(s);
    }

    /** The connection's 'error' event: its handlers remove every listener registered on it. */
    method HandleError(s: SocketId)
      requires Valid()
      modifies this`listeners, this`registry
      ensures Valid()
      ensures listeners == Pruned(old(listeners), Attached(old(registry), s))
      ensures registry == Silenced(old(registry), Attached(old(registry), s))
    {
      RunRemovalHandlers(s);
    }
  }
}
