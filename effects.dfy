/** The awaited side effects of the order pipeline, recorded as a trace, and what a trace does
    to the orders table and to the sockets of the status stream. */
module Effects {
  import opened OrderTypes
  import opened Journal
  import opened OrderRepository
  import opened Websocket

  /** The table after one effect: only a `Persist` changes it. */
  function WriteOf(rows: Table, e: Effect): Table {
    if e.Persist? then Execute(rows, e.query) else rows
  }

  /** The table after every effect of `t`, in order. */
  function ApplyWrites(rows: Table, t: seq<Effect>): (r: Table)
    ensures (forall i :: 0 <= i < |t| ==> !t[i].Persist?) ==> r == rows
    decreases |t|
  {
    if t == [] then rows else WriteOf(ApplyWrites(rows, t[..|t| - 1]), t[|t| - 1])
  }

  /** The message a status event becomes. */
  function PayloadOf(orderId: OrderId, event: Event): Payload {
    Payload(orderId, event.status, event.detail)
  }

  /** The sockets after one effect: a `Notify` goes to every listener of its order. */
  function EmitOf(sockets: Sockets, registry: Registry, listeners: Listeners, e: Effect): Sockets {
    if e.Notify? then Broadcast(sockets, registry, Members(listeners, e.orderId), PayloadOf(e.orderId, e.event))
    else sockets
  }

  /** The sockets after every effect of `t`, in order, with the subscriptions as they are. */
  function ApplyEmits(sockets: Sockets, registry: Registry, listeners: Listeners, t: seq<Effect>): (r: Sockets)
    ensures (forall i :: 0 <= i < |t| ==> !t[i].Notify?) ==> r == sockets
    decreases |t|
  {
    if t == [] then sockets
    else EmitOf(ApplyEmits(sockets, registry, listeners, t[..|t| - 1]), registry, listeners, t[|t| - 1])
  }

  /** The status events of `t`, in order. */
  function Events(t: seq<Effect>): seq<Event>
    decreases |t|
  {
    if t == [] then []
    else Events(t[..|t| - 1]) + (if t[|t| - 1].Notify? then [t[|t| - 1].event] else [])
  }

  /** The statements of `t`, in order. */
  function Writes(t: seq<Effect>): seq<Query>
    decreases |t|
  {
    if t == [] then []
    else Writes(t[..|t| - 1]) + (if t[|t| - 1].Persist? then [t[|t| - 1].query] else [])
  }

  /** How many `recordFailure` statements `t` issues. */
  function FailureWrites(t: seq<Effect>): nat
    decreases |t|
  {
    if t == [] then 0
    else FailureWrites(t[..|t| - 1]) + (if t[|t| - 1].Persist? && t[|t| - 1].query.UpdateFailure? then 1 else 0)
  }

  /** Every statement of `t` is an update of row `id` setting only columns among `cols`. */
  predicate WritesOnlyTo(t: seq<Effect>, id: OrderId, cols: set<Column>) {
    forall i :: 0 <= i < |t| && t[i].Persist? ==>
      !t[i].query.InsertOrder? && t[i].query.id == id && Columns(t[i].query) <= cols
  }

  /** What an OPEN socket `s` is sent by the effects of `t`: for each status event, one copy of
      its message per listener of that order on `s`. */
  function Inbox(registry: Registry, listeners: Listeners, s: SocketId, t: seq<Effect>): seq<Payload>
    decreases |t|
  {
    if t == [] then []
    else
      var e := t[|t| - 1];
      Inbox(registry, listeners, s, t[..|t| - 1]) +
        (if e.Notify? then Copies(PayloadOf(e.orderId, e.event), |On(Members(listeners, e.orderId), registry, s)|)
         else [])
  }

  /** A one-effect trace does what its effect does. */
  lemma ApplyOne(rows: Table, sockets: Sockets, registry: Registry, listeners: Listeners, e: Effect)
    ensures ApplyWrites(rows, [e]) == WriteOf(rows, e)
    ensures ApplyEmits(sockets, registry, listeners, [e]) == EmitOf(sockets, registry, listeners, e)
  {
    assert [e][..0] == [];
  }

  lemma PrefixOfAppend(a: seq<Effect>, b: seq<Effect>)
    requires b != []
    ensures (a + b)[..|a + b| - 1] == a + b[..|b| - 1]
    ensures (a + b)[|a + b| - 1] == b[|b| - 1]
  {
  }

  lemma {:induction false} ApplyWritesAppend(rows: Table, a: seq<Effect>, b: seq<Effect>)
    ensures ApplyWrites(rows, a + b) == ApplyWrites(ApplyWrites(rows, a), b)
    decreases |b|
  {
    if b == [] {
      assert a + b == a;
    } else {
      PrefixOfAppend(a, b);
      ApplyWritesAppend(rows, a, b[..|b| - 1]);
    }
  }

  lemma {:induction false} ApplyEmitsAppend(sockets: Sockets, registry: Registry, listeners: Listeners,
                                            a: seq<Effect>, b: seq<Effect>)
    ensures ApplyEmits(sockets, registry, listeners, a + b)
         == ApplyEmits(ApplyEmits(sockets, registry, listeners, a), registry, listeners, b)
    decreases |b|
  {
    if b == [] {
      assert a + b == a;
    } else {
      PrefixOfAppend(a, b);
      ApplyEmitsAppend(sockets, registry, listeners, a, b[..|b| - 1]);
    }
  }

  lemma {:induction false} EventsAppend(a: seq<Effect>, b: seq<Effect>)
    ensures Events(a + b) == Events(a) + Events(b)
    decreases |b|
  {
    if b == [] {
      assert a + b == a;
    } else {
      PrefixOfAppend(a, b);
      EventsAppend(a, b[..|b| - 1]);
    }
  }

  lemma {:induction false} WritesAppend(a: seq<Effect>, b: seq<Effect>)
    ensures Writes(a + b) == Writes(a) + Writes(b)
    decreases |b|
  {
    if b == [] {
      assert a + b == a;
    } else {
      PrefixOfAppend(a, b);
      WritesAppend(a, b[..|b| - 1]);
    }
  }

  lemma {:induction false} FailureWritesAppend(a: seq<Effect>, b: seq<Effect>)
    ensures FailureWrites(a + b) == FailureWrites(a) + FailureWrites(b)
    decreases |b|
  {
    if b == [] {
      assert a + b == a;
    } else {
      PrefixOfAppend(a, b);
      FailureWritesAppend(a, b[..|b| - 1]);
    }
  }

  lemma {:induction false} InboxAppend(registry: Registry, listeners: Listeners, s: SocketId, a: seq<Effect>, b: seq<Effect>)
    ensures Inbox(registry, listeners, s, a + b) == Inbox(registry, listeners, s, a) + Inbox(registry, listeners, s, b)
    decreases |b|
  {
    if b == [] {
      assert a + b == a;
    } else {
      PrefixOfAppend(a, b);
      InboxAppend(registry, listeners, s, a, b[..|b| - 1]);
    }
  }

  /** A trace whose statements only update columns `cols` of row `id` leaves every other row and
      column of the table as it was. */
  lemma {:induction false} ApplyWritesFrame(rows: Table, t: seq<Effect>, id: OrderId, cols: set<Column>)
    requires WritesOnlyTo(t, id, cols)
    ensures UpdatedOnly(rows, ApplyWrites(rows, t), id, cols)
    decreases |t|
  {
    if t != [] {
      var p := t[..|t| - 1];
      var e := t[|t| - 1];
      assert WritesOnlyTo(p, id, cols) by {
        forall i | 0 <= i < |p| && p[i].Persist?
          ensures !p[i].query.InsertOrder? && p[i].query.id == id && Columns(p[i].query) <= cols
        {
          assert p[i] == t[i];
        }
      }
      ApplyWritesFrame(rows, p, id, cols);
      var mid := ApplyWrites(rows, p);
      if e.Persist? {
        UpdateFrame(mid, e.query, cols);
        UpdatedOnlyTrans(rows, mid, ApplyWrites(rows, t), id, cols);
      }
    }
  }

  /** The effects of `t` on one socket: an OPEN socket is sent its inbox, in order, and nothing
      else; a socket that is not OPEN is left as it was; either way it stays known, with the same
      ready state and pings. */
  lemma {:induction false} ApplyEmitsAt(sockets: Sockets, registry: Registry, listeners: Listeners,
                                        t: seq<Effect>, s: SocketId)
    requires s in sockets
    ensures var after := ApplyEmits(sockets, registry, listeners, t);
            && s in after
            && after[s] == if sockets[s].open
                           then sockets[s].(sent := sockets[s].sent + Inbox(registry, listeners, s, t))
                           else sockets[s]
    decreases |t|
  {
    if t == [] {
      assert sockets[s].sent + [] == sockets[s].sent;
    } else {
      var p := t[..|t| - 1];
      var e := t[|t| - 1];
      ApplyEmitsAt(sockets, registry, listeners, p, s);
      var mid := ApplyEmits(sockets, registry, listeners, p);
      if e.Notify? {
        var ls := Members(listeners, e.orderId);
        BroadcastFrame(mid, registry, ls, PayloadOf(e.orderId, e.event), s);
        var n := |On(ls, registry, s)|;
        if sockets[s].open {
          assert sockets[s].sent + Inbox(registry, listeners, s, t)
              == (sockets[s].sent + Inbox(registry, listeners, s, p)) + Copies(PayloadOf(e.orderId, e.event), n);
        }
      } else {
        assert Inbox(registry, listeners, s, t) == Inbox(registry, listeners, s, p) + [];
      }
    }
  }
}
