// The waker layer: polled events become wakeups, and queues of accepted connections and streams.
module Futures {
  import opened Api

  type Waker = nat

  // What a task of one connection can wait for.
  datatype Interest =
    | ToConnect
    | ToAccept
    | ToOpenBidi
    | ToOpenUni
    | ToSend(id: nat)
    | ToRecv(id: nat)

  // One wakeup performed; a task is told apart by its waker and what it waits for.
  datatype Wakeup = Wakeup(token: Token, interest: Interest, waker: Waker)

  datatype Hub = Hub(
    accept: Option<Waker>,
    wakers: map<Token, map<Interest, Waker>>,
    incomingConns: seq<Token>,
    established: set<Token>,
    incomingStreams: map<Token, seq<nat>>,
    woken: multiset<Wakeup>,
    acceptsWoken: nat)

  function WakersOf(h: Hub, t: Token): map<Interest, Waker> {
    if t in h.wakers then h.wakers[t] else map[]
  }

  function IncomingOf(h: Hub, t: Token): seq<nat> {
    if t in h.incomingStreams then h.incomingStreams[t] else []
  }

  function Register(h: Hub, t: Token, i: Interest, w: Waker): Hub {
    h.(wakers := h.wakers[t := WakersOf(h, t)[i := w]])
  }

  function Unregister(h: Hub, t: Token, i: Interest): Hub {
    if t in h.wakers then h.(wakers := h.wakers[t := h.wakers[t] - {i}]) else h
  }

  function Wake(h: Hub, t: Token, i: Interest): Hub {
    if t in h.wakers && i in h.wakers[t] then
      h.(wakers := h.wakers[t := h.wakers[t] - {i}], woken := h.woken + multiset{Wakeup(t, i, h.wakers[t][i])})
    else h
  }

  function AllWakeups(t: Token, m: map<Interest, Waker>): set<Wakeup> {
    set i | i in m :: Wakeup(t, i, m[i])
  }

  function OnClosed(h: Hub, t: Token): Hub {
    h.(wakers := h.wakers - {t}, woken := h.woken + multiset(AllWakeups(t, WakersOf(h, t))),
       incomingStreams := h.incomingStreams - {t})
  }

  function OnAccept(h: Hub, t: Token): Hub {
    h.(incomingConns := h.incomingConns + [t], accept := None,
       acceptsWoken := if h.accept.Some? then h.acceptsWoken + 1 else h.acceptsWoken)
  }

  function OnStreamAccept(h: Hub, t: Token, id: nat): Hub {
    Wake(h.(incomingStreams := h.incomingStreams[t := IncomingOf(h, t) + [id]]), t, ToAccept)
  }

  // The events that the I/O layer passes on; the others never reach the dispatch loop.
  predicate Dispatchable(k: EventKind) {
    !k.Send? && !k.Recv? && !k.ReadLock?
  }

  function Dispatch(h: Hub, e: Event): Hub
    requires Dispatchable(e.kind)
  {
    match e.kind
    case Connected => Wake(h.(established := h.established + {e.token}), e.token, ToConnect)
    case Accept => OnAccept(h, e.token)
    case Closed => OnClosed(h, e.token)
    case StreamOpenBidi => Wake(h, e.token, ToOpenBidi)
    case StreamOpenUni => Wake(h, e.token, ToOpenUni)
    case StreamAccept => OnStreamAccept(h, e.token, e.streamId)
    case StreamSend => Wake(h, e.token, ToSend(e.streamId))
    case StreamRecv => Wake(h, e.token, ToRecv(e.streamId))
  }

  function DispatchAll(h: Hub, batch: seq<Event>): Hub
    requires forall e :: e in batch ==> Dispatchable(e.kind)
  {
    if batch == [] then h else Dispatch(DispatchAll(h, batch[..|batch| - 1]), batch[|batch| - 1])
  }

  // `accept` on a connection: the oldest announced stream, or the waker is left behind.
  function AcceptStream(h: Hub, t: Token, w: Waker): (Hub, Option<nat>) {
    var q := IncomingOf(h, t);
    if q != [] then (h.(incomingStreams := h.incomingStreams[t := q[1..]]), Some(q[0]))
    else (Register(h.(incomingStreams := h.incomingStreams[t := []]), t, ToAccept, w), None)
  }

  // `accept` on the listener: the oldest new connection, or the waker is left behind.
  function AcceptConn(h: Hub, w: Waker): (Hub, Option<Token>) {
    if h.incomingConns != [] then (h.(incomingConns := h.incomingConns[1..]), Some(h.incomingConns[0]))
    else (h.(accept := Some(w)), None)
  }

  // `is_established`: consumes the mark that the dispatch loop left, or leaves the waker behind.
  function AwaitEstablished(h: Hub, t: Token, w: Waker): (Hub, bool) {
    if t in h.established then (h.(established := h.established - {t}), true)
    else (Register(h, t, ToConnect, w), false)
  }

  // The shutdown of a stream wakes whoever sends or receives on it.
  function ShutStream(h: Hub, t: Token, id: nat): Hub {
    Wake(Wake(h, t, ToSend(id)), t, ToRecv(id))
  }

  // ---- Who is woken ----

  predicate HasWaker(h: Hub, t: Token, i: Interest, w: Waker) {
    t in h.wakers && i in h.wakers[t] && h.wakers[t][i] == w
  }

  // The tasks that an event is for.
  predicate IsFor(e: Event, t: Token, i: Interest) {
    && e.token == t
    && match i
       case ToConnect => e.kind.Connected? || e.kind.Closed?
       case ToAccept => e.kind.StreamAccept? || e.kind.Closed?
       case ToOpenBidi => e.kind.StreamOpenBidi? || e.kind.Closed?
       case ToOpenUni => e.kind.StreamOpenUni? || e.kind.Closed?
       case ToSend(id) => (e.kind.StreamSend? && e.streamId == id) || e.kind.Closed?
       case ToRecv(id) => (e.kind.StreamRecv? && e.streamId == id) || e.kind.Closed?
  }

  // Task u, if registered, is woken once and unregistered if `called`; else it stays as it was.
  ghost predicate WokenIf(h: Hub, h': Hub, u: Wakeup, called: bool) {
    && h'.woken[u] == h.woken[u] + (if called && HasWaker(h, u.token, u.interest, u.waker) then 1 else 0)
    && (HasWaker(h', u.token, u.interest, u.waker) <==> HasWaker(h, u.token, u.interest, u.waker) && !called)
  }

  lemma WakeExactly(h: Hub, t: Token, i: Interest, u: Wakeup)
    ensures WokenIf(h, Wake(h, t, i), u, u.token == t && u.interest == i)
  {
  }

  lemma ClosedExactly(h: Hub, t: Token, u: Wakeup)
    ensures WokenIf(h, OnClosed(h, t), u, u.token == t)
  {
    assert u in AllWakeups(t, WakersOf(h, t)) <==> u.token == t && HasWaker(h, t, u.interest, u.waker);
  }

  // Dispatching an event wakes exactly the registered tasks that the event is for, each once,
  // and unregisters them; all others stay registered.
  lemma DispatchWakesExactly(h: Hub, e: Event, u: Wakeup)
    requires Dispatchable(e.kind)
    ensures WokenIf(h, Dispatch(h, e), u, IsFor(e, u.token, u.interest))
  {
    hide Wake, OnClosed;
    match e.kind
    case Connected => WakeExactly(h.(established := h.established + {e.token}), e.token, ToConnect, u);
    case Accept =>
    case Closed => ClosedExactly(h, e.token, u);
    case StreamOpenBidi => WakeExactly(h, e.token, ToOpenBidi, u);
    case StreamOpenUni => WakeExactly(h, e.token, ToOpenUni, u);
    case StreamAccept =>
      var h1 := h.(incomingStreams := h.incomingStreams[e.token := IncomingOf(h, e.token) + [e.streamId]]);
      WakeExactly(h1, e.token, ToAccept, u);
    case StreamSend => WakeExactly(h, e.token, ToSend(e.streamId), u);
    case StreamRecv => WakeExactly(h, e.token, ToRecv(e.streamId), u);
  }

  // What dispatching does to the queues and to the listener.
  lemma DispatchQueuesExactly(h: Hub, e: Event)
    requires Dispatchable(e.kind)
    ensures var h' := Dispatch(h, e);
      && h'.established == h.established + (if e.kind.Connected? then {e.token} else {})
      && h'.incomingConns == h.incomingConns + (if e.kind.Accept? then [e.token] else [])
      && (h'.accept == if e.kind.Accept? then None else h.accept)
      && h'.acceptsWoken == h.acceptsWoken + (if e.kind.Accept? && h.accept.Some? then 1 else 0)
  {
  }

  lemma DispatchIncoming(h: Hub, e: Event, t: Token)
    requires Dispatchable(e.kind)
    ensures IncomingOf(Dispatch(h, e), t) ==
      if e.token != t then IncomingOf(h, t)
      else if e.kind.Closed? then []
      else if e.kind.StreamAccept? then IncomingOf(h, t) + [e.streamId]
      else IncomingOf(h, t)
  {
  }

  // The batch is dispatched from its front.
  lemma {:induction false} BatchInOrder(h: Hub, e: Event, batch: seq<Event>)
    requires Dispatchable(e.kind) && forall f :: f in batch ==> Dispatchable(f.kind)
    ensures DispatchAll(h, [e] + batch) == DispatchAll(Dispatch(h, e), batch)
  {
    var all := [e] + batch;
    if batch == [] {
      assert all[..|all| - 1] == [];
    } else {
      BatchInOrder(h, e, batch[..|batch| - 1]);
      assert all[..|all| - 1] == [e] + batch[..|batch| - 1];
      assert all[|all| - 1] == batch[|batch| - 1];
    }
  }

  // The shutdown of a stream wakes its sender and its receiver, and nobody else.
  lemma ShutWakesExactly(h: Hub, t: Token, id: nat, u: Wakeup)
    ensures WokenIf(h, ShutStream(h, t, id), u, u.token == t && (u.interest == ToSend(id) || u.interest == ToRecv(id)))
  {
    WakeExactly(h, t, ToSend(id), u);
    WakeExactly(Wake(h, t, ToSend(id)), t, ToRecv(id), u);
    hide Wake;
  }

  lemma ShutKeepsQueues(h: Hub, t: Token, id: nat)
    ensures var h' := ShutStream(h, t, id); h' == h.(wakers := h'.wakers, woken := h'.woken)
  {
  }

  // Registering touches one slot, in which the new waker replaces the old one.
  lemma RegisterExactly(h: Hub, t: Token, i: Interest, w: Waker, u: Wakeup)
    ensures var h' := Register(h, t, i, w);
      && h' == h.(wakers := h'.wakers)
      && (HasWaker(h', u.token, u.interest, u.waker) <==>
            if u.token == t && u.interest == i then u.waker == w else HasWaker(h, u.token, u.interest, u.waker))
  {
  }

  lemma UnregisterExactly(h: Hub, t: Token, i: Interest, u: Wakeup)
    ensures var h' := Unregister(h, t, i);
      && h' == h.(wakers := h'.wakers)
      && (HasWaker(h', u.token, u.interest, u.waker) <==>
            !(u.token == t && u.interest == i) && HasWaker(h, u.token, u.interest, u.waker))
  {
  }

  // `accept` on a connection, `accept` on the listener and `is_established` take what came
  // first, or leave the waker behind if there is nothing.
  lemma TakenInOrder(h: Hub, t: Token, w: Waker)
    ensures var (h', r) := AcceptStream(h, t, w);
      && IncomingOf(h, t) == (if r.Some? then [r.value] else []) + IncomingOf(h', t)
      && (r.None? <==> IncomingOf(h, t) == [])
      && h' == h.(wakers := h'.wakers, incomingStreams := h'.incomingStreams)
      && (r.None? ==> HasWaker(h', t, ToAccept, w))
    ensures var (h', r) := AcceptConn(h, w);
      && h.incomingConns == (if r.Some? then [r.value] else []) + h'.incomingConns
      && (r.None? <==> h.incomingConns == [])
      && h'.accept == if r.Some? then h.accept else Some(w)
    ensures var (h', r) := AwaitEstablished(h, t, w);
      && (r <==> t in h.established) && h'.established == h.established - {t}
      && h' == h.(wakers := h'.wakers, established := h'.established)
      && (!r ==> HasWaker(h', t, ToConnect, w))
  {
  }

  // A waker is left behind only while there is nothing to take.
  predicate NothingMissedBy(h: Hub, t: Token) {
    && (ToConnect in WakersOf(h, t) ==> t !in h.established)
    && (ToAccept in WakersOf(h, t) ==> IncomingOf(h, t) == [])
    && (h.accept.Some? ==> h.incomingConns == [])
  }

  ghost predicate NothingMissed(h: Hub) {
    forall t: Token :: NothingMissedBy(h, t)
  }

  lemma DispatchMissesNothing(h: Hub, e: Event, t: Token)
    requires NothingMissedBy(h, t) && Dispatchable(e.kind)
    ensures NothingMissedBy(Dispatch(h, e), t)
  {
    if e.token == t && e.kind.StreamAccept? {
      assert ToAccept !in WakersOf(Dispatch(h, e), t);
    }
  }

  lemma ShutMissesNothing(h: Hub, u: Token, id: nat, t: Token)
    requires NothingMissedBy(h, t)
    ensures NothingMissedBy(ShutStream(h, u, id), t)
  {
  }

  lemma WakersMissNothing(h: Hub, u: Token, i: Interest, w: Waker, t: Token)
    requires NothingMissedBy(h, t)
    ensures !i.ToConnect? && !i.ToAccept? ==> NothingMissedBy(Register(h, u, i, w), t)
    ensures NothingMissedBy(Unregister(h, u, i), t)
  {
  }

  lemma TakingMissesNothing(h: Hub, u: Token, w: Waker, t: Token)
    requires NothingMissedBy(h, t)
    ensures NothingMissedBy(AcceptStream(h, u, w).0, t)
    ensures NothingMissedBy(AcceptConn(h, w).0, t)
    ensures NothingMissedBy(AwaitEstablished(h, u, w).0, t)
  {
  }

  // The state behind the mutex of the waker layer.
  class State {
    var accept: Option<Waker>
    var wakers: map<Token, map<Interest, Waker>>
    var incomingConns: seq<Token>
    var established: set<Token>
    var incomingStreams: map<Token, seq<nat>>
    ghost var woken: multiset<Wakeup>
    ghost var acceptsWoken: nat

    ghost function Model(): Hub
      reads this
    {
      Hub(accept, wakers, incomingConns, established, incomingStreams, woken, acceptsWoken)
    }

    constructor ()
      ensures Model() == Hub(None, map[], [], {}, map[], multiset{}, 0)
    {
      accept, wakers, incomingConns, established, incomingStreams := None, map[], [], {}, map[];
      woken, acceptsWoken := multiset{}, 0;
    }

    method WakeOne(t: Token, i: Interest)
      modifies this`wakers, this`woken
      ensures Model() == Wake(old(Model()), t, i)
    {
      if t in wakers {
        if i in wakers[t] {
          woken := woken + multiset{Wakeup(t, i, wakers[t][i])};
          wakers := wakers[t := wakers[t] - {i}];
        }
      }
    }

    // Wakes all these tasks, in whatever order the hash map yields them.
    method WakeAll(t: Token, conn: map<Interest, Waker>)
      modifies this`woken
      ensures woken == old(woken) + multiset(AllWakeups(t, conn))
    {
      var left := conn;
      NoWakeups(t, conn);
      while left != map[]
        invariant left.Keys <= conn.Keys && forall i :: i in left ==> left[i] == conn[i]
        invariant woken == old(woken) + multiset(AllWakeups(t, conn - left.Keys))
        decreases |left.Keys|
      {
        var i :| i in left;
        WakeupAdded(t, conn, left, i);
        woken := woken + multiset{Wakeup(t, i, left[i])};
        left := left - {i};
      }
      assert conn - left.Keys == conn;
    }

    method CloseConn(t: Token)
      modifies this`wakers, this`woken, this`incomingStreams
      ensures Model() == OnClosed(old(Model()), t)
    {
      if t in wakers {
        var conn := wakers[t];
        wakers := wakers - {t};
        WakeAll(t, conn);
      } else {
        NoWakeups(t, map[]);
        assert wakers == wakers - {t};
      }
      incomingStreams := incomingStreams - {t};
    }

    method DispatchOne(e: Event)
      requires Dispatchable(e.kind)
      modifies this
      ensures Model() == Dispatch(old(Model()), e)
    {
      var t := e.token;
      match e.kind {
        case Connected =>
          established := established + {t};
          WakeOne(t, ToConnect);
        case Accept =>
          incomingConns := incomingConns + [t];
          if accept.Some? {
            acceptsWoken := acceptsWoken + 1;
            accept := None;
          }
        case Closed =>
          CloseConn(t);
        case StreamOpenBidi =>
          WakeOne(t, ToOpenBidi);
        case StreamOpenUni =>
          WakeOne(t, ToOpenUni);
        case StreamAccept =>
          var queue := if t in incomingStreams then incomingStreams[t] else [];
          incomingStreams := incomingStreams[t := queue + [e.streamId]];
          WakeOne(t, ToAccept);
        case StreamSend =>
          WakeOne(t, ToSend(e.streamId));
        case StreamRecv =>
          WakeOne(t, ToRecv(e.streamId));
      }
    }

    // The dispatch loop of `run_once` over one polled batch.
    method RunOnce(events: seq<Event>)
      requires forall e :: e in events ==> Dispatchable(e.kind)
      modifies this
      ensures Model() == DispatchAll(old(Model()), events)
    {
      for n := 0 to |events|
        invariant Model() == DispatchAll(old(Model()), events[..n])
      {
        assert events[..n + 1][..n] == events[..n];
        DispatchOne(events[n]);
      }
      assert events[..|events|] == events;
    }

    // First critical section of `open`, `send` and `recv`: the waker is registered before trying.
    method RegisterWaker(t: Token, i: Interest, w: Waker)
      modifies this`wakers
      ensures Model() == Register(old(Model()), t, i, w)
    {
      var conn := if t in wakers then wakers[t] else map[];
      wakers := wakers[t := conn[i := w]];
    }

    method TryAccept(t: Token, w: Waker) returns (r: Option<nat>)
      modifies this`wakers, this`incomingStreams
      ensures (Model(), r) == AcceptStream(old(Model()), t, w)
    {
      var queue := if t in incomingStreams then incomingStreams[t] else [];
      if queue != [] {
        incomingStreams := incomingStreams[t := queue[1..]];
        return Some(queue[0]);
      }
      incomingStreams := incomingStreams[t := []];
      RegisterWaker(t, ToAccept, w);
      return None;
    }

    method TryAcceptConn(w: Waker) returns (r: Option<Token>)
      modifies this`accept, this`incomingConns
      ensures (Model(), r) == AcceptConn(old(Model()), w)
    {
      if incomingConns != [] {
        r := Some(incomingConns[0]);
        incomingConns := incomingConns[1..];
        return;
      }
      accept := Some(w);
      return None;
    }

    method TryEstablished(t: Token, w: Waker) returns (ready: bool)
      modifies this`established, this`wakers
      ensures (Model(), ready) == AwaitEstablished(old(Model()), t, w)
    {
      if t in established {
        established := established - {t};
        return true;
      }
      RegisterWaker(t, ToConnect, w);
      return false;
    }

    method ShutdownStream(t: Token, id: nat)
      modifies this`wakers, this`woken
      ensures Model() == ShutStream(old(Model()), t, id)
    {
      WakeOne(t, ToSend(id));
      WakeOne(t, ToRecv(id));
    }
  }

  lemma NoWakeups(t: Token, m: map<Interest, Waker>)
    ensures AllWakeups(t, m - m.Keys) == {} && AllWakeups(t, map[]) == {}
  {
  }

  lemma WakeupAdded(t: Token, conn: map<Interest, Waker>, left: map<Interest, Waker>, i: Interest)
    requires left.Keys <= conn.Keys && i in left
    ensures multiset(AllWakeups(t, conn - (left - {i}).Keys))
         == multiset(AllWakeups(t, conn - left.Keys)) + multiset{Wakeup(t, i, conn[i])}
  {
    var before, after := conn - left.Keys, conn - (left - {i}).Keys;
    assert after.Keys == before.Keys + {i};
    forall x | x in after && x != i
      ensures Wakeup(t, x, after[x]) in AllWakeups(t, before)
    {
      assert x in before && before[x] == after[x];
    }
    assert AllWakeups(t, after) == AllWakeups(t, before) + {Wakeup(t, i, conn[i])};
  }
}
