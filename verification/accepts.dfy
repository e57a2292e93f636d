// Every stream announced by a connection is in exactly one place, from the announcement until
// `accept` returns it or the connection's close discards it.
module Accepts {
  import opened Api
  import opened Readiness
  import opened QuicheLib
  import opened Conns
  import opened Releases
  import opened Sessions
  import Groups
  import opened Futures
  import opened Systems

  ghost predicate Known(g: Groups.GroupState, t: Token) {
    t in g.sessions || t in g.retired
  }

  ghost function ConnOf(g: Groups.GroupState, t: Token): Conn
    requires Known(g, t)
  {
    if t in g.sessions then g.sessions[t].conn else g.retired[t]
  }

  function AcceptEvent(t: Token, isServer: bool, id: nat): Event {
    Event(t, EventKind.StreamAccept, isServer, false, id)
  }

  function Bit(b: bool): nat {
    if b then 1 else 0
  }

  // In how many places the announcement of stream `id` is.
  ghost function Copies(ready: Ready, polled: multiset<Event>, hub: Hub, handed: multiset<nat>, discarded: multiset<nat>,
                        t: Token, isServer: bool, id: nat): nat
  {
    var e := AcceptEvent(t, isServer, id);
    Bit(e in ready.events) + polled[e] + multiset(IncomingOf(hub, t))[id] + handed[id] + discarded[id]
  }

  ghost function CopiesIn(s: System, t: Token, id: nat): nat
    requires Known(s.group, t)
  {
    Copies(s.group.ready, s.group.polled, s.hub, CountOf(s.handed, t), CountOf(s.discarded, t),
           t, ConnOf(s.group, t).wrapped.isServer, id)
  }

  // Announcements waiting in the queue or in a batch come from connections of the group.
  ghost predicate OwnAnnouncements(g: Groups.GroupState) {
    forall e :: (e in g.ready.events || e in g.polled) && e.kind.StreamAccept? ==>
      Known(g, e.token) && e.isServer == ConnOf(g, e.token).wrapped.isServer && !e.isError
  }

  // One copy of what was announced, none of anything else.
  ghost predicate Conserved(s: System, t: Token, id: nat) {
    if Known(s.group, t) then CopiesIn(s, t, id) == Bit(Announced(ConnOf(s.group, t), id))
    else IncomingOf(s.hub, t) == [] && CountOf(s.handed, t) == multiset{} && CountOf(s.discarded, t) == multiset{}
  }

  ghost predicate AcceptInv(s: System) {
    && OwnAnnouncements(s.group)
    && s.group.sessions.Keys !! s.group.retired.Keys
    && forall t: Token, id: nat :: Conserved(s, t, id)
  }

  // ---- A step of one connection ----

  // What matters of a step of connection u for the announcement of stream `id`.
  ghost predicate AnnouncedStep(c: Conn, ready: Ready, c': Conn, ready': Ready, id: nat) {
    && c'.token == c.token && c'.wrapped.isServer == c.wrapped.isServer
    && QueueLater(c, ready, ready')
    && (Announced(c, id) ==> Announced(c', id))
    && (AcceptRaised(Site(c', ready'), id) <==>
          AcceptRaised(Site(c, ready), id) || (Announced(c', id) && !Announced(c, id)))
  }

  // A group in which connection u has made a step, and was perhaps taken out by it.
  ghost predicate GroupAfter(g: Groups.GroupState, u: Token, c: Conn, c': Conn, g': Groups.GroupState) {
    && c.token == u && c'.token == u && c'.wrapped.isServer == c.wrapped.isServer
    && (Known(g, u) ==> ConnOf(g, u) == c)
    && Known(g', u) && ConnOf(g', u) == c'
    && (forall t :: t != u ==> (Known(g', t) <==> Known(g, t)))
    && (forall t :: t != u && Known(g, t) ==> ConnOf(g', t) == ConnOf(g, t))
    && g'.sessions.Keys !! g'.retired.Keys
    && QueueLater(c, g.ready, g'.ready)
    && g'.polled <= g.polled && (forall e: Event :: e.kind.StreamAccept? ==> g'.polled[e] == g.polled[e])
  }

  lemma OwnAnnouncementsStay(g: Groups.GroupState, u: Token, c: Conn, c': Conn, g': Groups.GroupState)
    requires GroupAfter(g, u, c, c', g') && OwnAnnouncements(g)
    ensures OwnAnnouncements(g')
  {
  }

  // No announcement of stream `id` of this connection is waiting.
  ghost predicate Unheard(g: Groups.GroupState, c: Conn, id: nat) {
    var e := AcceptEvent(c.token, c.wrapped.isServer, id);
    e !in g.ready.events && e !in g.polled
  }

  lemma ConservedAfter(s: System, u: Token, c: Conn, c': Conn, g': Groups.GroupState, t: Token, id: nat)
    requires GroupAfter(s.group, u, c, c', g') && Conserved(s, t, id)
    requires t == u ==> AnnouncedStep(c, s.group.ready, c', g'.ready, id)
    requires t == u && !Known(s.group, u) ==> !Announced(c, id) && Unheard(s.group, c, id)
    ensures Conserved(s.(group := g'), t, id)
  {
  }

  lemma ConnStepConserves(s: System, u: Token, c: Conn, c': Conn, g': Groups.GroupState)
    requires AcceptInv(s) && GroupAfter(s.group, u, c, c', g')
    requires forall id: nat :: AnnouncedStep(c, s.group.ready, c', g'.ready, id)
    requires Known(s.group, u) || forall id: nat :: !Announced(c, id)
    ensures AcceptInv(s.(group := g'))
  {
    OwnAnnouncementsStay(s.group, u, c, c', g');
    forall t: Token, id: nat
      ensures Conserved(s.(group := g'), t, id)
    {
      assert Conserved(s, t, id);
      ConservedAfter(s, u, c, c', g', t, id);
    }
  }

  lemma ActAnnouncedStep(g: Groups.GroupState, u: Token, a: Action, id: nat)
    requires Groups.GroupInv(g) && u in g.sessions && Allowed(g.sessions[u], a)
    ensures var (s', ready') := Act(g.sessions[u], g.ready, a);
      AnnouncedStep(g.sessions[u].conn, g.ready, s'.conn, ready', id)
  {
    ActAnnounces(g.sessions[u], g.ready, a, id);
    ActIsActed(g.sessions[u], g.ready, a);
  }

  lemma ActedOnIsAfter(g: Groups.GroupState, u: Token, a: Action, s': Session, ready': Ready)
    requires u in g.sessions && g.sessions.Keys !! g.retired.Keys
    requires g.sessions[u].conn.token == u && Acted(g.sessions[u], g.ready, s', ready')
    ensures GroupAfter(g, u, g.sessions[u].conn, s'.conn, Groups.ActedOn(g, u, a, s', ready'))
  {
    hide Groups.ActedOn;
    Groups.ActedOnQueue(g, u, a, s', ready');
  }

  lemma OnConnConserves(s: System, u: Token, a: Action)
    requires Groups.GroupInv(s.group) && AcceptInv(s) && Groups.Enabled(s.group, Groups.OnConn(u, a))
    ensures AcceptInv(s.(group := Groups.Take(s.group, Groups.OnConn(u, a))))
  {
    var g := s.group;
    var (s', ready') := Act(g.sessions[u], g.ready, a);
    ActIsActed(g.sessions[u], g.ready, a);
    ActedOnIsAfter(g, u, a, s', ready');
    forall id: nat
      ensures AnnouncedStep(g.sessions[u].conn, g.ready, s'.conn, ready', id)
    {
      ActAnnouncedStep(g, u, a, id);
    }
    ConnStepConserves(s, u, g.sessions[u].conn, s'.conn, Groups.ActedOn(g, u, a, s', ready'));
  }

  // A lock attempt by `send` or by a parking receiver announces nothing.
  lemma AttemptLocks(g: Groups.GroupState, u: Token)
    requires Groups.GroupInv(g) && u in g.sessions
    ensures Act(g.sessions[u], g.ready, TryLocking(LocKind.Recv)).0.conn == TryLock(g.sessions[u].conn, LocKind.Recv).0
    ensures Act(g.sessions[u], g.ready, TryLocking(LocKind.Recv)).1 == g.ready
  {
  }

  lemma AttemptConserves(s: System, u: Token, s': Session, g': Groups.GroupState)
    requires AcceptInv(s) && u in s.group.sessions && s.group.sessions[u].conn.token == u
    requires s'.conn == TryLock(s.group.sessions[u].conn, LocKind.Recv).0
    requires g'.sessions == s.group.sessions[u := s'] && g'.ready == s.group.ready && g'.retired == s.group.retired
    requires g'.polled <= s.group.polled
    requires forall e: Event :: e.kind.StreamAccept? ==> g'.polled[e] == s.group.polled[e]
    ensures AcceptInv(s.(group := g'))
  {
    var c := s.group.sessions[u].conn;
    assert s'.conn.token == c.token && s'.conn.wrapped == c.wrapped;
    hide TryLock;
    assert GroupAfter(s.group, u, c, s'.conn, g');
    ConnStepConserves(s, u, c, s'.conn, g');
  }

  lemma RegisteredAnnounces(token: Token, q: Quiche, ready: Ready, now: Time, id: nat)
    ensures var (s', ready') := Groups.Registered(token, q, ready, now);
      AnnouncedStep(NewConn(token, q), ready, s'.conn, ready', id)
  {
    var s0 := Session(NewConn(token, q), multiset{}, {}, false);
    var s1 := Prepare(s0, TryLocking(LocKind.ReadLock)).session;
    UnlockAnnounces(Site(s1.conn, ready), false, [], now, id);
    Groups.RegisteredFacts(token, q, ready, now);
  }

  lemma RegisteredIsAfter(g: Groups.GroupState, u: Token, c: Conn, s': Session, ready': Ready, scid: ConnectionId)
    requires !Known(g, u) && g.sessions.Keys !! g.retired.Keys && c.token == u
    requires s'.conn.token == u && s'.conn.wrapped.isServer == c.wrapped.isServer && QueueLater(c, g.ready, ready')
    ensures GroupAfter(g, u, c, s'.conn, Groups.WithSession(g, u, s', ready', scid))
  {
  }

  lemma RegisterConserves(s: System, step: Groups.Step)
    requires Groups.GroupInv(s.group) && AcceptInv(s) && step.Register? && Groups.Enabled(s.group, step)
    requires step.token !in s.group.retired
    ensures AcceptInv(s.(group := Groups.Take(s.group, step)))
  {
    var g, c := s.group, NewConn(step.token, step.q);
    var (s', ready') := Groups.Registered(step.token, step.q, g.ready, step.now);
    Groups.RegisteredFacts(step.token, step.q, g.ready, step.now);
    var g' := Groups.WithSession(g, step.token, s', ready', step.q.sourceId);
    assert g' == Groups.Take(g, step);
    RegisteredIsAfter(g, step.token, c, s', ready', step.q.sourceId);
    forall id: nat
      ensures AnnouncedStep(c, g.ready, s'.conn, g'.ready, id)
    {
      RegisteredAnnounces(step.token, step.q, g.ready, step.now, id);
    }
    ConnStepConserves(s, step.token, c, s'.conn, g');
  }

  // ---- Steps that only move events ----

  lemma PollMovesEvent(ready: Ready, polled: multiset<Event>, now: Time, e: Event)
    requires Groups.QueueInv(ready) && !e.kind.Send?
    ensures var threshold := RELEASE_TIMER_THRESHOLD;
      && e !in ready.Rest(now, threshold).events
      && (polled + multiset(ready.Due(now, threshold)))[e] == Bit(e in ready.events) + polled[e]
  {
  }

  lemma PollKeepsOwn(g: Groups.GroupState, now: Time)
    requires Groups.GroupInv(g) && OwnAnnouncements(g)
    ensures OwnAnnouncements(Groups.Take(g, Groups.PollAll(now)))
  {
    var g' := Groups.Take(g, Groups.PollAll(now));
    assert g'.sessions == g.sessions && g'.retired == g.retired;
    hide Groups.Take, Groups.GroupInv, OwnAnnouncements;
    forall e | (e in g'.ready.events || e in g'.polled) && e.kind.StreamAccept?
      ensures e in g.ready.events || e in g.polled
    {
      PolledFrom(g, now, e);
    }
    OwnAnnouncementsFrom(g, g');
  }

  lemma PolledFrom(g: Groups.GroupState, now: Time, e: Event)
    requires Groups.GroupInv(g) && !e.kind.Send?
    requires var g' := Groups.Take(g, Groups.PollAll(now)); e in g'.ready.events || e in g'.polled
    ensures e in g.ready.events || e in g.polled
  {
    PollMovesEvent(g.ready, g.polled, now, e);
  }

  lemma OwnAnnouncementsFrom(g: Groups.GroupState, g': Groups.GroupState)
    requires OwnAnnouncements(g) && g'.sessions == g.sessions && g'.retired == g.retired
    requires forall e :: (e in g'.ready.events || e in g'.polled) && e.kind.StreamAccept? ==>
      e in g.ready.events || e in g.polled
    ensures OwnAnnouncements(g')
  {
  }

  lemma PollConserved(s: System, now: Time, t: Token, id: nat)
    requires Groups.GroupInv(s.group) && Conserved(s, t, id)
    ensures Conserved(s.(group := Groups.Take(s.group, Groups.PollAll(now))), t, id)
  {
    var g := s.group;
    if Known(g, t) {
      PollMovesEvent(g.ready, g.polled, now, AcceptEvent(t, ConnOf(g, t).wrapped.isServer, id));
    }
  }

  lemma PollConserves(s: System, now: Time)
    requires Groups.GroupInv(s.group) && AcceptInv(s)
    ensures AcceptInv(s.(group := Groups.Take(s.group, Groups.PollAll(now))))
  {
    var g' := Groups.Take(s.group, Groups.PollAll(now));
    assert s.group.sessions == g'.sessions && s.group.retired == g'.retired;
    PollKeepsOwn(s.group, now);
    hide Conserved, Groups.Take, OwnAnnouncements;
    forall t: Token, id: nat
      ensures Conserved(s.(group := g'), t, id)
    {
      assert Conserved(s, t, id);
      PollConserved(s, now, t, id);
    }
  }

  // Nothing changes for announcements.
  ghost predicate SameAnnouncements(g: Groups.GroupState, g': Groups.GroupState) {
    && g'.sessions == g.sessions && g'.retired == g.retired && g'.ready == g.ready && g'.polled <= g.polled
    && forall e: Event :: e.kind.StreamAccept? ==> g'.polled[e] == g.polled[e]
  }

  lemma SameConserves(s: System, g': Groups.GroupState)
    requires AcceptInv(s) && SameAnnouncements(s.group, g')
    ensures AcceptInv(s.(group := g'))
  {
    var s' := s.(group := g');
    forall t: Token, id: nat
      ensures Conserved(s', t, id)
    {
      assert Conserved(s, t, id);
    }
  }

  // Tokens of connections that are gone are not given out again.
  ghost predicate FreshToken(s: System, step: Step) {
    step.InGroup? && step.step.Register? ==> step.step.token !in s.group.retired
  }

  lemma ParkConserves(s: System, step: Groups.Step)
    requires Groups.GroupInv(s.group) && AcceptInv(s) && Groups.Enabled(s.group, step) && step.ReceiverParks?
    ensures AcceptInv(s.(group := Groups.Take(s.group, step)))
  {
    hide Groups.Take, Act, Prepare, AcceptInv, TryLock;
    Groups.ParksTakes(s.group, step.token, step.unparker);
    AttemptLocks(s.group, step.token);
    Groups.AttemptActs(s.group, step.token);
    hide SessionInv;
    AttemptConserves(s, step.token, Prepare(s.group.sessions[step.token], TryLocking(LocKind.Recv)).session,
                     Groups.Take(s.group, step));
  }

  lemma SendConserves(s: System, step: Groups.Step)
    requires Groups.GroupInv(s.group) && AcceptInv(s) && Groups.Enabled(s.group, step) && step.TrySend?
    ensures AcceptInv(s.(group := Groups.Take(s.group, step)))
  {
    hide Groups.Take, Act, Prepare, AcceptInv, TryLock;
    var t := step.event.token;
    Groups.TrySendTakes(s.group, step.event);
    if t in s.group.sessions {
      AttemptLocks(s.group, t);
      Groups.AttemptActs(s.group, t);
      hide SessionInv;
      AttemptConserves(s, t, Prepare(s.group.sessions[t], TryLocking(LocKind.Recv)).session,
                       Groups.Take(s.group, step));
    } else {
      SameConserves(s, Groups.Take(s.group, step));
    }
  }

  // Every connection is still known, in the group or among those taken out.
  ghost predicate Relocated(g: Groups.GroupState, g': Groups.GroupState) {
    && g'.ready == g.ready && g'.polled == g.polled && g'.sessions.Keys !! g'.retired.Keys
    && (forall t: Token :: Known(g', t) <==> Known(g, t))
    && (forall t: Token :: Known(g, t) ==> ConnOf(g', t) == ConnOf(g, t))
  }

  lemma RelocatedConserves(s: System, g': Groups.GroupState)
    requires AcceptInv(s) && Relocated(s.group, g')
    ensures AcceptInv(s.(group := g'))
  {
    forall t: Token, id: nat
      ensures Conserved(s.(group := g'), t, id)
    {
      assert Conserved(s, t, id);
    }
  }

  lemma RemovedIsRelocated(g: Groups.GroupState, u: Token, closing: multiset<Token>)
    requires g.sessions.Keys !! g.retired.Keys
    ensures var g1 := g.(closing := closing);
      Relocated(g, if u in g1.sessions then Groups.Removed(g1, u) else g1)
  {
  }

  lemma ExpireConserves(s: System, u: Token)
    requires Groups.GroupInv(s.group) && AcceptInv(s) && Groups.Enabled(s.group, Groups.Expire(u))
    ensures AcceptInv(s.(group := Groups.Take(s.group, Groups.Expire(u))))
  {
    hide Groups.Take, Groups.Removed, Relocated;
    Groups.ExpireTakes(s.group, u);
    RemovedIsRelocated(s.group, u, s.group.closing - multiset{u});
    hide AcceptInv;
    RelocatedConserves(s, Groups.Take(s.group, Groups.Expire(u)));
  }

  lemma DropOrHandleConserves(s: System, step: Groups.Step)
    requires Groups.GroupInv(s.group) && AcceptInv(s) && Groups.Enabled(s.group, step)
    requires step.DropScid? || (step.Handle? && step.event.kind.Recv?)
    ensures AcceptInv(s.(group := Groups.Take(s.group, step)))
  {
    hide Act, AcceptInv;
    SameConserves(s, Groups.Take(s.group, step));
  }

  lemma GroupStepConserves(s: System, step: Step)
    requires Groups.GroupInv(s.group) && AcceptInv(s) && step.InGroup? && Enabled(s, step) && FreshToken(s, step)
    ensures AcceptInv(Take(s, step))
  {
    assert step.step.Register? ==> step.step.token !in s.group.retired;
    hide Groups.Take, Groups.Enabled, Groups.GroupInv, AcceptInv;
    match step.step
    case Register(_, _, _) => RegisterConserves(s, step.step);
    case OnConn(u, a) => OnConnConserves(s, u, a);
    case ReceiverParks(_, _) => ParkConserves(s, step.step);
    case Expire(u) => ExpireConserves(s, u);
    case DropScid(_) => DropOrHandleConserves(s, step.step);
    case PollAll(now) => PollConserves(s, now);
    case TrySend(_) => SendConserves(s, step.step);
    case Handle(_) => DropOrHandleConserves(s, step.step);
  }

  // ---- Dispatching and accepting ----

  // A dispatched announcement moves to the queue of incoming streams.
  lemma DispatchedCopies(ready: Ready, polled: multiset<Event>, h: Hub, h': Hub, handed: multiset<nat>,
                         discarded: multiset<nat>, t: Token, isServer: bool, id: nat, e: Event)
    requires e in polled && e.token == t && e.kind.StreamAccept? && e.isServer == isServer && !e.isError
    requires IncomingOf(h', t) == IncomingOf(h, t) + [e.streamId]
    ensures Copies(ready, polled - multiset{e}, h', handed, discarded, t, isServer, id)
         == Copies(ready, polled, h, handed, discarded, t, isServer, id)
  {
  }

  // A close moves the queue to the streams discarded.
  lemma ClosedCopies(ready: Ready, polled: multiset<Event>, h: Hub, h': Hub, handed: multiset<nat>,
                     discarded: multiset<nat>, t: Token, isServer: bool, id: nat, e: Event)
    requires e in polled && e.kind.Closed? && IncomingOf(h', t) == []
    ensures Copies(ready, polled - multiset{e}, h', handed, discarded + multiset(IncomingOf(h, t)), t, isServer, id)
         == Copies(ready, polled, h, handed, discarded, t, isServer, id)
  {
  }

  // Any other event, or one of another connection.
  lemma OtherCopies(ready: Ready, polled: multiset<Event>, h: Hub, h': Hub, handed: multiset<nat>,
                    discarded: multiset<nat>, t: Token, isServer: bool, id: nat, e: Event)
    requires e in polled && (e.token != t || !e.kind.StreamAccept?) && IncomingOf(h', t) == IncomingOf(h, t)
    ensures Copies(ready, polled - multiset{e}, h', handed, discarded, t, isServer, id)
         == Copies(ready, polled, h, handed, discarded, t, isServer, id)
  {
  }

  // An accepted stream moves from the queue to those handed out.
  lemma AcceptedCopies(ready: Ready, polled: multiset<Event>, h: Hub, h': Hub, handed: multiset<nat>,
                       discarded: multiset<nat>, t: Token, isServer: bool, id: nat)
    requires IncomingOf(h, t) != [] && IncomingOf(h', t) == IncomingOf(h, t)[1..]
    ensures Copies(ready, polled, h', handed + multiset{IncomingOf(h, t)[0]}, discarded, t, isServer, id)
         == Copies(ready, polled, h, handed, discarded, t, isServer, id)
  {
    assert IncomingOf(h, t) == [IncomingOf(h, t)[0]] + IncomingOf(h', t);
  }

  // What one dispatched event does to the books of one connection.
  ghost predicate Dispatched(s: System, e: Event, s': System, t: Token) {
    && s'.group == s.group.(polled := s.group.polled - multiset{e}) && s'.handed == s.handed
    && (if e.token != t || (!e.kind.Closed? && !e.kind.StreamAccept?) then
          IncomingOf(s'.hub, t) == IncomingOf(s.hub, t) && CountOf(s'.discarded, t) == CountOf(s.discarded, t)
        else if e.kind.Closed? then
          && IncomingOf(s'.hub, t) == []
          && CountOf(s'.discarded, t) == CountOf(s.discarded, t) + multiset(IncomingOf(s.hub, t))
        else
          && IncomingOf(s'.hub, t) == IncomingOf(s.hub, t) + [e.streamId]
          && CountOf(s'.discarded, t) == CountOf(s.discarded, t))
  }

  lemma DispatchedConserved(s: System, e: Event, s': System, t: Token, id: nat)
    requires e in s.group.polled && Dispatched(s, e, s', t) && OwnAnnouncements(s.group)
    requires Conserved(s, t, id)
    ensures Conserved(s', t, id)
  {
    var g, handed, discarded := s.group, CountOf(s.handed, t), CountOf(s.discarded, t);
    if Known(g, t) {
      var isServer := ConnOf(g, t).wrapped.isServer;
      assert ConnOf(s'.group, t) == ConnOf(g, t);
      hide Copies;
      if e.token == t && e.kind.Closed? {
        ClosedCopies(g.ready, g.polled, s.hub, s'.hub, handed, discarded, t, isServer, id, e);
      } else if e.token == t && e.kind.StreamAccept? {
        DispatchedCopies(g.ready, g.polled, s.hub, s'.hub, handed, discarded, t, isServer, id, e);
      } else {
        OtherCopies(g.ready, g.polled, s.hub, s'.hub, handed, discarded, t, isServer, id, e);
      }
    }
  }

  lemma TakeDispatches(s: System, e: Event, t: Token)
    requires Groups.ConnsOk(s.group) && Enabled(s, DispatchEvent(e))
    ensures Dispatched(s, e, Take(s, DispatchEvent(e)), t)
  {
    var s' := Take(s, DispatchEvent(e));
    assert s'.group == s.group.(polled := s.group.polled - multiset{e});
    hide Dispatch, Groups.ConnsOk, Groups.Take, Groups.Enabled;
    DispatchIncoming(s.hub, e, t);
  }

  lemma DispatchConserves(s: System, e: Event)
    requires Groups.GroupInv(s.group) && AcceptInv(s) && Enabled(s, DispatchEvent(e))
    ensures AcceptInv(Take(s, DispatchEvent(e)))
  {
    var s' := Take(s, DispatchEvent(e));
    assert s'.group == s.group.(polled := s.group.polled - multiset{e});
    assert e in s.group.polled;
    hide Take, Enabled, Dispatch, Dispatched, Conserved;
    OwnAnnouncementsFrom(s.group, s'.group);
    forall t: Token, id: nat
      ensures Conserved(s', t, id)
    {
      assert Conserved(s, t, id);
      TakeDispatches(s, e, t);
      DispatchedConserved(s, e, s', t, id);
    }
  }

  // What a call of `accept` does to the books of one connection.
  ghost predicate Accepted(s: System, u: Token, s': System, t: Token) {
    && s'.group == s.group && s'.discarded == s.discarded
    && (if u == t && IncomingOf(s.hub, t) != [] then
          && IncomingOf(s'.hub, t) == IncomingOf(s.hub, t)[1..]
          && CountOf(s'.handed, t) == CountOf(s.handed, t) + multiset{IncomingOf(s.hub, t)[0]}
        else IncomingOf(s'.hub, t) == IncomingOf(s.hub, t) && CountOf(s'.handed, t) == CountOf(s.handed, t))
  }

  lemma AcceptedConserved(s: System, u: Token, s': System, t: Token, id: nat)
    requires Accepted(s, u, s', t) && Conserved(s, t, id)
    ensures Conserved(s', t, id)
  {
    if Known(s.group, t) && u == t && IncomingOf(s.hub, t) != [] {
      AcceptedCopies(s.group.ready, s.group.polled, s.hub, s'.hub, CountOf(s.handed, t), CountOf(s.discarded, t),
                     t, ConnOf(s.group, t).wrapped.isServer, id);
    }
  }

  lemma TakeAccepts(s: System, u: Token, w: Waker, t: Token)
    requires Groups.ConnsOk(s.group)
    ensures Accepted(s, u, Take(s, Accepting(u, w)), t)
  {
    hide Dispatch, Groups.Take, Groups.Enabled, Groups.ConnsOk, OpenNow, TryLock;
    var (hub, r) := AcceptStream(s.hub, u, w);
    assert r.Some? <==> IncomingOf(s.hub, u) != [];
    if u == t {
      assert r.Some? ==> IncomingOf(hub, t) == IncomingOf(s.hub, t)[1..];
    } else {
      assert IncomingOf(hub, t) == IncomingOf(s.hub, t);
    }
    hide IncomingOf, AcceptStream;
  }

  lemma AcceptConserves(s: System, u: Token, w: Waker)
    requires Groups.GroupInv(s.group) && AcceptInv(s)
    ensures AcceptInv(Take(s, Accepting(u, w)))
  {
    var s' := Take(s, Accepting(u, w));
    assert s'.group == s.group;
    hide Take, Accepted, Conserved, Groups.GroupInv;
    forall t: Token, id: nat
      ensures Conserved(s', t, id)
    {
      assert Conserved(s, t, id);
      TakeAccepts(s, u, w, t);
      AcceptedConserved(s, u, s', t, id);
    }
  }

  lemma SameQueuesConserve(s: System, s': System)
    requires AcceptInv(s) && s'.group == s.group && s'.handed == s.handed && s'.discarded == s.discarded
    requires s'.hub.incomingStreams == s.hub.incomingStreams
    ensures AcceptInv(s')
  {
    forall t: Token, id: nat
      ensures Conserved(s', t, id)
    {
      assert Conserved(s, t, id);
    }
  }

  lemma TryConserves(s: System, step: Step)
    requires Groups.GroupInv(s.group) && AcceptInv(s) && Enabled(s, step) && (step.TryOpen? || step.TryRecv?)
    ensures AcceptInv(Take(s, step))
  {
    var t, s' := step.token, Take(s, step);
    TryTakes(s, step);
    hide Take, Enabled, AcceptInv, Groups.Take, Groups.GroupInv;
    if t in s.group.sessions {
      var a := Tried(step);
      OnConnConserves(s, t, a);
      SameQueuesConserve(s.(group := Groups.Take(s.group, Groups.OnConn(t, a))), s');
    } else {
      SameQueuesConserve(s, s');
    }
  }

  lemma WakerStepConserves(s: System, step: Step)
    requires Groups.GroupInv(s.group) && AcceptInv(s) && Enabled(s, step)
    requires step.Begin? || step.Finish? || step.AcceptingConn? || step.Awaiting? || step.ShuttingStream?
    ensures AcceptInv(Take(s, step))
  {
    var s' := Take(s, step);
    hide Take, Enabled, AcceptInv, Groups.GroupInv;
    WakerStepMovesNothing(s, step);
    SameQueuesConserve(s, s');
  }

  lemma WakerStepMovesNothing(s: System, step: Step)
    requires Groups.GroupInv(s.group) && Enabled(s, step)
    requires step.Begin? || step.Finish? || step.AcceptingConn? || step.Awaiting? || step.ShuttingStream?
    ensures var s' := Take(s, step);
      && s'.group == s.group && s'.handed == s.handed && s'.discarded == s.discarded
      && s'.hub.incomingStreams == s.hub.incomingStreams
  {
    hide Groups.Take, Groups.Enabled, Groups.GroupInv, Dispatch, AcceptStream, OpenNow, TryLock, TaskOf;
    match step
    case Begin(_, _, _) =>
    case Finish(_, _) =>
    case AcceptingConn(_) =>
    case Awaiting(_, _) =>
    case ShuttingStream(t, id) =>
      ShutKeepsQueues(s.hub, t, id);
      hide ShutStream;
  }

  // Every step keeps the books.
  lemma StepConserves(s: System, step: Step)
    requires Groups.GroupInv(s.group) && AcceptInv(s) && Enabled(s, step) && FreshToken(s, step)
    ensures AcceptInv(Take(s, step))
  {
    hide Take, Enabled, AcceptInv, Groups.GroupInv;
    match step
    case InGroup(_) => GroupStepConserves(s, step);
    case TryOpen(_, _, _, _, _) => TryConserves(s, step);
    case TryRecv(_, _) => TryConserves(s, step);
    case DispatchEvent(e) => DispatchConserves(s, e);
    case Accepting(t, w) => AcceptConserves(s, t, w);
    case Begin(_, _, _) => WakerStepConserves(s, step);
    case Finish(_, _) => WakerStepConserves(s, step);
    case AcceptingConn(_) => WakerStepConserves(s, step);
    case Awaiting(_, _) => WakerStepConserves(s, step);
    case ShuttingStream(_, _) => WakerStepConserves(s, step);
  }
}
