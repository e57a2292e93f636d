// A group of connections under one mutex: every critical section is one atomic step, guards
// are held and dropped outside of it by any thread.
module Groups {
  import opened Api
  import opened Readiness
  import opened QuicheLib
  import opened Conns
  import opened Releases
  import opened Sessions

  type Unparker = nat

  // `leaving` are the source ids of connections taken out of the group whose `scids` entry is
  // dropped in a later critical section; `polled` are the events handed out and not yet
  // handled; `unparked` are the receivers woken so far; `retired` are the connections taken out;
  // `closing` are the automatic deregistrations that a release has left to a later critical
  // section; `orphans` are the guards still out on connections taken out.
  datatype GroupState = GroupState(
    tokenNext: Token,
    sessions: map<Token, Session>,
    scids: map<ConnectionId, Token>,
    ready: Ready,
    unparkers: map<Token, Unparker>,
    unparked: seq<Unparker>,
    leaving: map<ConnectionId, Token>,
    polled: multiset<Event>,
    retired: map<Token, Conn>,
    closing: multiset<Token>,
    orphans: multiset<LockContext>)

  datatype Step =
    | Register(token: Token, q: Quiche, now: Time)
    | OnConn(token: Token, action: Action)
    | ReceiverParks(token: Token, unparker: Unparker)
    | TakeOut(token: Token)
    | Expire(token: Token)
    | DropScid(scid: ConnectionId)
    | PollAll(now: Time)
    | TrySend(event: Event)
    | Handle(event: Event)

  ghost function SourceOf(g: GroupState, t: Token): ConnectionId
    requires t in g.sessions
  {
    g.sessions[t].conn.wrapped.sourceId
  }

  function NextToken(t: Token): Token {
    (t + 1) % TWO_TO_THE_32
  }

  function TokenAt(start: Token, distance: nat): Token {
    (start + distance) % TWO_TO_THE_32
  }

  // The token the wrapping search settles on: the first free one from `start` on.
  ghost predicate IsFirstFree(start: Token, used: set<Token>, token: Token) {
    exists d :: 0 <= d < TWO_TO_THE_32 && FreeAtDistance(start, used, token, d)
  }

  ghost predicate FreeAtDistance(start: Token, used: set<Token>, token: Token, d: nat) {
    && token == TokenAt(start, d) && token !in used
    && forall j :: 0 <= j < d ==> TokenAt(start, j) in used
  }

  // A connection registers with a fresh source id; outside `register` only exclusive locks
  // are taken. TakeOut is the explicit `deregister`, Expire the automatic one.
  ghost predicate Possible(g: GroupState, s: Step) {
    match s
    case Register(token, q, now) =>
      && IsFirstFree(g.tokenNext, g.sessions.Keys, token)
      && q.sourceId !in g.leaving && (forall t :: t in g.sessions ==> SourceOf(g, t) != q.sourceId)
    case OnConn(token, action) =>
      && token in g.sessions && Allowed(g.sessions[token], action)
      && (action.TryLocking? ==> !action.lock.ReadLock?)
    case ReceiverParks(token, _) => token in g.sessions && !g.sessions[token].conn.locker.Unlocked?
    case TakeOut(token) => token in g.sessions
    case Expire(token) => token in g.closing
    case DropScid(scid) => scid in g.leaving
    case PollAll(now) => true
    case TrySend(event) => event in g.polled && event.kind.Send?
    case Handle(event) => event in g.polled && !event.kind.Send?
  }

  // A connection is taken out only while no guard on it is outstanding.
  ghost predicate Orderly(g: GroupState, s: Step) {
    (s.TakeOut? || s.Expire?) && s.token in g.sessions ==> g.sessions[s.token].guards == multiset{}
  }

  ghost predicate Enabled(g: GroupState, s: Step) {
    Possible(g, s) && Orderly(g, s)
  }

  // ---- Steps ----

  ghost function Registered(token: Token, q: Quiche, ready: Ready, now: Time): (Session, Ready)
  {
    var s0 := Session(NewConn(token, q), multiset{}, {}, false);
    var s1 := Prepare(s0, TryLocking(LocKind.ReadLock)).session;
    ReleaseOf(s1, ready, Context(s1.conn), [], now)
  }

  ghost function Removed(g: GroupState, t: Token): GroupState
    requires t in g.sessions
  {
    g.(sessions := g.sessions - {t},
       leaving := g.leaving[SourceOf(g, t) := t],
       retired := g.retired[t := g.sessions[t].conn],
       orphans := g.orphans + g.sessions[t].guards)
  }

  ghost function Updated(g: GroupState, t: Token, s: Session, ready: Ready): GroupState {
    g.(sessions := g.sessions[t := s], ready := ready)
  }

  ghost function Unparked(g: GroupState, t: Token): GroupState {
    if t in g.unparkers then g.(unparkers := g.unparkers - {t}, unparked := g.unparked + [g.unparkers[t]]) else g
  }

  // A guard's drop unparks the waiting receiver and unlocks; a closed connection is to be
  // deregistered in a later critical section.
  ghost function ActedOn(g: GroupState, t: Token, a: Action, s: Session, ready: Ready): GroupState {
    if a.Release? then
      var g1 := Updated(Unparked(g, t), t, s, ready);
      if s.conn.wrapped.view.closed then g1.(closing := g1.closing + multiset{t}) else g1
    else Updated(g, t, s, ready)
  }

  ghost predicate ConnsOk(g: GroupState) {
    forall t :: t in g.sessions ==> SessionInv(g.sessions[t])
  }

  ghost function Take(g: GroupState, s: Step): GroupState
    requires ConnsOk(g) && Possible(g, s)
  {
    match s
    case Register(token, q, now) =>
      var (session, ready) := Registered(token, q, g.ready, now);
      Updated(g, token, session, ready).(scids := g.scids[q.sourceId := token], tokenNext := NextToken(token))
    case OnConn(token, action) =>
      var (session, ready) := Act(g.sessions[token], g.ready, action);
      ActedOn(g, token, action, session, ready)
    case ReceiverParks(token, unparker) =>
      var (session, ready) := Act(g.sessions[token], g.ready, TryLocking(LocKind.Recv));
      Updated(g, token, session, ready).(unparkers := g.unparkers[token := unparker])
    case TakeOut(token) => Removed(g, token)
    case Expire(token) =>
      var g1 := g.(closing := g.closing - multiset{token});
      if token in g1.sessions then Removed(g1, token) else g1
    case DropScid(scid) => g.(scids := g.scids - {scid}, leaving := g.leaving - {scid})
    case PollAll(now) =>
      g.(ready := g.ready.Rest(now, RELEASE_TIMER_THRESHOLD),
         polled := g.polled + multiset(g.ready.Due(now, RELEASE_TIMER_THRESHOLD)))
    case TrySend(event) =>
      var g1 := g.(polled := g.polled - multiset{event});
      if event.token in g.sessions then
        // `send` locks with LocKind::Recv, so a busy send leaves a Recv entry.
        var (session, ready) := Act(g.sessions[event.token], g.ready, TryLocking(LocKind.Recv));
        Updated(g1, event.token, session, ready)
      else g1
    case Handle(event) => g.(polled := g.polled - multiset{event})
  }

  // The relation of one step, and of one orderly step.
  ghost predicate Moves(g: GroupState, s: Step, g': GroupState) {
    ConnsOk(g) && Possible(g, s) && g' == Take(g, s)
  }

  ghost predicate Steps(g: GroupState, s: Step, g': GroupState) {
    Moves(g, s, g') && Orderly(g, s)
  }

  // ---- Invariants ----

  // `scids` is the inverse of token-to-source-id, plus the entries on their way out.
  ghost predicate MapsAgree(g: GroupState) {
    && (forall t :: t in g.sessions ==>
          && g.sessions[t].conn.token == t
          && SourceOf(g, t) in g.scids && g.scids[SourceOf(g, t)] == t && SourceOf(g, t) !in g.leaving)
    && (forall id :: id in g.leaving ==> id in g.scids && g.scids[id] == g.leaving[id])
    && (forall id :: id in g.scids && id !in g.leaving ==>
          g.scids[id] in g.sessions && SourceOf(g, g.scids[id]) == id)
  }

  // Every parked receiver waits for a guard that is still outstanding.
  ghost predicate UnparkersInv(g: GroupState) {
    forall t :: t in g.unparkers ==> t in g.sessions && !g.sessions[t].conn.locker.Unlocked?
  }

  ghost predicate QueueInv(ready: Ready) {
    ready.Valid() && forall e :: e in ready.delayed ==> e.kind.Send?
  }

  // The connection is locked, or its `Send` event is queued, delayed or handed out, or its
  // last release had nothing left to send nor to wait for.
  ghost predicate SendCovered(s: Session, ready: Ready, polled: multiset<Event>) {
    || !s.conn.locker.Unlocked?
    || SendEvent(s.conn) in ready.events
    || SendEvent(s.conn) in ready.delayed
    || SendEvent(s.conn) in polled
    || s.quiet
  }

  ghost predicate SessionsInv(g: GroupState) {
    forall t :: t in g.sessions ==>
      && SessionInv(g.sessions[t]) && !g.sessions[t].conn.locker.ReadLock?
      && SendCovered(g.sessions[t], g.ready, g.polled)
  }

  ghost predicate GroupInv(g: GroupState) {
    MapsAgree(g) && UnparkersInv(g) && QueueInv(g.ready) && SessionsInv(g) && g.orphans == multiset{}
  }

  // ---- One connection's step within the group ----

  // What the group needs to know of a step of connection t.
  ghost predicate ConnStep(g: GroupState, t: Token, s': Session, ready': Ready) {
    && t in g.sessions
    && Acted(g.sessions[t], g.ready, s', ready')
    && SessionInv(s') && !s'.conn.locker.ReadLock?
  }

  lemma QueueLaterKeeps(c: Conn, ready: Ready, ready': Ready)
    requires QueueLater(c, ready, ready') && QueueInv(ready)
    ensures QueueInv(ready')
  {
  }

  lemma UpdatedKeepsMaps(g: GroupState, t: Token, s': Session, ready': Ready)
    requires MapsAgree(g) && ConnStep(g, t, s', ready')
    ensures MapsAgree(Updated(g, t, s', ready'))
  {
  }

  lemma CoveredElsewhere(c: Conn, s: Session, ready: Ready, ready': Ready, polled: multiset<Event>)
    requires QueueLater(c, ready, ready') && s.conn.token != c.token && SendCovered(s, ready, polled)
    ensures SendCovered(s, ready', polled)
  {
  }

  lemma ActedIsCovered(s: Session, ready: Ready, s': Session, ready': Ready, polled: multiset<Event>)
    requires Acted(s, ready, s', ready')
    ensures SendCovered(s', ready', polled) && QueueLater(s.conn, ready, ready')
  {
  }

  lemma UpdatedKeepsSessions(g: GroupState, t: Token, s': Session, ready': Ready)
    requires MapsAgree(g) && SessionsInv(g) && ConnStep(g, t, s', ready')
    ensures SessionsInv(Updated(g, t, s', ready'))
  {
    hide SessionInv, SendCovered, QueueLater, SourceOf;
    ActedIsCovered(g.sessions[t], g.ready, s', ready', g.polled);
    hide Acted;
    forall u | u in g.sessions && u != t
      ensures SendCovered(g.sessions[u], ready', g.polled)
    {
      CoveredElsewhere(g.sessions[t].conn, g.sessions[u], g.ready, ready', g.polled);
    }
  }

  lemma UpdatedKeepsInv(g: GroupState, t: Token, s': Session, ready': Ready)
    requires GroupInv(g) && ConnStep(g, t, s', ready')
    requires t in g.unparkers ==> !s'.conn.locker.Unlocked?
    ensures GroupInv(Updated(g, t, s', ready'))
  {
    UpdatedKeepsMaps(g, t, s', ready');
    UpdatedKeepsSessions(g, t, s', ready');
    QueueLaterKeeps(g.sessions[t].conn, g.ready, ready');
  }

  lemma ActIsConnStep(g: GroupState, t: Token, a: Action)
    requires GroupInv(g) && t in g.sessions && Allowed(g.sessions[t], a)
    requires a.TryLocking? ==> !a.lock.ReadLock?
    ensures var (s', ready') := Act(g.sessions[t], g.ready, a);
      && ConnStep(g, t, s', ready')
      && (!a.Release? && !g.sessions[t].conn.locker.Unlocked? ==> !s'.conn.locker.Unlocked?)
      && (a.Release? ==> s'.guards == multiset{})
  {
    var s := g.sessions[t];
    ActKeepsInv(s, g.ready, a);
    ActIsActed(s, g.ready, a);
    PrepareKeepsInv(s, a);
    ActLeavesExclusive(s, g.ready, a);
  }

  // Without read locks a connection is never left read-locked, and a release frees it.
  lemma ActLeavesExclusive(s: Session, ready: Ready, a: Action)
    requires SessionInv(s) && Allowed(s, a) && !s.conn.locker.ReadLock? && (a.TryLocking? ==> !a.lock.ReadLock?)
    ensures var (s', _) := Act(s, ready, a);
      && !s'.conn.locker.ReadLock?
      && (Prepare(s, a).leaving.Some? ==> s'.conn.locker.Unlocked? && s'.guards == multiset{})
      && (!a.Release? && !s.conn.locker.Unlocked? ==> !s'.conn.locker.Unlocked?)
  {
    var p := Prepare(s, a);
    PrepareKeepsInv(s, a);
    if p.leaving.Some? {
      UnlockReleases(Site(p.session.conn, ready), p.leaving.value.sendDone, a.order, a.now);
      ActKeepsInv(s, ready, a);
    }
  }

  lemma RemovedKeepsMaps(g: GroupState, t: Token)
    requires MapsAgree(g) && t in g.sessions
    ensures MapsAgree(Removed(g, t))
  {
  }

  lemma RemovedKeepsInv(g: GroupState, t: Token)
    requires GroupInv(g) && t in g.sessions && t !in g.unparkers && g.sessions[t].guards == multiset{}
    ensures GroupInv(Removed(g, t))
  {
    RemovedKeepsMaps(g, t);
  }

  lemma UnparkedKeepsInv(g: GroupState, t: Token)
    requires GroupInv(g)
    ensures GroupInv(Unparked(g, t)) && t !in Unparked(g, t).unparkers
  {
  }

  lemma ActedOnKeepsInv(g: GroupState, t: Token, a: Action, s': Session, ready': Ready)
    requires GroupInv(g) && ConnStep(g, t, s', ready')
    requires !a.Release? && !g.sessions[t].conn.locker.Unlocked? ==> !s'.conn.locker.Unlocked?
    ensures GroupInv(ActedOn(g, t, a, s', ready'))
  {
    if a.Release? {
      var g0 := Unparked(g, t);
      UnparkedKeepsInv(g, t);
      assert ConnStep(g0, t, s', ready');
      hide GroupInv, ConnStep, Unparked;
      UpdatedKeepsInv(g0, t, s', ready');
      ClosingIsFree(Updated(g0, t, s', ready'), g.closing + multiset{t});
    } else {
      UpdatedKeepsInv(g, t, s', ready');
    }
  }

  // ---- Registration ----

  // The session of a new connection while `register` holds its read lock.
  ghost function Registering(token: Token, q: Quiche): Session {
    var c := NewConn(token, q).(locker := LocKind.ReadLock, readLockCount := 1);
    Session(c, multiset{Context(c)}, {}, false)
  }

  lemma RegisteringFacts(token: Token, q: Quiche, ready: Ready, now: Time)
    ensures var s, a := Registering(token, q), Release(Context(NewConn(token, q)), [], now);
      && SessionInv(s) && Allowed(s, a) && Act(s, ready, a) == Registered(token, q, ready, now)
  {
    hide Unlock;
    var s, a := Registering(token, q), Release(Context(NewConn(token, q)), [], now);
    var s0 := Session(NewConn(token, q), multiset{}, {}, false);
    assert DrainOrder([], {});
    assert Prepare(s0, TryLocking(LocKind.ReadLock)).session == s;
    assert Prepare(s, a) == Prepared(s, Some(a.guard));
  }

  lemma RegisteredFacts(token: Token, q: Quiche, ready: Ready, now: Time)
    ensures var (s, ready') := Registered(token, q, ready, now);
      && SessionInv(s) && s.conn.locker.Unlocked? && s.conn.token == token && Continues(q, s.conn.wrapped)
      && Acted(Session(NewConn(token, q), multiset{}, {}, false), ready, s, ready')
  {
    var s1, a := Registering(token, q), Release(Context(NewConn(token, q)), [], now);
    RegisteringFacts(token, q, ready, now);
    ActKeepsInv(s1, ready, a);
    ActIsActed(s1, ready, a);
    UnlockReleases(Site(s1.conn, ready), false, [], now);
    hide Registered, Allowed, SessionInv, Unlock;
  }

  ghost function WithSession(g: GroupState, t: Token, s: Session, ready: Ready, scid: ConnectionId): GroupState {
    Updated(g, t, s, ready).(scids := g.scids[scid := t], tokenNext := NextToken(t))
  }

  // The assertion of `register` holds: a source id that no connection uses is not in `scids`.
  lemma FreshIdIsUnknown(g: GroupState, scid: ConnectionId)
    requires MapsAgree(g) && scid !in g.leaving && forall t :: t in g.sessions ==> SourceOf(g, t) != scid
    ensures scid !in g.scids
  {
  }

  lemma WithSessionKeepsMaps(g: GroupState, t: Token, s: Session, ready: Ready, scid: ConnectionId)
    requires MapsAgree(g) && t !in g.sessions && scid !in g.scids
    requires s.conn.token == t && s.conn.wrapped.sourceId == scid
    ensures MapsAgree(WithSession(g, t, s, ready, scid))
  {
  }

  lemma WithSessionKeepsSessions(g: GroupState, t: Token, s: Session, ready: Ready, scid: ConnectionId, c: Conn)
    requires MapsAgree(g) && SessionsInv(g) && t !in g.sessions
    requires SessionInv(s) && !s.conn.locker.ReadLock? && SendCovered(s, ready, g.polled)
    requires c.token == t && QueueLater(c, g.ready, ready)
    ensures SessionsInv(WithSession(g, t, s, ready, scid))
  {
    forall u | u in g.sessions
      ensures SendCovered(g.sessions[u], ready, g.polled)
    {
      CoveredElsewhere(c, g.sessions[u], g.ready, ready, g.polled);
    }
  }

  lemma WithSessionKeepsInv(g: GroupState, t: Token, s: Session, ready: Ready, scid: ConnectionId, c: Conn)
    requires GroupInv(g) && t !in g.sessions && scid !in g.scids
    requires s.conn.token == t && s.conn.wrapped.sourceId == scid
    requires SessionInv(s) && !s.conn.locker.ReadLock? && SendCovered(s, ready, g.polled)
    requires c.token == t && QueueLater(c, g.ready, ready)
    ensures GroupInv(WithSession(g, t, s, ready, scid))
  {
    WithSessionKeepsMaps(g, t, s, ready, scid);
    WithSessionKeepsSessions(g, t, s, ready, scid, c);
    QueueLaterKeeps(c, g.ready, ready);
  }

  lemma RegisterKeepsInv(g: GroupState, s: Step)
    requires GroupInv(g) && s.Register? && Enabled(g, s)
    ensures s.q.sourceId !in g.scids && s.token !in g.sessions
    ensures GroupInv(Take(g, s))
  {
    var (session, ready) := Registered(s.token, s.q, g.ready, s.now);
    RegisteredFacts(s.token, s.q, g.ready, s.now);
    FreshIdIsUnknown(g, s.q.sourceId);
    WithSessionKeepsInv(g, s.token, session, ready, s.q.sourceId, NewConn(s.token, s.q));
    hide GroupInv, Registered;
  }

  // ---- Polling ----

  lemma PollKeepsInv(g: GroupState, now: Time)
    requires GroupInv(g)
    ensures GroupInv(Take(g, PollAll(now)))
  {
    var g' := Take(g, PollAll(now));
    forall t | t in g'.sessions
      ensures SendCovered(g'.sessions[t], g'.ready, g'.polled)
    {
      assert SendCovered(g.sessions[t], g.ready, g.polled);
    }
  }

  lemma DropPolledKeepsInv(g: GroupState, event: Event)
    requires GroupInv(g)
    requires event.kind.Send? && event.token in g.sessions ==> !g.sessions[event.token].conn.locker.Unlocked?
    ensures GroupInv(g.(polled := g.polled - multiset{event}))
  {
  }

  lemma TrySendKeepsInv(g: GroupState, event: Event)
    requires GroupInv(g) && Enabled(g, TrySend(event))
    ensures GroupInv(Take(g, TrySend(event)))
  {
    var t, a := event.token, TryLocking(LocKind.Recv);
    if t in g.sessions {
      ActIsConnStep(g, t, a);
      var (s', ready') := Act(g.sessions[t], g.ready, a);
      assert !s'.conn.locker.Unlocked? by {
        PrepareKeepsInv(g.sessions[t], a);
      }
      UpdatedKeepsInv(g, t, s', ready');
      DropPolledKeepsInv(Updated(g, t, s', ready'), event);
    } else {
      DropPolledKeepsInv(g, event);
    }
  }

  lemma OnConnKeepsInv(g: GroupState, s: Step)
    requires GroupInv(g) && s.OnConn? && Enabled(g, s)
    ensures GroupInv(Take(g, s))
  {
    ActIsConnStep(g, s.token, s.action);
    var (s', ready') := Act(g.sessions[s.token], g.ready, s.action);
    ActedOnKeepsInv(g, s.token, s.action, s', ready');
  }

  lemma ReceiverParksKeepsInv(g: GroupState, s: Step)
    requires GroupInv(g) && s.ReceiverParks? && Enabled(g, s)
    ensures GroupInv(Take(g, s))
  {
    ActIsConnStep(g, s.token, TryLocking(LocKind.Recv));
    var (s', ready') := Act(g.sessions[s.token], g.ready, TryLocking(LocKind.Recv));
    UpdatedKeepsInv(g, s.token, s', ready');
  }

  // The assertion of `deregister` holds: the id of a connection taken out still maps to its token.
  lemma DropScidKeepsInv(g: GroupState, scid: ConnectionId)
    requires GroupInv(g) && Enabled(g, DropScid(scid))
    ensures scid in g.scids && g.scids[scid] == g.leaving[scid]
    ensures GroupInv(Take(g, DropScid(scid)))
  {
    hide Take, SessionInv, SendCovered, SendEvent;
    DropScidTakes(g, scid);
  }

  lemma TakeOutKeepsInv(g: GroupState, t: Token)
    requires GroupInv(g) && t in g.sessions && g.sessions[t].guards == multiset{}
    ensures GroupInv(Removed(g, t))
  {
    assert g.sessions[t].conn.locker.Unlocked? by {
      if g.sessions[t].guards == multiset{} {
        assert |g.sessions[t].guards| == 0;
      }
    }
    RemovedKeepsInv(g, t);
  }

  // The automatic deregistration may find the connection gone already.
  lemma ExpireKeepsInv(g: GroupState, t: Token)
    requires GroupInv(g) && Enabled(g, Expire(t))
    ensures GroupInv(Take(g, Expire(t)))
  {
    var g1, g' := g.(closing := g.closing - multiset{t}), Take(g, Expire(t));
    ExpireTakes(g, t);
    assert t in g.sessions ==> g.sessions[t].guards == multiset{};
    hide Take, Enabled, Possible, Orderly, Removed, GroupInv;
    ClosingIsFree(g, g.closing - multiset{t});
    if t in g.sessions {
      TakeOutKeepsInv(g1, t);
    }
  }

  lemma OnConnTakes(g: GroupState, t: Token, a: Action)
    requires ConnsOk(g) && Possible(g, OnConn(t, a))
    ensures var (s', ready') := Act(g.sessions[t], g.ready, a);
      Take(g, OnConn(t, a)) == ActedOn(g, t, a, s', ready')
  {
    hide Act, ActedOn, Allowed;
  }

  lemma ActedOnQueue(g: GroupState, t: Token, a: Action, s: Session, ready: Ready)
    requires t in g.sessions
    ensures var g' := ActedOn(g, t, a, s, ready);
      && g'.sessions == g.sessions[t := s] && g'.ready == ready && g'.polled == g.polled && g'.retired == g.retired
      && g'.closing == g.closing + if a.Release? && s.conn.wrapped.view.closed then multiset{t} else multiset{}
  {
    UnparkedQueue(g, t);
    hide Unparked;
  }

  lemma UnparkedQueue(g: GroupState, t: Token)
    ensures var g' := Unparked(g, t);
      && g'.sessions == g.sessions && g'.ready == g.ready && g'.polled == g.polled && g'.retired == g.retired
      && g'.closing == g.closing
  {
  }

  lemma RemovedQueue(g: GroupState, t: Token)
    requires t in g.sessions
    ensures var g' := Removed(g, t);
      && g'.sessions == g.sessions - {t} && g'.ready == g.ready && g'.polled == g.polled
      && g'.retired == g.retired[t := g.sessions[t].conn]
  {
  }

  lemma DropScidTakes(g: GroupState, scid: ConnectionId)
    requires ConnsOk(g) && Possible(g, DropScid(scid))
    ensures Take(g, DropScid(scid)) == g.(scids := g.scids - {scid}, leaving := g.leaving - {scid})
  {
    hide ConnsOk;
  }

  lemma PollTakes(g: GroupState, now: Time)
    requires ConnsOk(g)
    ensures Take(g, PollAll(now)) ==
      g.(ready := g.ready.Rest(now, RELEASE_TIMER_THRESHOLD),
         polled := g.polled + multiset(g.ready.Due(now, RELEASE_TIMER_THRESHOLD)))
  {
    hide ConnsOk;
  }

  lemma HandleTakes(g: GroupState, e: Event)
    requires ConnsOk(g) && Possible(g, Handle(e))
    ensures Take(g, Handle(e)) == g.(polled := g.polled - multiset{e})
  {
    hide ConnsOk;
  }

  // A lock attempt changes nothing but the session.
  lemma AttemptActs(g: GroupState, t: Token)
    requires ConnsOk(g) && t in g.sessions
    ensures var s := g.sessions[t];
      && Allowed(s, TryLocking(LocKind.Recv))
      && Act(s, g.ready, TryLocking(LocKind.Recv)) == (Prepare(s, TryLocking(LocKind.Recv)).session, g.ready)
  {
  }

  lemma ParksTakes(g: GroupState, t: Token, unparker: Unparker)
    requires ConnsOk(g) && Possible(g, ReceiverParks(t, unparker))
    ensures Take(g, ReceiverParks(t, unparker))
         == Updated(g, t, Prepare(g.sessions[t], TryLocking(LocKind.Recv)).session, g.ready)
              .(unparkers := g.unparkers[t := unparker])
  {
    AttemptActs(g, t);
    hide Act, Prepare, SessionInv;
  }

  lemma TrySendTakes(g: GroupState, e: Event)
    requires ConnsOk(g) && Possible(g, TrySend(e))
    ensures var g1 := g.(polled := g.polled - multiset{e});
      Take(g, TrySend(e)) ==
        if e.token in g.sessions
        then Updated(g1, e.token, Prepare(g.sessions[e.token], TryLocking(LocKind.Recv)).session, g.ready)
        else g1
  {
    if e.token in g.sessions {
      AttemptActs(g, e.token);
    }
    hide Act, Prepare, SessionInv;
  }

  lemma TakeOutTakes(g: GroupState, t: Token)
    requires ConnsOk(g) && t in g.sessions
    ensures Take(g, TakeOut(t)) == Removed(g, t)
  {
    hide ConnsOk, Act, Registered, Removed;
  }

  lemma ExpireTakes(g: GroupState, t: Token)
    requires ConnsOk(g) && Possible(g, Expire(t))
    ensures var g1 := g.(closing := g.closing - multiset{t});
      Take(g, Expire(t)) == if t in g1.sessions then Removed(g1, t) else g1
  {
    hide ConnsOk, Act, Registered, Removed;
  }

  lemma ClosingIsFree(g: GroupState, closing: multiset<Token>)
    requires GroupInv(g)
    ensures GroupInv(g.(closing := closing))
  {
  }

  // Every step of every thread keeps the invariant of the group.
  lemma StepKeepsInv(g: GroupState, s: Step)
    requires GroupInv(g) && Enabled(g, s)
    ensures GroupInv(Take(g, s))
  {
    match s
    case Register(_, _, _) => RegisterKeepsInv(g, s);
    case OnConn(_, _) => OnConnKeepsInv(g, s);
    case ReceiverParks(_, _) => ReceiverParksKeepsInv(g, s);
    case TakeOut(token) => TakeOutKeepsInv(g, token);
    case Expire(token) => ExpireKeepsInv(g, token);
    case DropScid(scid) => DropScidKeepsInv(g, scid);
    case PollAll(now) => PollKeepsInv(g, now);
    case TrySend(event) => TrySendKeepsInv(g, event);
    case Handle(event) => DropPolledKeepsInv(g, event);
  }
}
