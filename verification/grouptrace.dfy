// Events and the connections they name, over whole runs of a group, and runs that show what a
// group does not promise.
module GroupTraces {
  import opened Api
  import opened Readiness
  import opened QuicheLib
  import opened Conns
  import opened Releases
  import opened Sessions
  import opened Announcements
  import opened Groups
  import opened GroupRuns

  // ---- Every event names a connection that is or was in the group ----

  ghost predicate Waits(g: GroupState, e: Event) {
    e in g.ready.events || e in g.ready.delayed || e in g.polled
  }

  ghost predicate Named(g: GroupState, t: Token) {
    t in g.sessions || t in g.retired
  }

  ghost predicate EventsNamed(g: GroupState) {
    forall e :: Waits(g, e) ==> Named(g, e.token)
  }

  // Events come only from connection u, and no connection is forgotten.
  ghost predicate ComesFrom(g: GroupState, g': GroupState, u: Token) {
    && (forall e :: Waits(g', e) ==> Waits(g, e) || e.token == u)
    && Named(g', u) && (forall t :: Named(g, t) ==> Named(g', t))
  }

  ghost predicate OnlyMoves(g: GroupState, g': GroupState) {
    && (forall e :: Waits(g', e) ==> Waits(g, e))
    && (forall t :: Named(g, t) ==> Named(g', t))
  }

  lemma QueueComesFrom(g: GroupState, g': GroupState, c: Conn)
    requires QueueLater(c, g.ready, g'.ready) && g'.polled <= g.polled
    requires c.token in g'.sessions && g.sessions.Keys <= g'.sessions.Keys && g'.retired == g.retired
    ensures ComesFrom(g, g', c.token)
  {
  }

  lemma RegisterComesFrom(g: GroupState, s: Step)
    requires GroupInv(g) && s.Register? && Possible(g, s)
    ensures ComesFrom(g, Take(g, s), s.token) && s.token in Take(g, s).sessions
    ensures g.sessions.Keys <= Take(g, s).sessions.Keys
  {
    RegisteredFacts(s.token, s.q, g.ready, s.now);
    var (session, ready) := Registered(s.token, s.q, g.ready, s.now);
    assert Take(g, s) == WithSession(g, s.token, session, ready, s.q.sourceId);
    hide Take, Registered, GroupInv;
    QueueComesFrom(g, WithSession(g, s.token, session, ready, s.q.sourceId), NewConn(s.token, s.q));
  }

  lemma OnConnComesFrom(g: GroupState, t: Token, a: Action)
    requires GroupInv(g) && Possible(g, OnConn(t, a))
    ensures var g' := Take(g, OnConn(t, a));
      ComesFrom(g, g', t) && t in g.sessions && g'.sessions.Keys == g.sessions.Keys
  {
    hide Take, Act, ComesFrom;
    var (s', ready') := Act(g.sessions[t], g.ready, a);
    OnConnTakes(g, t, a);
    ActIsActed(g.sessions[t], g.ready, a);
    ActedOnQueue(g, t, a, s', ready');
    hide ActedOn, GroupInv;
    QueueComesFrom(g, ActedOn(g, t, a, s', ready'), g.sessions[t].conn);
  }

  lemma ParkOnlyMoves(g: GroupState, s: Step)
    requires GroupInv(g) && s.ReceiverParks? && Possible(g, s)
    ensures OnlyMoves(g, Take(g, s)) && Take(g, s).sessions.Keys == g.sessions.Keys
  {
    hide Take, Act, Prepare, SessionInv;
    ParksTakes(g, s.token, s.unparker);
  }

  lemma SendOnlyMoves(g: GroupState, s: Step)
    requires GroupInv(g) && s.TrySend? && Possible(g, s)
    ensures OnlyMoves(g, Take(g, s)) && Take(g, s).sessions.Keys == g.sessions.Keys
  {
    hide Take, Act, Prepare, SessionInv;
    TrySendTakes(g, s.event);
  }

  lemma RemovalOnlyMoves(g: GroupState, s: Step)
    requires GroupInv(g) && (s.TakeOut? || s.Expire?) && Possible(g, s)
    ensures var g' := Take(g, s);
      OnlyMoves(g, g') && g'.sessions.Keys == g.sessions.Keys - {s.token} && forall e :: Waits(g', e) <==> Waits(g, e)
  {
    hide Take, SessionInv, Removed;
    var g1 := if s.Expire? then g.(closing := g.closing - multiset{s.token}) else g;
    if s.Expire? {
      ExpireTakes(g, s.token);
    } else {
      TakeOutTakes(g, s.token);
    }
    hide GroupInv;
    if s.token in g1.sessions {
      RemovedQueue(g1, s.token);
    }
  }

  lemma QueueStepOnlyMoves(g: GroupState, s: Step)
    requires GroupInv(g) && (s.DropScid? || s.PollAll? || s.Handle?) && Possible(g, s)
    ensures OnlyMoves(g, Take(g, s)) && Take(g, s).sessions == g.sessions
  {
    hide Take, SessionInv;
    match s
    case DropScid(scid) => DropScidTakes(g, scid);
    case PollAll(now) => PollTakes(g, now);
    case Handle(e) => HandleTakes(g, e);
  }

  lemma StepKeepsNamed(g: GroupState, s: Step)
    requires GroupInv(g) && EventsNamed(g) && Possible(g, s)
    ensures EventsNamed(Take(g, s))
  {
    hide Take, Possible, GroupInv, Waits;
    match s
    case Register(_, _, _) => RegisterComesFrom(g, s);
    case OnConn(t, a) => OnConnComesFrom(g, t, a);
    case ReceiverParks(_, _) => ParkOnlyMoves(g, s);
    case TrySend(_) => SendOnlyMoves(g, s);
    case TakeOut(_) => RemovalOnlyMoves(g, s);
    case Expire(_) => RemovalOnlyMoves(g, s);
    case _ => QueueStepOnlyMoves(g, s);
  }

  lemma {:induction false} RunKeepsNamed(g: GroupState, steps: seq<Step>)
    requires GroupInv(g) && EventsNamed(g) && Runs(g, steps)
    ensures EventsNamed(After(g, steps))
    decreases |steps|
  {
    if steps != [] {
      StepKeepsInv(g, steps[0]);
      StepKeepsNamed(g, steps[0]);
      RunKeepsNamed(Take(g, steps[0]), steps[1..]);
    }
  }

  // Over all runs every event that is queued, delayed or handed out names a connection that
  // is registered or was taken out.
  lemma EventsNameConnections(steps: seq<Step>, e: Event)
    requires Runs(Empty(), steps) && Waits(After(Empty(), steps), e)
    ensures e.token in After(Empty(), steps).sessions || e.token in After(Empty(), steps).retired
  {
    RunKeepsNamed(Empty(), steps);
    hide Runs, After;
  }

  // ---- When events name registered connections only ----

  ghost predicate AllLive(g: GroupState) {
    forall e :: Waits(g, e) ==> e.token in g.sessions
  }

  // The step takes out a connection that has an event queued, delayed or handed out.
  ghost predicate LeavesEvents(g: GroupState, s: Step) {
    (s.TakeOut? || s.Expire?) && s.token in g.sessions && exists e :: Waits(g, e) && e.token == s.token
  }

  lemma LiveExactly(g: GroupState, s: Step)
    requires GroupInv(g) && AllLive(g) && Possible(g, s)
    ensures AllLive(Take(g, s)) <==> !LeavesEvents(g, s)
  {
    hide Take, Possible, GroupInv, Waits;
    match s
    case Register(_, _, _) => RegisterComesFrom(g, s);
    case OnConn(t, a) => OnConnComesFrom(g, t, a);
    case ReceiverParks(_, _) => ParkOnlyMoves(g, s);
    case TrySend(_) => SendOnlyMoves(g, s);
    case TakeOut(_) => RemovalLives(g, s);
    case Expire(_) => RemovalLives(g, s);
    case _ => QueueStepOnlyMoves(g, s);
  }

  lemma RemovalLives(g: GroupState, s: Step)
    requires GroupInv(g) && AllLive(g) && Possible(g, s) && (s.TakeOut? || s.Expire?)
    ensures AllLive(Take(g, s)) <==> !LeavesEvents(g, s)
  {
    hide Take, GroupInv, Waits, OnlyMoves;
    RemovalOnlyMoves(g, s);
  }

  // ---- What is not promised: runs with a connection that is closed when it registers ----

  lemma {:induction false} RunExtends(g: GroupState, steps: seq<Step>, s: Step)
    requires GroupInv(g) && Runs(g, steps) && Enabled(After(g, steps), s)
    ensures Runs(g, steps + [s])
    ensures After(g, steps + [s]) == Take(After(g, steps), s)
    decreases |steps|
  {
    hide Take;
    if steps == [] {
      assert ([s])[0] == s && ([s])[1..] == [];
      StepKeepsInv(g, s);
      assert Runs(Take(g, s), []);
    } else {
      StepKeepsInv(g, steps[0]);
      RunExtends(Take(g, steps[0]), steps[1..], s);
      assert (steps + [s])[0] == steps[0] && (steps + [s])[1..] == steps[1..] + [s];
    }
  }

  ghost predicate ClosedFree(g: GroupState, t: Token) {
    && GroupInv(g) && t in g.sessions
    && var c := g.sessions[t].conn;
       c.locker.Unlocked? && c.wrapped.view.closed && c.retries == {}
  }

  ghost predicate ClosedHeld(g: GroupState, t: Token, guard: LockContext) {
    && GroupInv(g) && t in g.sessions && guard in g.sessions[t].guards
    && g.sessions[t].conn.wrapped.view.closed && g.sessions[t].conn.retries == {}
  }

  function ClosedEvent(c: Conn): Event {
    EventOf(c, EventKind.Closed, false, 0)
  }

  lemma RegisterClosed(q: Quiche, now: Time)
    requires q.view.closed
    ensures Enabled(Empty(), Register(0, q, now))
    ensures var g := Take(Empty(), Register(0, q, now));
      ClosedFree(g, 0) && ClosedEvent(g.sessions[0].conn) in g.ready.events
  {
    var g0, s := Empty(), Register(0, q, now);
    assert FreeAtDistance(g0.tokenNext, g0.sessions.Keys, 0, 0);
    StepKeepsInv(g0, s);
    RegisteredClosed(q, g0.ready, now);
    hide Registered, GroupInv;
  }

  lemma RegisteredClosed(q: Quiche, ready: Ready, now: Time)
    requires q.view.closed
    ensures var (s, ready') := Registered(0, q, ready, now);
      && s.conn.locker.Unlocked? && s.conn.wrapped.view.closed && s.conn.retries == {}
      && ClosedEvent(s.conn) in ready'.events
  {
    RegisteredFacts(0, q, ready, now);
    var s1, a := Registering(0, q), Release(Context(NewConn(0, q)), [], now);
    RegisteringFacts(0, q, ready, now);
    UnlockReleases(Site(s1.conn, ready), false, [], now);
    UnlockEmpties(Site(s1.conn, ready), false, now);
  }

  // With nothing in the ledger a release leaves nothing there.
  lemma UnlockEmpties(s: Site, sendDone: bool, now: Time)
    requires s.conn.locker.ReadLock? ==> s.conn.readLockCount > 0
    ensures Unlock(s, sendDone, [], now).conn.retries == {}
  {
    FlushKeepsLock(s, []);
    FinishFacts(Flush(s, []), sendDone, now);
    hide Flush, HandleSend, HandleEstablished, HandleClosed;
  }

  lemma LockClosed(g: GroupState, t: Token)
    requires ClosedFree(g, t)
    ensures Enabled(g, OnConn(t, TryLocking(LocKind.Recv)))
    ensures var g' := Take(g, OnConn(t, TryLocking(LocKind.Recv)));
      && ClosedHeld(g', t, Context(g.sessions[t].conn))
      && g'.sessions[t].conn.wrapped == g.sessions[t].conn.wrapped
      && g'.ready == g.ready && g'.polled == g.polled && g'.closing == g.closing
  {
    var a := TryLocking(LocKind.Recv);
    assert g.sessions[t].conn.token == t;
    AttemptActs(g, t);
    OnConnTakes(g, t, a);
    StepKeepsInv(g, OnConn(t, a));
    hide Take, GroupInv, SessionInv, Act;
  }

  lemma ReleaseClosed(g: GroupState, t: Token, guard: LockContext, now: Time)
    requires ClosedHeld(g, t, guard)
    ensures Enabled(g, OnConn(t, Release(guard, [], now)))
    ensures var g' := Take(g, OnConn(t, Release(guard, [], now)));
      && ClosedFree(g', t) && ClosedEvent(g'.sessions[t].conn) in g'.ready.events
      && ClosedEvent(g'.sessions[t].conn) == ClosedEvent(g.sessions[t].conn)
      && g'.polled == g.polled && t in g'.closing
  {
    var s, a := g.sessions[t], Release(guard, [], now);
    ReleaseOfClosed(s, g.ready, guard, now);
    assert s.conn.token == t;
    hide Take, Act, SessionInv;
    StepKeepsInv(g, OnConn(t, a));
    OnConnTakes(g, t, a);
    hide GroupInv;
  }

  lemma ReleaseOfClosed(s: Session, ready: Ready, guard: LockContext, now: Time)
    requires SessionInv(s) && !s.conn.locker.ReadLock? && guard in s.guards
    requires s.conn.wrapped.view.closed && s.conn.retries == {}
    ensures Allowed(s, Release(guard, [], now))
    ensures var (s', ready') := Act(s, ready, Release(guard, [], now));
      && s'.conn.locker.Unlocked? && s'.conn.wrapped.view.closed && s'.conn.retries == {}
      && ClosedEvent(s'.conn) == ClosedEvent(s.conn) && ClosedEvent(s.conn) in ready'.events
  {
    var a := Release(guard, [], now);
    assert DrainOrder([], {});
    ActLeavesExclusive(s, ready, a);
    ActIsActed(s, ready, a);
    UnlockEmpties(Site(s.conn, ready), guard.sendDone, now);
    hide Unlock, SessionInv;
  }

  // A connection that is closed when it registers, polled once, locked and released again.
  lemma ClosedTwice(q: Quiche, now: Time) returns (steps: seq<Step>)
    requires q.view.closed
    ensures Runs(Empty(), steps)
    ensures var g := After(Empty(), steps);
      && ClosedFree(g, 0) && 0 in g.closing
      && ClosedEvent(g.sessions[0].conn) in g.polled && ClosedEvent(g.sessions[0].conn) in g.ready.events
  {
    var s1 := Register(0, q, now);
    assert Runs(Empty(), []) && After(Empty(), []) == Empty();
    RegisterClosed(q, now);
    RunExtends(Empty(), [], s1);
    var g1 := Take(Empty(), s1);
    assert [] + [s1] == [s1];
    PollClosed(g1, 0, now);
    RunExtends(Empty(), [s1], PollAll(now));
    steps := LockAndRelease([s1] + [PollAll(now)], now);
  }

  lemma PollClosed(g: GroupState, t: Token, now: Time)
    requires ClosedFree(g, t) && ClosedEvent(g.sessions[t].conn) in g.ready.events
    ensures Enabled(g, PollAll(now))
    ensures var g' := Take(g, PollAll(now));
      ClosedFree(g', t) && g'.sessions == g.sessions && ClosedEvent(g.sessions[t].conn) in g'.polled
  {
    StepKeepsInv(g, PollAll(now));
    hide Act, Registered, Removed, SessionInv;
  }

  // One more holder of a closed connection comes and goes.
  lemma LockAndRelease(steps: seq<Step>, now: Time) returns (more: seq<Step>)
    requires Runs(Empty(), steps) && ClosedFree(After(Empty(), steps), 0)
    ensures Runs(Empty(), more)
    ensures var g, g' := After(Empty(), steps), After(Empty(), more);
      && ClosedFree(g', 0) && 0 in g'.closing && ClosedEvent(g'.sessions[0].conn) in g'.ready.events
      && ClosedEvent(g'.sessions[0].conn) == ClosedEvent(g.sessions[0].conn) && g'.polled == g.polled
  {
    var g := After(Empty(), steps);
    var lock, guard := OnConn(0, TryLocking(LocKind.Recv)), Context(g.sessions[0].conn);
    LockClosed(g, 0);
    RunExtends(Empty(), steps, lock);
    var release := OnConn(0, Release(guard, [], now));
    hide Take, Enabled, GroupInv, Runs, After;
    var g1 := After(Empty(), steps + [lock]);
    ReleaseClosed(g1, 0, guard, now);
    RunExtends(Empty(), steps + [lock], release);
    more := steps + [lock] + [release];
  }

  // The same run continued: `deregister` removes the connection, its events stay.
  lemma DeadTokenIsNamed(q: Quiche, now: Time) returns (steps: seq<Step>, e: Event)
    requires q.view.closed
    ensures Runs(Empty(), steps)
    ensures var g := After(Empty(), steps); Waits(g, e) && e.token !in g.sessions
  {
    var before := ClosedTwice(q, now);
    var g := After(Empty(), before);
    e := ClosedEvent(g.sessions[0].conn);
    assert e.token == 0;
    LockedHasGuard(g.sessions[0]);
    RunExtends(Empty(), before, Expire(0));
    RemovalOnlyMoves(g, Expire(0));
    steps := before + [Expire(0)];
  }

  // In the gap between the unlock and the automatic `deregister` another thread may take the
  // lock; `deregister` would then take the connection out from under its guard.
  lemma GuardTakenInTheGap(q: Quiche, now: Time) returns (steps: seq<Step>)
    requires q.view.closed
    ensures Runs(Empty(), steps)
    ensures var g := After(Empty(), steps);
      && Possible(g, Expire(0)) && !Orderly(g, Expire(0))
      && exists guard :: Outstanding(Take(g, Expire(0)), guard) && !FindsConnection(Take(g, Expire(0)), guard)
  {
    var before := ClosedTwice(q, now);
    var g, s := After(Empty(), before), OnConn(0, TryLocking(LocKind.Recv));
    LockClosed(g, 0);
    RunExtends(Empty(), before, s);
    steps := before + [s];
    var g' := After(Empty(), steps);
    GuardsLostExactly(g', Expire(0));
  }
}
