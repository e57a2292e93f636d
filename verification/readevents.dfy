// Outside `register` nobody asks for the read lock, so no ReadLock event is ever raised and
// the dispatch loop never meets an event that it cannot handle.
module ReadEvents {
  import opened Api
  import opened Readiness
  import opened QuicheLib
  import opened Conns
  import opened Releases
  import opened Sessions
  import opened Groups

  ghost predicate NoReadRaised(ready: Ready, ready': Ready) {
    forall e :: e in ready'.events && e !in ready.events ==> !e.kind.ReadLock?
  }

  lemma {:induction false} ReplayAllRaisesNoRead(s: Site, order: seq<LocKind>)
    requires forall k :: k in order ==> !k.Unlocked? && !k.ReadLock?
    ensures NoReadRaised(s.ready, ReplayAll(s, order).ready)
  {
    if order != [] {
      ReplayAllRaisesNoRead(s, order[..|order| - 1]);
    }
  }

  lemma {:induction false} DrainWritableRaisesNoRead(s: Site)
    ensures NoReadRaised(s.ready, DrainWritable(s).ready)
    decreases |s.conn.wrapped.view.writable|
  {
    var q := s.conn.wrapped;
    if q.view.writable != [] {
      DrainWritableRaisesNoRead(Announce(WithQuiche(s, q.PopWritable()), EventKind.StreamSend, false, q.view.writable[0]));
    }
  }

  lemma {:induction false} DrainReadableRaisesNoRead(s: Site)
    ensures NoReadRaised(s.ready, DrainReadable(s).ready)
    decreases |s.conn.wrapped.view.readable|
  {
    var q := s.conn.wrapped;
    if q.view.readable != [] {
      HandleReadableLater(s);
      DrainReadableRaisesNoRead(HandleReadable(WithQuiche(s, q.PopReadable()), q.view.readable[0]));
    }
  }

  lemma FinishRaisesNoRead(s: Site, sendDone: bool, now: Time)
    ensures NoReadRaised(s.ready, HandleClosed(HandleEstablished(HandleSend(s, sendDone, now))).ready)
  {
  }

  lemma UnlockRaisesNoRead(s: Site, sendDone: bool, order: seq<LocKind>, now: Time)
    requires forall k :: k in order ==> !k.Unlocked? && !k.ReadLock?
    requires s.conn.locker.ReadLock? ==> s.conn.readLockCount > 0
    ensures NoReadRaised(s.ready, Unlock(s, sendDone, order, now).ready)
  {
    var s0 := Site(Leave(s.conn), s.ready);
    var s1 := ReplayAll(s0, order);
    var s2 := DrainWritable(s1);
    ReplayAllRaisesNoRead(s0, order);
    DrainWritableRaisesNoRead(s1);
    DrainReadableRaisesNoRead(s2);
    FinishRaisesNoRead(DrainReadable(s2), sendDone, now);
    hide ReplayAll, DrainWritable, DrainReadable, HandleSend, HandleEstablished, HandleClosed;
  }

  ghost predicate AsksForNoRead(a: Action) {
    a.TryLocking? ==> !a.lock.ReadLock?
  }

  lemma CloseNotesNoRead(c: Conn, app: bool, err: nat, reason: seq<byte>)
    requires LocKind.ReadLock !in c.retries
    ensures LocKind.ReadLock !in CloseNow(c, app, err, reason).0.retries
  {
  }

  lemma OpenNotesNoRead(c: Conn, kind: StreamKind, nonBlocking: bool)
    requires LocKind.ReadLock !in c.retries
    ensures LocKind.ReadLock !in OpenNow(c, kind, nonBlocking).0.retries
  {
  }

  lemma StreamCloseNotesNoRead(c: Conn, id: nat, err: nat)
    requires LocKind.ReadLock !in c.retries
    ensures LocKind.ReadLock !in StreamCloseNow(c, id, err).0.retries
  {
  }

  lemma PrepareNotesNoRead(s: Session, a: Action)
    requires AsksForNoRead(a) && LocKind.ReadLock !in s.conn.retries
    ensures LocKind.ReadLock !in Prepare(s, a).session.conn.retries
  {
    match a
    case TryLocking(lock) =>
    case Use(_, _) =>
    case SendDone(_) =>
    case Release(_, _, _) =>
    case CloseConn(app, err, reason, _, _) => CloseNotesNoRead(s.conn, app, err, reason); hide CloseNow;
    case OpenStream(kind, nonBlocking, _, _) => OpenNotesNoRead(s.conn, kind, nonBlocking); hide OpenNow;
    case CloseStream(id, err, _, _) => StreamCloseNotesNoRead(s.conn, id, err); hide StreamCloseNow;
  }

  lemma ReleaseRaisesNoRead(s: Session, ready: Ready, guard: LockContext, order: seq<LocKind>, now: Time)
    requires s.conn.locker.ReadLock? ==> s.conn.readLockCount > 0
    requires DrainOrder(order, s.conn.retries) && LocKind.ReadLock !in s.conn.retries
    ensures var (s', ready') := ReleaseOf(s, ready, guard, order, now);
      NoReadRaised(ready, ready') && LocKind.ReadLock !in s'.conn.retries
  {
    forall k | k in order
      ensures !k.ReadLock?
    {
      assert k in Elements(order);
    }
    UnlockRaisesNoRead(Site(s.conn, ready), guard.sendDone, order, now);
    UnlockReleases(Site(s.conn, ready), guard.sendDone, order, now);
  }

  lemma ActRaisesNoRead(s: Session, ready: Ready, a: Action)
    requires SessionInv(s) && Allowed(s, a) && AsksForNoRead(a)
    requires LocKind.ReadLock !in s.conn.retries
    ensures var (s', ready') := Act(s, ready, a);
      NoReadRaised(ready, ready') && LocKind.ReadLock !in s'.conn.retries
  {
    var p := Prepare(s, a);
    PrepareKeepsInv(s, a);
    PrepareNotesNoRead(s, a);
    hide Prepare, ReleaseOf;
    if p.leaving.Some? {
      ReleaseRaisesNoRead(p.session, ready, p.leaving.value, a.order, a.now);
    }
  }

  ghost predicate NoReads(g: GroupState) {
    && (forall e :: e in g.ready.events || e in g.polled ==> !e.kind.ReadLock?)
    && (forall t :: t in g.sessions ==> LocKind.ReadLock !in g.sessions[t].conn.retries)
  }

  lemma RegisteredRaisesNoRead(token: Token, q: Quiche, ready: Ready, now: Time)
    ensures var (s', ready') := Registered(token, q, ready, now);
      NoReadRaised(ready, ready') && LocKind.ReadLock !in s'.conn.retries
  {
    var s0 := Session(NewConn(token, q), multiset{}, {}, false);
    var s1 := Prepare(s0, TryLocking(LocKind.ReadLock)).session;
    UnlockRaisesNoRead(Site(s1.conn, ready), false, [], now);
    UnlockReleases(Site(s1.conn, ready), false, [], now);
  }

  lemma UpdatedKeepsNoReads(g: GroupState, t: Token, s': Session, ready': Ready)
    requires NoReads(g) && NoReadRaised(g.ready, ready') && LocKind.ReadLock !in s'.conn.retries
    ensures NoReads(Updated(g, t, s', ready'))
  {
  }

  lemma ActedOnKeepsNoReads(g: GroupState, t: Token, a: Action, s': Session, ready': Ready)
    requires t in g.sessions
    requires NoReads(g) && NoReadRaised(g.ready, ready') && LocKind.ReadLock !in s'.conn.retries
    ensures NoReads(ActedOn(g, t, a, s', ready'))
  {
    hide ActedOn;
    ActedOnQueue(g, t, a, s', ready');
  }

  lemma AttemptRaisesNoRead(g: GroupState, t: Token, g': GroupState)
    requires GroupInv(g) && NoReads(g) && t in g.sessions
    requires g'.sessions == g.sessions[t := Act(g.sessions[t], g.ready, TryLocking(LocKind.Recv)).0]
    requires g'.ready == g.ready && g'.polled <= g.polled
    ensures NoReads(g')
  {
    ActRaisesNoRead(g.sessions[t], g.ready, TryLocking(LocKind.Recv));
    hide Act;
  }

  lemma PollRaisesNoRead(g: GroupState, now: Time)
    requires GroupInv(g) && NoReads(g)
    ensures NoReads(Take(g, PollAll(now)))
  {
  }

  lemma RegisterRaisesNoRead(g: GroupState, s: Step)
    requires GroupInv(g) && NoReads(g) && s.Register? && Enabled(g, s)
    ensures NoReads(Take(g, s))
  {
    RegisteredRaisesNoRead(s.token, s.q, g.ready, s.now);
    var (s', ready') := Registered(s.token, s.q, g.ready, s.now);
    UpdatedKeepsNoReads(g, s.token, s', ready');
    hide Registered;
  }

  lemma OnConnRaisesNoRead(g: GroupState, t: Token, a: Action)
    requires GroupInv(g) && NoReads(g) && Enabled(g, OnConn(t, a))
    ensures NoReads(Take(g, OnConn(t, a)))
  {
    ActRaisesNoRead(g.sessions[t], g.ready, a);
    var (s', ready') := Act(g.sessions[t], g.ready, a);
    ActedOnKeepsNoReads(g, t, a, s', ready');
    hide Act;
  }

  lemma ParkRaisesNoRead(g: GroupState, s: Step)
    requires GroupInv(g) && NoReads(g) && s.ReceiverParks? && Enabled(g, s)
    ensures NoReads(Take(g, s))
  {
    AttemptLeavesReady(g, s.token);
    hide Act, GroupInv, NoReads;
    AttemptRaisesNoRead(g, s.token, Take(g, s));
  }

  lemma SendRaisesNoRead(g: GroupState, s: Step)
    requires GroupInv(g) && NoReads(g) && s.TrySend? && Enabled(g, s)
    ensures NoReads(Take(g, s))
  {
    if s.event.token in g.sessions {
      AttemptLeavesReady(g, s.event.token);
      AttemptRaisesNoRead(g, s.event.token, Take(g, s));
    }
    hide Act, GroupInv;
  }

  lemma AttemptLeavesReady(g: GroupState, t: Token)
    requires GroupInv(g) && t in g.sessions
    ensures Act(g.sessions[t], g.ready, TryLocking(LocKind.Recv)).1 == g.ready
  {
  }

  lemma RemovalRaisesNoRead(g: GroupState, s: Step)
    requires GroupInv(g) && NoReads(g) && (s.TakeOut? || s.Expire? || s.DropScid? || s.Handle?) && Enabled(g, s)
    ensures NoReads(Take(g, s))
  {
    if s.TakeOut? {
      TakeOutTakes(g, s.token);
      hide Take;
    } else if s.Expire? {
      ExpireTakes(g, s.token);
      hide Take;
    } else {
      hide Act, Registered, SessionInv;
    }
  }

  lemma StepRaisesNoRead(g: GroupState, s: Step)
    requires GroupInv(g) && NoReads(g) && Enabled(g, s)
    ensures NoReads(Take(g, s))
  {
    hide Take, Enabled, GroupInv, NoReads;
    match s
    case Register(_, _, _) => RegisterRaisesNoRead(g, s);
    case OnConn(t, a) => OnConnRaisesNoRead(g, t, a);
    case ReceiverParks(_, _) => ParkRaisesNoRead(g, s);
    case TrySend(_) => SendRaisesNoRead(g, s);
    case PollAll(now) => PollRaisesNoRead(g, now);
    case _ => RemovalRaisesNoRead(g, s);
  }
}
