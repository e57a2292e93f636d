// One connection, its outstanding guards, and everything that may happen to it in any order.
module Sessions {
  import opened Api
  import opened Readiness
  import opened QuicheLib
  import opened Conns
  import opened Releases

  // A request to close the connection or a stream that returned Ok when `since` calls had been
  // made on the library.
  datatype OkClose = OkClose(request: LocKind, since: nat)

  // `closes` are the requests to close the connection or a stream that returned Ok; `quiet`
  // says that the last release was a "send done" with nothing left to wait for.
  datatype Session = Session(conn: Conn, guards: multiset<LockContext>, closes: set<OkClose>, quiet: bool)

  // One atomic step. Use is what the holder of a guard does to the wrapped connection.
  datatype Action =
    | TryLocking(lock: LocKind)
    | Use(next: Quiche, receives: bool)
    | SendDone(guard: LockContext)
    | Release(guard: LockContext, order: seq<LocKind>, now: Time)
    | CloseConn(app: bool, err: nat, reason: seq<byte>, order: seq<LocKind>, now: Time)
    | OpenStream(kind: StreamKind, nonBlocking: bool, order: seq<LocKind>, now: Time)
    | CloseStream(id: nat, err: nat, order: seq<LocKind>, now: Time)

  // The session while `close`, `stream_open` or `stream_close` holds the lock it just took.
  ghost function Holding(s: Session, c: Conn): Session {
    s.(conn := c, guards := multiset{Context(c)})
  }

  // An action up to the release that ends it, if any: the guard about to be released.
  datatype Prepared = Prepared(session: Session, leaving: Option<LockContext>)

  ghost function Prepare(s: Session, a: Action): Prepared {
    match a
    case TryLocking(lock) =>
      var (c, granted) := TryLock(s.conn, lock);
      Prepared(s.(conn := c, guards := if granted then s.guards + multiset{Context(c)} else s.guards), None)
    case Use(next, _) => Prepared(s.(conn := s.conn.(wrapped := next)), None)
    case SendDone(guard) =>
      Prepared(s.(guards := s.guards - multiset{guard} + multiset{guard.(sendDone := true)}), None)
    case Release(guard, _, _) => Prepared(s, Some(guard))
    case CloseConn(app, err, reason, _, _) =>
      var (c, granted) := CloseNow(s.conn, app, err, reason);
      var closes := if granted && s.conn.wrapped.Outcome().Failed? then s.closes
                    else s.closes + {OkClose(Close(app, err, reason), |s.conn.wrapped.calls|)};
      if granted then Prepared(Holding(s, c).(closes := closes), Some(Context(c)))
      else Prepared(s.(conn := c, closes := closes), None)
    case OpenStream(kind, nonBlocking, _, _) =>
      var (c, reply) := OpenNow(s.conn, kind, nonBlocking);
      if reply.OpenBusy? then Prepared(s.(conn := c), None)
      else Prepared(Holding(s, c), Some(Context(c)))
    case CloseStream(id, err, _, _) =>
      var (c, granted) := StreamCloseNow(s.conn, id, err);
      var closes := if granted && !CloseBothSides(s.conn.wrapped, id, err).1 then s.closes
                    else s.closes + {OkClose(StreamClose(id, err), |s.conn.wrapped.calls|)};
      if granted then Prepared(Holding(s, c).(closes := closes), Some(Context(c)))
      else Prepared(s.(conn := c, closes := closes), None)
  }

  // The library lets stream credits grow only while packets are received, and only the
  // wrapper takes ids out of its readable queue. A release drains the ledger in any order.
  ghost predicate Allowed(s: Session, a: Action) {
    && (a.TryLocking? ==> !a.lock.Unlocked?)
    && (a.Use? ==>
          && s.guards != multiset{}
          && (if a.receives then Continues(s.conn.wrapped, a.next) else Evolves(s.conn.wrapped, a.next))
          && a.next.drained == s.conn.wrapped.drained)
    && (a.SendDone? ==> a.guard in s.guards)
    && (a.Release? ==> a.guard in s.guards)
    && (Prepare(s, a).leaving.Some? ==> DrainOrder(a.order, Prepare(s, a).session.conn.retries))
  }

  // ---- Invariants ----

  // No guard is out when the lock is free, as many as counted in read mode, one otherwise;
  // all carry the current lock count.
  ghost predicate LockInv(s: Session) {
    && (s.conn.locker.Unlocked? ==> s.guards == multiset{})
    && (s.conn.locker.ReadLock? ==> |s.guards| == s.conn.readLockCount)
    && (s.conn.locker.ReadLock? <==> s.conn.readLockCount > 0)
    && (!s.conn.locker.Unlocked? && !s.conn.locker.ReadLock? ==> |s.guards| == 1)
    && (forall g :: g in s.guards ==> g.token == s.conn.token && g.lockCount == s.conn.lockCount)
  }

  // A free connection owes nothing but stream opens without credit.
  ghost predicate LedgerInv(s: Session) {
    && (forall k :: k in s.conn.retries ==> NeedRetry(k))
    && (s.conn.locker.Unlocked? ==> OnlyStarvedOpens(s.conn))
  }

  // The calls for this very request were made after it had returned Ok.
  ghost predicate CarriedOut(q: Quiche, k: OkClose) {
    Applied(q, k.since, k.request)
  }

  // A close that returned Ok was carried out since, or waits in the ledger.
  ghost predicate ClosesInv(s: Session) {
    forall k :: k in s.closes ==>
      && (k.request.Close? || k.request.StreamClose?) && k.since <= |s.conn.wrapped.calls|
      && (k.request in s.conn.retries || CarriedOut(s.conn.wrapped, k))
  }

  lemma CarriedOutStays(q: Quiche, q': Quiche, k: OkClose)
    requires CarriedOut(q, k) && Continues(q, q')
    ensures CarriedOut(q', k)
  {
    AppliedStays(q, q', k.since, k.request);
  }

  // The ids that this side opens next are local and of the right kind.
  ghost predicate LocalIdsInv(c: Conn) {
    && c.localBidiNext % 4 == (if c.wrapped.isServer then 1 else 0)
    && c.localUniNext % 4 == (if c.wrapped.isServer then 3 else 2)
  }

  ghost predicate SessionInv(s: Session) {
    LockInv(s) && LedgerInv(s) && ClosesInv(s) && LocalIdsInv(s.conn) && SeenInv(s.conn)
  }

  // ---- Steps ----

  // The release of one guard.
  ghost function ReleaseOf(s: Session, ready: Ready, guard: LockContext, order: seq<LocKind>, now: Time): (Session, Ready)
    requires s.conn.locker.ReadLock? ==> s.conn.readLockCount > 0
    requires forall k :: k in order ==> !k.Unlocked?
  {
    var site := Unlock(Site(s.conn, ready), guard.sendDone, order, now);
    (s.(conn := site.conn,
        guards := s.guards - multiset{guard},
        quiet := guard.sendDone && DelaySend(site.conn.wrapped, now, true).None?),
     site.ready)
  }

  ghost function Act(s: Session, ready: Ready, a: Action): (Session, Ready)
    requires SessionInv(s) && Allowed(s, a)
  {
    var p := Prepare(s, a);
    PrepareKeepsInv(s, a);
    if p.leaving.None? then (p.session, ready)
    else ReleaseOf(p.session, ready, p.leaving.value, a.order, a.now)
  }

  // ---- Releases keep the invariants ----

  lemma ReleaseKeepsLock(s: Session, ready: Ready, guard: LockContext, order: seq<LocKind>, now: Time)
    requires SessionInv(s) && guard in s.guards && DrainOrder(order, s.conn.retries)
    ensures var (s', _) := ReleaseOf(s, ready, guard, order, now);
      LockInv(s') && s'.conn.lockCount >= s.conn.lockCount && LocalIdsInv(s'.conn) && s'.conn.token == s.conn.token
  {
    var (s', _) := ReleaseOf(s, ready, guard, order, now);
    UnlockReleases(Site(s.conn, ready), guard.sendDone, order, now);
    assert s.guards == s'.guards + multiset{guard};
    assert |s.guards| == |s'.guards| + 1;
  }

  lemma ReleaseKeepsClose(s: Session, ready: Ready, guard: LockContext, order: seq<LocKind>, now: Time, k: OkClose)
    requires LockInv(s) && !s.conn.locker.Unlocked? && DrainOrder(order, s.conn.retries)
    requires (k.request.Close? || k.request.StreamClose?) && k.since <= |s.conn.wrapped.calls|
    requires k.request in s.conn.retries || CarriedOut(s.conn.wrapped, k)
    ensures CarriedOut(ReleaseOf(s, ready, guard, order, now).0.conn.wrapped, k)
  {
    var (s', _) := ReleaseOf(s, ready, guard, order, now);
    UnlockReleases(Site(s.conn, ready), guard.sendDone, order, now);
    if k.request in s.conn.retries {
      assert k.request in Elements(order);
      assert Applied(s'.conn.wrapped, |s.conn.wrapped.calls|, k.request);
    } else {
      CarriedOutStays(s.conn.wrapped, s'.conn.wrapped, k);
    }
  }

  lemma ReleaseKeepsInv(s: Session, ready: Ready, guard: LockContext, order: seq<LocKind>, now: Time)
    requires SessionInv(s) && guard in s.guards && DrainOrder(order, s.conn.retries)
    ensures SessionInv(ReleaseOf(s, ready, guard, order, now).0)
  {
    var (s', _) := ReleaseOf(s, ready, guard, order, now);
    ReleaseKeepsLock(s, ready, guard, order, now);
    assert OnlyStarvedOpens(s'.conn) by {
      UnlockReleases(Site(s.conn, ready), guard.sendDone, order, now);
    }
    forall k | k in s'.closes
      ensures (k.request.Close? || k.request.StreamClose?) && CarriedOut(s'.conn.wrapped, k)
    {
      ReleaseKeepsClose(s, ready, guard, order, now, k);
    }
    UnlockAnnounces(Site(s.conn, ready), guard.sendDone, order, now, 0);
  }

  // ---- Every action keeps the invariants ----

  // What the first half of an action keeps.
  ghost predicate Kept(s: Session, s': Session) {
    && s'.conn.token == s.conn.token && s'.conn.lockCount == s.conn.lockCount
    && Continues(s.conn.wrapped, s'.conn.wrapped)
    && s'.conn.wrapped.drained == s.conn.wrapped.drained
    && s'.conn.remoteBidiSeen == s.conn.remoteBidiSeen && s'.conn.remoteUniSeen == s.conn.remoteUniSeen
    && s.conn.retries <= s'.conn.retries
    && s.closes <= s'.closes && s'.quiet == s.quiet
    && !s'.conn.locker.Unlocked?
  }

  lemma HoldingKeepsInv(s: Session, c: Conn, k: LocKind)
    requires SessionInv(s) && s.conn.locker.Unlocked? && !k.Unlocked? && !k.ReadLock?
    requires c.locker == k && c.token == s.conn.token && c.lockCount == s.conn.lockCount && c.readLockCount == 0
    requires forall r :: r in c.retries ==> NeedRetry(r)
    requires s.conn.retries <= c.retries
    requires Evolves(s.conn.wrapped, c.wrapped) && LocalIdsInv(c)
    requires c.wrapped.drained == s.conn.wrapped.drained
    requires c.remoteBidiSeen == s.conn.remoteBidiSeen && c.remoteUniSeen == s.conn.remoteUniSeen
    ensures SessionInv(Holding(s, c)) && Context(c) in Holding(s, c).guards && Kept(s, Holding(s, c))
  {
    forall k | k in s.closes
      ensures k.request in c.retries || CarriedOut(c.wrapped, k)
    {
      if k.request !in s.conn.retries {
        CarriedOutStays(s.conn.wrapped, c.wrapped, k);
      }
    }
  }

  // The first half of an action keeps the invariant, and its guard is outstanding.
  ghost predicate PreparedWell(s: Session, p: Prepared) {
    SessionInv(p.session) && Kept(s, p.session) && (p.leaving.Some? ==> p.leaving.value in p.session.guards)
  }

  lemma CloseConnPrepared(s: Session, a: Action)
    requires SessionInv(s) && a.CloseConn?
    ensures PreparedWell(s, Prepare(s, a))
  {
    var (c, granted) := CloseNow(s.conn, a.app, a.err, a.reason);
    if granted {
      HoldingKeepsInv(s, c, Close(a.app, a.err, a.reason));
      assert CallAt(c.wrapped, |s.conn.wrapped.calls|, CloseCall(a.app, a.err, a.reason));
    }
  }

  lemma OpenNowHolds(c: Conn, kind: StreamKind, nonBlocking: bool)
    requires c.locker.Unlocked? && LocalIdsInv(c)
    ensures var c' := OpenNow(c, kind, nonBlocking).0;
      && c'.locker == StreamOpen(kind) && c'.token == c.token
      && c'.lockCount == c.lockCount && c'.readLockCount == c.readLockCount
      && c.retries <= c'.retries <= c.retries + {StreamOpen(kind)}
      && Evolves(c.wrapped, c'.wrapped) && c'.wrapped.drained == c.wrapped.drained
      && c'.remoteBidiSeen == c.remoteBidiSeen && c'.remoteUniSeen == c.remoteUniSeen
      && LocalIdsInv(c')
  {
  }

  lemma OpenNowBusy(c: Conn, kind: StreamKind, nonBlocking: bool)
    ensures var (c', reply) := OpenNow(c, kind, nonBlocking);
      if c.locker.Unlocked? then !reply.OpenBusy?
      else reply.OpenBusy? && c' == c.(retries := c.retries + {StreamOpen(kind)})
  {
  }

  lemma OpenStreamPrepared(s: Session, a: Action)
    requires SessionInv(s) && a.OpenStream?
    ensures PreparedWell(s, Prepare(s, a))
  {
    hide OpenNow;
    var (c, reply) := OpenNow(s.conn, a.kind, a.nonBlocking);
    OpenNowBusy(s.conn, a.kind, a.nonBlocking);
    if !reply.OpenBusy? {
      OpenNowHolds(s.conn, a.kind, a.nonBlocking);
      HoldingKeepsInv(s, c, StreamOpen(a.kind));
    }
  }

  lemma CloseStreamPrepared(s: Session, a: Action)
    requires SessionInv(s) && a.CloseStream?
    ensures PreparedWell(s, Prepare(s, a))
  {
    var (c, granted) := StreamCloseNow(s.conn, a.id, a.err);
    if granted {
      CloseBothSidesEvolves(s.conn.wrapped, a.id, a.err);
      CloseBothSidesApplies(s.conn.wrapped, a.id, a.err);
      HoldingKeepsInv(s, c, StreamClose(a.id, a.err));
      assert CarriedOut(c.wrapped, OkClose(StreamClose(a.id, a.err), |s.conn.wrapped.calls|));
    }
  }

  lemma UsePrepared(s: Session, a: Action)
    requires SessionInv(s) && Allowed(s, a) && a.Use?
    ensures PreparedWell(s, Prepare(s, a))
  {
    forall k | k in s.closes
      ensures k.request in s.conn.retries || CarriedOut(a.next, k)
    {
      if k.request !in s.conn.retries {
        CarriedOutStays(s.conn.wrapped, a.next, k);
      }
    }
  }

  lemma TryLockingPrepared(s: Session, a: Action)
    requires SessionInv(s) && Allowed(s, a) && a.TryLocking?
    ensures PreparedWell(s, Prepare(s, a))
  {
    var (c, granted) := TryLock(s.conn, a.lock);
    if granted {
      assert |s.guards + multiset{Context(c)}| == |s.guards| + 1;
    }
  }

  lemma PrepareKeepsInv(s: Session, a: Action)
    requires SessionInv(s) && Allowed(s, a)
    ensures PreparedWell(s, Prepare(s, a))
  {
    match a
    case TryLocking(_) => TryLockingPrepared(s, a);
    case Use(_, _) => UsePrepared(s, a);
    case SendDone(guard) =>
      assert |s.guards - multiset{guard} + multiset{guard.(sendDone := true)}| == |s.guards|;
    case Release(_, _, _) =>
    case CloseConn(_, _, _, _, _) => CloseConnPrepared(s, a);
    case OpenStream(_, _, _, _) => OpenStreamPrepared(s, a);
    case CloseStream(_, _, _, _) => CloseStreamPrepared(s, a);
  }

  // Any action, in any state reached, keeps the whole invariant; the lock count never decreases.
  lemma ActKeepsInv(s: Session, ready: Ready, a: Action)
    requires SessionInv(s) && Allowed(s, a)
    ensures SessionInv(Act(s, ready, a).0)
    ensures Act(s, ready, a).0.conn.lockCount >= s.conn.lockCount
  {
    var p := Prepare(s, a);
    PrepareKeepsInv(s, a);
    if p.leaving.Some? {
      ReleaseKeepsInv(p.session, ready, p.leaving.value, a.order, a.now);
      ReleaseKeepsLock(p.session, ready, p.leaving.value, a.order, a.now);
    }
  }

  // ---- What an action does to the queue and to the ledger ----

  // As seen by the rest of the system; a connection found free has its `Send` scheduled,
  // unless its last release was quiet.
  ghost predicate Acted(s: Session, ready: Ready, s': Session, ready': Ready) {
    && s'.conn.token == s.conn.token
    && Continues(s.conn.wrapped, s'.conn.wrapped)
    && QueueLater(s.conn, ready, ready')
    && (s'.conn.locker.Unlocked? ==>
          SendEvent(s.conn) in ready'.events || SendEvent(s.conn) in ready'.delayed || s'.quiet)
    && (s'.conn.locker.Unlocked? && s'.conn.wrapped.view.closed ==>
          Raised(Site(s'.conn, ready'), EventKind.Closed, false, 0))
  }

  lemma ReleasedIsActed(s: Session, h: Session, ready: Ready, guard: LockContext, order: seq<LocKind>, now: Time, site: Site)
    requires Kept(s, h) && (h.conn.locker.ReadLock? ==> h.conn.readLockCount > 0)
    requires Released(Site(h.conn, ready), guard.sendDone, order, now, site)
    ensures Acted(s, ready,
      h.(conn := site.conn, guards := h.guards - multiset{guard},
         quiet := guard.sendDone && DelaySend(site.conn.wrapped, now, true).None?), site.ready)
  {
  }

  lemma ActIsActed(s: Session, ready: Ready, a: Action)
    requires SessionInv(s) && Allowed(s, a)
    ensures var (s', ready') := Act(s, ready, a); Acted(s, ready, s', ready')
  {
    var p := Prepare(s, a);
    PrepareKeepsInv(s, a);
    if p.leaving.Some? {
      var site, g := Site(p.session.conn, ready), p.leaving.value;
      UnlockReleases(site, g.sendDone, a.order, a.now);
      ReleasedIsActed(s, p.session, ready, g, a.order, a.now, Unlock(site, g.sendDone, a.order, a.now));
    }
  }

  // A granted request adds one guard, of the current generation and with nothing reported yet.
  lemma GrantAddsGuard(s: Session, ready: Ready, kind: LocKind)
    requires SessionInv(s) && !kind.Unlocked?
    ensures var (s', _) := Act(s, ready, TryLocking(kind));
      s'.guards == s.guards +
        if s.conn.locker.Unlocked? || (s.conn.locker.ReadLock? && kind.ReadLock?)
        then multiset{LockContext(s.conn.token, s.conn.lockCount, false)} else multiset{}
  {
  }

  // An entry of the ledger stays there, or is discharged by the release that ends the action.
  lemma ActKeepsEntry(s: Session, ready: Ready, a: Action, k: LocKind)
    requires SessionInv(s) && Allowed(s, a) && k in s.conn.retries
    ensures var (s', ready') := Act(s, ready, a);
      k in s'.conn.retries || Discharged(Site(s'.conn, ready'), |s.conn.wrapped.calls|, k)
  {
    var p := Prepare(s, a);
    PrepareKeepsInv(s, a);
    if p.leaving.Some? {
      var site := Site(p.session.conn, ready);
      UnlockReleases(site, p.leaving.value.sendDone, a.order, a.now);
      assert k in Elements(a.order);
      var n := |p.session.conn.wrapped.calls|;
      assert Discharged(Unlock(site, p.leaving.value.sendDone, a.order, a.now), n, k);
      DischargedEarlier(Unlock(site, p.leaving.value.sendDone, a.order, a.now), |s.conn.wrapped.calls|, n, k);
    }
  }

  lemma DischargedEarlier(s: Site, from: nat, from': nat, k: LocKind)
    requires from <= from' && Discharged(s, from', k)
    ensures Discharged(s, from, k)
  {
  }

  // The streams announced by an action are exactly the new records.
  lemma ActAnnounces(s: Session, ready: Ready, a: Action, id: nat)
    requires SessionInv(s) && Allowed(s, a)
    ensures var (s', ready') := Act(s, ready, a);
      && (Announced(s.conn, id) ==> Announced(s'.conn, id))
      && (AcceptRaised(Site(s'.conn, ready'), id) <==>
            AcceptRaised(Site(s.conn, ready), id) || (Announced(s'.conn, id) && !Announced(s.conn, id)))
  {
    var p := Prepare(s, a);
    PrepareKeepsInv(s, a);
    if p.leaving.Some? {
      UnlockAnnounces(Site(p.session.conn, ready), p.leaving.value.sendDone, a.order, a.now, id);
      UnlockReleases(Site(p.session.conn, ready), p.leaving.value.sendDone, a.order, a.now);
    }
  }
}
