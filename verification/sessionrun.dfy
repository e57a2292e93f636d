// Whole runs of one connection: any interleaving of lock holders, callers and pollers.
module SessionRuns {
  import opened Api
  import opened Readiness
  import opened QuicheLib
  import opened Conns
  import opened Releases
  import opened Replays
  import opened Sessions
  import opened Announcements

  // The queue is shared with other connections and with the poller, so each step may find
  // it changed in any way.
  type Steps = seq<(Ready, Action)>

  ghost predicate Runs(s: Session, steps: Steps)
    requires SessionInv(s)
    decreases |steps|
  {
    steps != [] ==>
      && Allowed(s, steps[0].1)
      && (ActKeepsInv(s, steps[0].0, steps[0].1); Runs(Act(s, steps[0].0, steps[0].1).0, steps[1..]))
  }

  ghost function After(s: Session, steps: Steps): (s': Session)
    requires SessionInv(s) && Runs(s, steps)
    ensures SessionInv(s')
    decreases |steps|
  {
    if steps == [] then s
    else
      ActKeepsInv(s, steps[0].0, steps[0].1);
      After(Act(s, steps[0].0, steps[0].1).0, steps[1..])
  }

  ghost function Fresh(token: Token, q: Quiche): (s: Session)
    ensures SessionInv(s)
  {
    Session(NewConn(token, q), multiset{}, {}, false)
  }

  // What the assertions of `unlock` check when guard g is dropped.
  ghost predicate UnlockAssertions(c: Conn, g: LockContext) {
    !c.locker.Unlocked? && c.lockCount == g.lockCount
  }

  // What the assertions of `try_lock` check when `kind` is requested.
  ghost predicate TryLockAssertions(c: Conn, kind: LocKind) {
    && (c.locker.Unlocked? && kind.ReadLock? ==> c.readLockCount == 0)
    && (c.locker.ReadLock? && kind.ReadLock? ==> c.readLockCount > 0)
  }

  // Lock discipline: as many guards are out as the lock word says, and for no interleaving
  // does an assertion of `try_lock` or `unlock` fire.
  lemma LockDiscipline(token: Token, q: Quiche, steps: Steps, g: LockContext, kind: LocKind)
    requires Runs(Fresh(token, q), steps)
    ensures var s := After(Fresh(token, q), steps);
      && |s.guards| == (if s.conn.locker.Unlocked? then 0 else if s.conn.locker.ReadLock? then s.conn.readLockCount else 1)
      && (g in s.guards ==> g.token == s.conn.token && UnlockAssertions(s.conn, g))
      && TryLockAssertions(s.conn, kind)
  {
  }

  // Whenever the lock is free, the ledger holds nothing but stream opens without credit,
  // and every close that returned Ok has reached the wrapped connection.
  lemma FreeLockOwesNothing(token: Token, q: Quiche, steps: Steps, k: LocKind, close: OkClose)
    requires Runs(Fresh(token, q), steps)
    requires After(Fresh(token, q), steps).conn.locker.Unlocked?
    ensures var s := After(Fresh(token, q), steps);
      && (k in s.conn.retries ==> k.StreamOpen? && s.conn.wrapped.StreamsLeft(k.kind) == 0)
      && (close in s.closes ==> CarriedOut(s.conn.wrapped, close))
  {
  }

  // The call a close makes on the library, and whether it returns Ok.
  function RequestOf(a: Action): LocKind
    requires a.CloseConn? || a.CloseStream?
  {
    if a.CloseConn? then Close(a.app, a.err, a.reason) else StreamClose(a.id, a.err)
  }

  ghost predicate ReturnsOk(s: Session, a: Action)
    requires a.CloseConn? || a.CloseStream?
  {
    || !s.conn.locker.Unlocked?
    || (if a.CloseConn? then !s.conn.wrapped.Outcome().Failed? else CloseBothSides(s.conn.wrapped, a.id, a.err).1)
  }

  lemma ReleaseKeepsCloses(s: Session, ready: Ready, a: Action)
    requires SessionInv(s) && Allowed(s, a)
    ensures Act(s, ready, a).0.closes == Prepare(s, a).session.closes
  {
    hide Prepare, Unlock;
  }

  lemma OkCloseIsNoted(s: Session, a: Action)
    requires SessionInv(s) && (a.CloseConn? || a.CloseStream?) && ReturnsOk(s, a)
    ensures OkClose(RequestOf(a), |s.conn.wrapped.calls|) in Prepare(s, a).session.closes
  {
    hide CloseBothSides;
  }

  lemma {:induction false} ClosesStay(s: Session, steps: Steps, k: OkClose)
    requires SessionInv(s) && Runs(s, steps) && k in s.closes
    ensures k in After(s, steps).closes
    decreases |steps|
  {
    if steps != [] {
      var ready, a := steps[0].0, steps[0].1;
      ActKeepsInv(s, ready, a);
      ReleaseKeepsCloses(s, ready, a);
      PrepareKeepsInv(s, a);
      hide Act, Prepare, SessionInv, Allowed;
      ClosesStay(Act(s, ready, a).0, steps[1..], k);
    }
  }

  // A close that returned Ok is never dropped, even if it repeats an earlier one: after any
  // run the calls for this very request have been made since, or it waits in the ledger of a
  // taken lock.
  lemma ClosesAreNeverDropped(s: Session, ready: Ready, a: Action, steps: Steps)
    requires SessionInv(s) && Allowed(s, a) && (a.CloseConn? || a.CloseStream?) && ReturnsOk(s, a)
    requires SessionInv(Act(s, ready, a).0) && Runs(Act(s, ready, a).0, steps)
    ensures var s' := After(Act(s, ready, a).0, steps);
      || Applied(s'.conn.wrapped, |s.conn.wrapped.calls|, RequestOf(a))
      || (RequestOf(a) in s'.conn.retries && !s'.conn.locker.Unlocked?)
  {
    var k := OkClose(RequestOf(a), |s.conn.wrapped.calls|);
    OkCloseIsNoted(s, a);
    ReleaseKeepsCloses(s, ready, a);
    hide Act, Prepare, Allowed;
    ClosesStay(Act(s, ready, a).0, steps, k);
    var s' := After(Act(s, ready, a).0, steps);
    assert ClosesInv(s') && LedgerInv(s');
    if !CarriedOut(s'.conn.wrapped, k) {
      assert k.request in s'.conn.retries;
    }
  }

  lemma BusyStep(s: Session, a: Action)
    requires SessionInv(s) && Allowed(s, a) && !s.conn.locker.Unlocked? && !a.Release?
    ensures Prepare(s, a).leaving.None?
    ensures s.conn.retries <= Prepare(s, a).session.conn.retries
    ensures !Prepare(s, a).session.conn.locker.Unlocked?
    ensures |s.conn.wrapped.calls| <= |Prepare(s, a).session.conn.wrapped.calls|
  {
  }

  // While no guard is released, an entry stays in the ledger and the lock stays taken.
  lemma {:induction false} EntryStays(s: Session, steps: Steps, k: LocKind)
    requires SessionInv(s) && Runs(s, steps)
    requires k in s.conn.retries && !s.conn.locker.Unlocked?
    requires forall i :: 0 <= i < |steps| ==> !steps[i].1.Release?
    ensures k in After(s, steps).conn.retries && !After(s, steps).conn.locker.Unlocked?
    ensures |s.conn.wrapped.calls| <= |After(s, steps).conn.wrapped.calls|
    decreases |steps|
  {
    if steps != [] {
      var ready, a := steps[0].0, steps[0].1;
      ActKeepsInv(s, ready, a);
      BusyStep(s, a);
      EntryStays(Prepare(s, a).session, steps[1..], k);
    }
  }

  // A request meets a lock that is taken, unless a reader meets readers.
  ghost predicate Refused(c: Conn, k: LocKind) {
    !c.locker.Unlocked? && !(c.locker.ReadLock? && k.ReadLock?)
  }

  // From its refusal on every request but `Send` is in the ledger, and the lock taken, until
  // the next release.
  lemma RefusedRequestStays(s: Session, ready: Ready, steps: Steps, k: LocKind)
    requires SessionInv(s) && Refused(s.conn, k) && !k.Send? && !k.Unlocked?
    requires SessionInv(Act(s, ready, TryLocking(k)).0) && Runs(Act(s, ready, TryLocking(k)).0, steps)
    requires forall i :: 0 <= i < |steps| ==> !steps[i].1.Release?
    ensures var s1 := After(Act(s, ready, TryLocking(k)).0, steps);
      k in s1.conn.retries && !s1.conn.locker.Unlocked? && |s.conn.wrapped.calls| <= |s1.conn.wrapped.calls|
  {
    TryLockExactly(s.conn, k);
    EntryStays(Act(s, ready, TryLocking(k)).0, steps, k);
  }

  // Every refused request but `Send` is discharged by the next release, whoever performs it.
  lemma RefusedRequestIsDischarged(s: Session, ready: Ready, steps: Steps, k: LocKind, ready1: Ready, guard: LockContext,
                                   order: seq<LocKind>, now: Time)
    requires SessionInv(s) && Refused(s.conn, k) && !k.Send? && !k.Unlocked?
    requires SessionInv(Act(s, ready, TryLocking(k)).0) && Runs(Act(s, ready, TryLocking(k)).0, steps)
    requires forall i :: 0 <= i < |steps| ==> !steps[i].1.Release?
    requires Allowed(After(Act(s, ready, TryLocking(k)).0, steps), Release(guard, order, now))
    ensures var s1 := After(Act(s, ready, TryLocking(k)).0, steps);
      var (s2, ready2) := Act(s1, ready1, Release(guard, order, now));
      Discharged(Site(s2.conn, ready2), |s.conn.wrapped.calls|, k)
  {
    RefusedRequestStays(s, ready, steps, k);
    var s1 := After(Act(s, ready, TryLocking(k)).0, steps);
    ReleaseDischargesEntry(s1, ready1, guard, order, now, k);
    var (s2, ready2) := Act(s1, ready1, Release(guard, order, now));
    hide Act, After, Runs, Discharged, Allowed;
    DischargedEarlier(Site(s2.conn, ready2), |s.conn.wrapped.calls|, |s1.conn.wrapped.calls|, k);
  }

  lemma ReleaseDischargesEntry(s: Session, ready: Ready, guard: LockContext, order: seq<LocKind>, now: Time, k: LocKind)
    requires SessionInv(s) && Allowed(s, Release(guard, order, now)) && k in s.conn.retries
    ensures var (s', ready') := Act(s, ready, Release(guard, order, now));
      Discharged(Site(s'.conn, ready'), |s.conn.wrapped.calls|, k)
  {
    UnlockReleases(Site(s.conn, ready), guard.sendDone, order, now);
    assert k in Elements(order);
    hide Unlock;
  }

  // ---- Generations of guards ----

  // The release of the last holder begins a new generation, that of one reader of several does not.
  lemma ReleaseAdvances(s: Session, ready: Ready, guard: LockContext, order: seq<LocKind>, now: Time)
    requires SessionInv(s) && Allowed(s, Release(guard, order, now))
    ensures var s' := Act(s, ready, Release(guard, order, now)).0;
      if s.conn.locker.ReadLock? && s.conn.readLockCount > 1 then
        s'.conn.locker.ReadLock? && s'.conn.readLockCount == s.conn.readLockCount - 1
        && s'.conn.lockCount == s.conn.lockCount
      else s'.conn.locker.Unlocked? && s'.conn.readLockCount == 0 && s'.conn.lockCount == s.conn.lockCount + 1
  {
    UnlockReleases(Site(s.conn, ready), guard.sendDone, order, now);
    hide Unlock;
  }

  lemma {:induction false} RunCounts(s: Session, steps: Steps)
    requires SessionInv(s) && Runs(s, steps)
    ensures After(s, steps).conn.lockCount >= s.conn.lockCount
    decreases |steps|
  {
    if steps != [] {
      ActKeepsInv(s, steps[0].0, steps[0].1);
      RunCounts(Act(s, steps[0].0, steps[0].1).0, steps[1..]);
    }
  }

  // A guard of an earlier generation is never mistaken for a later one: once the lock was freed,
  // no guard handed out in any run after that carries the same count.
  lemma GuardsOfGenerations(s: Session, ready: Ready, guard: LockContext, order: seq<LocKind>, now: Time, steps: Steps,
                            other: LockContext)
    requires SessionInv(s) && Allowed(s, Release(guard, order, now))
    requires SessionInv(Act(s, ready, Release(guard, order, now)).0)
    requires Act(s, ready, Release(guard, order, now)).0.conn.locker.Unlocked?
    requires Runs(Act(s, ready, Release(guard, order, now)).0, steps)
    requires other in After(Act(s, ready, Release(guard, order, now)).0, steps).guards
    ensures other.lockCount > guard.lockCount
  {
    ReleaseAdvances(s, ready, guard, order, now);
    assert guard.lockCount == s.conn.lockCount;
    var s1 := Act(s, ready, Release(guard, order, now)).0;
    hide Act, Allowed;
    RunCounts(s1, steps);
    assert LockInv(After(s1, steps));
  }

  // ---- Establishment ----

  // A connection counts as established from the start exactly if it was when it was wrapped; it
  // is then never announced as such, whatever happens.
  lemma EstablishedBeforeIsSilent(token: Token, q: Quiche, steps: Steps, ready: Ready, a: Action)
    requires q.view.established && Runs(Fresh(token, q), steps) && Allowed(After(Fresh(token, q), steps), a)
    ensures var s := After(Fresh(token, q), steps);
      var (s', ready') := Act(s, ready, a);
      EstablishedRaised(s'.conn, ready') <==> EstablishedRaised(s.conn, ready)
  {
    RunEstablished(Fresh(token, q), steps);
    ActEstablishes(After(Fresh(token, q), steps), ready, a);
    hide Act, Allowed, EstablishedRaised;
  }

  lemma {:induction false} RunEstablished(s: Session, steps: Steps)
    requires SessionInv(s) && Runs(s, steps) && s.conn.established
    ensures After(s, steps).conn.established
    decreases |steps|
  {
    if steps != [] {
      ActKeepsInv(s, steps[0].0, steps[0].1);
      ActEstablishes(s, steps[0].0, steps[0].1);
      hide Act, Allowed;
      RunEstablished(Act(s, steps[0].0, steps[0].1).0, steps[1..]);
    }
  }

  // One that was not established when it was wrapped is announced by the first release that
  // finds it established.
  lemma FirstEstablishmentIsAnnounced(token: Token, q: Quiche, ready: Ready, steps: Steps, a: Action)
    requires !q.view.established && Runs(Fresh(token, q), steps)
    requires !After(Fresh(token, q), steps).conn.established && Allowed(After(Fresh(token, q), steps), a)
    requires Prepare(After(Fresh(token, q), steps), a).leaving.Some?
    requires Act(After(Fresh(token, q), steps), ready, a).0.conn.wrapped.view.established
    ensures !Fresh(token, q).conn.established
    ensures var (s', ready') := Act(After(Fresh(token, q), steps), ready, a); EstablishedRaised(s'.conn, ready')
  {
    ActEstablishes(After(Fresh(token, q), steps), ready, a);
    hide Act, Allowed, EstablishedRaised, Prepare;
  }

  // ---- Remote streams ----

  // Over all runs every remote stream that became readable was announced, once and at its first
  // appearance, if and only if the remote streams of each kind first appeared in order.
  lemma RemoteStreamsAreAnnounced(token: Token, q: Quiche, steps: Steps)
    requires Runs(Fresh(token, q), steps)
    ensures var c := After(Fresh(token, q), steps).conn;
      var ids, isServer := c.wrapped.drained, c.wrapped.isServer;
      && ((forall k :: 0 <= k < |ids| && !IsLocal(ids[k], isServer) ==> Announced(c, ids[k])) <==> InOrder(ids, isServer))
      && (InOrder(ids, isServer) ==>
            forall k :: 0 <= k < |ids| && !IsLocal(ids[k], isServer) ==>
              (IsRecord(ids, k, isServer) <==> FirstAt(ids, k, ids[k])))
  {
    var c := After(Fresh(token, q), steps).conn;
    var ids, isServer := c.wrapped.drained, c.wrapped.isServer;
    AllAnnouncedIffInOrder(ids, isServer);
    if InOrder(ids, isServer) {
      forall k | 0 <= k < |ids| && !IsLocal(ids[k], isServer)
        ensures IsRecord(ids, k, isServer) <==> FirstAt(ids, k, ids[k])
      {
        InOrderAcceptsFirst(ids, isServer, k);
      }
    }
  }

  // ---- Deferred calls and readers ----

  // The release of one of several readers replays the ledger too: it makes deferred calls
  // while a guard is outstanding exactly if there is another reader and a deferred call.
  lemma DeferredCallsMeetReaders(s: Session, ready: Ready, guard: LockContext, order: seq<LocKind>, now: Time)
    requires SessionInv(s) && Allowed(s, Release(guard, order, now))
    ensures var s' := Act(s, ready, Release(guard, order, now)).0;
      |s'.conn.wrapped.calls| > |s.conn.wrapped.calls| && s'.guards != multiset{} <==>
        && s.conn.locker.ReadLock? && s.conn.readLockCount > 1
        && exists k :: k in s.conn.retries && MakesCalls(k)
  {
    UnlockCalls(Site(s.conn, ready), guard.sendDone, order, now);
    assert forall k :: k in order <==> k in s.conn.retries by {
      assert forall k :: k in order <==> k in Elements(order);
    }
    hide Unlock;
    assert |s.guards - multiset{guard}| == |s.guards| - 1;
    if s.guards - multiset{guard} == multiset{} {
      assert |s.guards - multiset{guard}| == 0;
    }
  }

  // The session of a new connection with n readers inside, one guard each.
  ghost function Reading(token: Token, q: Quiche, n: nat, guards: multiset<LockContext>): Session {
    Session(NewConn(token, q).(locker := LocKind.ReadLock, readLockCount := n), guards, {}, false)
  }

  lemma FirstReader(token: Token, q: Quiche, ready: Ready)
    ensures var s := Fresh(token, q);
      var s' := Reading(token, q, 1, multiset{LockContext(token, 0, false)});
      Allowed(s, TryLocking(LocKind.ReadLock)) && Act(s, ready, TryLocking(LocKind.ReadLock)).0 == s' && SessionInv(s')
  {
  }

  lemma SecondReader(token: Token, q: Quiche, ready: Ready)
    ensures var guard := LockContext(token, 0, false);
      var s, s' := Reading(token, q, 1, multiset{guard}), Reading(token, q, 2, multiset{guard, guard});
      && SessionInv(s) && Allowed(s, TryLocking(LocKind.ReadLock))
      && Act(s, ready, TryLocking(LocKind.ReadLock)).0 == s' && SessionInv(s')
  {
  }

  // Two readers inside, and a close noted in the ledger.
  ghost function CloseNoted(token: Token, q: Quiche, k: LocKind): Session {
    var guard := LockContext(token, 0, false);
    var s := Reading(token, q, 2, multiset{guard, guard});
    s.(conn := s.conn.(retries := {k}), closes := {OkClose(k, |q.calls|)})
  }

  lemma CloseRefused(token: Token, q: Quiche, ready: Ready, app: bool, err: nat, reason: seq<byte>, now: Time)
    ensures var guard, a := LockContext(token, 0, false), CloseConn(app, err, reason, [], now);
      var s, s' := Reading(token, q, 2, multiset{guard, guard}), CloseNoted(token, q, Close(app, err, reason));
      SessionInv(s) && Allowed(s, a) && Act(s, ready, a).0 == s' && SessionInv(s')
  {
  }

  lemma ReaderLeaves(token: Token, q: Quiche, ready: Ready, k: LocKind, now: Time)
    requires k.Close?
    ensures var guard := LockContext(token, 0, false);
      var s, a := CloseNoted(token, q, k), Release(guard, [k], now);
      && SessionInv(s) && Allowed(s, a) && SessionInv(Act(s, ready, a).0)
      && Act(s, ready, a).0.guards == multiset{guard}
      && Applied(Act(s, ready, a).0.conn.wrapped, |q.calls|, k)
  {
    var guard := LockContext(token, 0, false);
    var s, a := CloseNoted(token, q, k), Release(guard, [k], now);
    OneEntryDrains(k);
    assert SessionInv(s) && Allowed(s, a);
    ActKeepsInv(s, ready, a);
    UnlockReleases(Site(s.conn, ready), false, [k], now);
    hide Unlock;
    assert Discharged(Site(Act(s, ready, a).0.conn, Act(s, ready, a).1), |q.calls|, k);
  }

  // It does happen: two readers, a close in between, and the first reader leaves.
  lemma CloseMeetsReader(token: Token, q: Quiche, ready: Ready, app: bool, err: nat, reason: seq<byte>, now: Time)
    ensures var guard := LockContext(token, 0, false);
      var steps := [(ready, TryLocking(LocKind.ReadLock)), (ready, TryLocking(LocKind.ReadLock)),
                    (ready, CloseConn(app, err, reason, [], now)),
                    (ready, Release(guard, [Close(app, err, reason)], now))];
      && Runs(Fresh(token, q), steps)
      && var s' := After(Fresh(token, q), steps);
         s'.guards == multiset{guard} && Applied(s'.conn.wrapped, |q.calls|, Close(app, err, reason))
  {
    var guard, k := LockContext(token, 0, false), Close(app, err, reason);
    var a, b, c := TryLocking(LocKind.ReadLock), CloseConn(app, err, reason, [], now), Release(guard, [k], now);
    FirstReader(token, q, ready);
    SecondReader(token, q, ready);
    CloseRefused(token, q, ready, app, err, reason, now);
    ReaderLeaves(token, q, ready, k, now);
    hide Act, Allowed, SessionInv, Runs, After, Fresh, Reading, CloseNoted, Applied;
    var s3 := CloseNoted(token, q, k);
    RunOfFour(Fresh(token, q), [(ready, a), (ready, a), (ready, b), (ready, c)], Reading(token, q, 1, multiset{guard}),
              Reading(token, q, 2, multiset{guard, guard}), s3, Act(s3, ready, c).0);
  }

  lemma OneEntryDrains(k: LocKind)
    requires !k.Unlocked?
    ensures DrainOrder([k], {k})
  {
    assert [k][0] == k;
  }

  lemma RunOfFour(s0: Session, steps: Steps, s1: Session, s2: Session, s3: Session, s4: Session)
    requires |steps| == 4
    requires SessionInv(s0) && SessionInv(s1) && SessionInv(s2) && SessionInv(s3) && SessionInv(s4)
    requires Allowed(s0, steps[0].1) && s1 == Act(s0, steps[0].0, steps[0].1).0
    requires Allowed(s1, steps[1].1) && s2 == Act(s1, steps[1].0, steps[1].1).0
    requires Allowed(s2, steps[2].1) && s3 == Act(s2, steps[2].0, steps[2].1).0
    requires Allowed(s3, steps[3].1) && s4 == Act(s3, steps[3].0, steps[3].1).0
    ensures Runs(s0, steps) && After(s0, steps) == s4
  {
    hide Act, Allowed, SessionInv;
    var r1, r2, r3 := steps[1..], steps[2..], steps[3..];
    assert r1[1..] == r2 && r2[1..] == r3 && r3[1..] == [];
    assert Runs(s4, []);
    assert Runs(s3, r3) && After(s3, r3) == s4;
    assert Runs(s2, r2) && After(s2, r2) == s4;
    assert Runs(s1, r1) && After(s1, r1) == s4;
  }

  // ---- Streams opened by this side ----

  // The two low bits of the next id are those of a stream of this side and this kind.
  lemma NextIdIsLocal(c: Conn, kind: StreamKind)
    requires LocalIdsInv(c)
    ensures IsLocal(NextOf(c, kind), c.wrapped.isServer) && StreamKindOf(NextOf(c, kind)) == kind
  {
  }

  lemma OpenNowNumbers(c: Conn, kind: StreamKind, nonBlocking: bool)
    requires LocalIdsInv(c)
    ensures var (c', reply) := OpenNow(c, kind, nonBlocking);
      && NextOf(c', Uni) >= NextOf(c, Uni) && NextOf(c', Bidi) >= NextOf(c, Bidi)
      && (reply.OpenId? ==>
            && NextOf(c, kind) <= reply.id < NextOf(c', kind)
            && IsLocal(reply.id, c.wrapped.isServer) && StreamKindOf(reply.id) == kind)
  {
    NextIdIsLocal(c, kind);
    hide IsLocal, StreamKindOf, LocalIdsInv;
  }

  lemma PrepareNumbers(s: Session, a: Action)
    requires LocalIdsInv(s.conn)
    ensures var c := Prepare(s, a).session.conn;
      NextOf(c, Uni) >= NextOf(s.conn, Uni) && NextOf(c, Bidi) >= NextOf(s.conn, Bidi)
    ensures a.OpenStream? ==> Prepare(s, a).session.conn == OpenNow(s.conn, a.kind, a.nonBlocking).0
  {
    match a
    case OpenStream(kind, nonBlocking, _, _) =>
      OpenNowNumbers(s.conn, kind, nonBlocking);
      hide OpenNow;
    case CloseConn(_, _, _, _, _) =>
    case CloseStream(_, _, _, _) =>
    case _ =>
  }

  // The ids to open next never go back, and an id handed out lies between the old and the new.
  lemma ActNumbers(s: Session, ready: Ready, a: Action)
    requires SessionInv(s) && Allowed(s, a)
    ensures var c := Act(s, ready, a).0.conn;
      && NextOf(c, Uni) >= NextOf(s.conn, Uni) && NextOf(c, Bidi) >= NextOf(s.conn, Bidi)
      && (a.OpenStream? && OpenNow(s.conn, a.kind, a.nonBlocking).1.OpenId? ==>
            NextOf(s.conn, a.kind) <= OpenNow(s.conn, a.kind, a.nonBlocking).1.id < NextOf(c, a.kind))
  {
    hide Prepare, OpenNow, Act, Allowed;
    PrepareNumbers(s, a);
    ReleaseKeepsNumbers(s, ready, a);
    if a.OpenStream? {
      OpenNowNumbers(s.conn, a.kind, a.nonBlocking);
    }
  }

  lemma ReleaseKeepsNumbers(s: Session, ready: Ready, a: Action)
    requires SessionInv(s) && Allowed(s, a)
    ensures var c, c' := Prepare(s, a).session.conn, Act(s, ready, a).0.conn;
      c'.localUniNext == c.localUniNext && c'.localBidiNext == c.localBidiNext
  {
    var p := Prepare(s, a);
    PrepareKeepsInv(s, a);
    if p.leaving.Some? {
      UnlockKeepsNumbers(Site(p.session.conn, ready), p.leaving.value.sendDone, a.order, a.now);
    }
    hide Prepare, Unlock;
  }

  lemma UnlockKeepsNumbers(s: Site, sendDone: bool, order: seq<LocKind>, now: Time)
    requires forall k :: k in order ==> !k.Unlocked?
    requires s.conn.locker.ReadLock? ==> s.conn.readLockCount > 0
    ensures var c := Unlock(s, sendDone, order, now).conn;
      c.localUniNext == s.conn.localUniNext && c.localBidiNext == s.conn.localBidiNext
  {
    UnlockReleases(s, sendDone, order, now);
    hide Unlock;
  }

  lemma {:induction false} RunNumbers(s: Session, steps: Steps, kind: StreamKind)
    requires SessionInv(s) && Runs(s, steps)
    ensures NextOf(After(s, steps).conn, kind) >= NextOf(s.conn, kind)
    decreases |steps|
  {
    if steps != [] {
      ActKeepsInv(s, steps[0].0, steps[0].1);
      ActNumbers(s, steps[0].0, steps[0].1);
      RunNumbers(Act(s, steps[0].0, steps[0].1).0, steps[1..], kind);
    }
  }

  // An open that finds the lock free and credit uses up an id.
  ghost predicate UsesId(s: Session, a: Action, kind: StreamKind) {
    a.OpenStream? && a.kind == kind && s.conn.locker.Unlocked? && CreditOf(s.conn.wrapped, kind) > 0
  }

  ghost function IdsUsed(s: Session, steps: Steps, kind: StreamKind): nat
    requires SessionInv(s) && Runs(s, steps)
    decreases |steps|
  {
    if steps == [] then 0
    else
      ActKeepsInv(s, steps[0].0, steps[0].1);
      (if UsesId(s, steps[0].1, kind) then 1 else 0) + IdsUsed(Act(s, steps[0].0, steps[0].1).0, steps[1..], kind)
  }

  lemma PrepareUsesId(s: Session, a: Action, kind: StreamKind)
    requires SessionInv(s)
    ensures NextOf(Prepare(s, a).session.conn, kind) == NextOf(s.conn, kind) + if UsesId(s, a, kind) then 4 else 0
  {
    match a
    case OpenStream(k, nonBlocking, _, _) =>
      OpenExactly(s.conn, k, nonBlocking);
      hide OpenNow;
    case CloseConn(_, _, _, _, _) =>
    case CloseStream(_, _, _, _) =>
    case _ =>
  }

  lemma ActUsesId(s: Session, ready: Ready, a: Action, kind: StreamKind)
    requires SessionInv(s) && Allowed(s, a)
    ensures NextOf(Act(s, ready, a).0.conn, kind) == NextOf(s.conn, kind) + if UsesId(s, a, kind) then 4 else 0
  {
    PrepareUsesId(s, a, kind);
    ReleaseKeepsNumbers(s, ready, a);
    hide Prepare, Act;
  }

  lemma {:induction false} RunUsesIds(s: Session, steps: Steps, kind: StreamKind)
    requires SessionInv(s) && Runs(s, steps)
    ensures NextOf(After(s, steps).conn, kind) == NextOf(s.conn, kind) + 4 * IdsUsed(s, steps, kind)
    decreases |steps|
  {
    if steps != [] {
      ActKeepsInv(s, steps[0].0, steps[0].1);
      ActUsesId(s, steps[0].0, steps[0].1, kind);
      hide Act, Allowed, UsesId;
      RunUsesIds(Act(s, steps[0].0, steps[0].1).0, steps[1..], kind);
    }
  }

  // Over all runs the ids of one kind count up by four from the first one of this side: 0 and 2
  // for a client, 1 and 3 for a server (section 2.1 of RFC 9000); a successful open hands out the
  // next in line.
  lemma IdsByFour(token: Token, q: Quiche, steps: Steps, kind: StreamKind, nonBlocking: bool)
    requires Runs(Fresh(token, q), steps)
    ensures var s := After(Fresh(token, q), steps);
      var reply := OpenNow(s.conn, kind, nonBlocking).1;
      reply.OpenId? ==>
        reply.id == (if q.isServer then 1 else 0) + (if kind.Bidi? then 0 else 2) + 4 * IdsUsed(Fresh(token, q), steps, kind)
  {
    RunUsesIds(Fresh(token, q), steps, kind);
    OpenExactly(After(Fresh(token, q), steps).conn, kind, nonBlocking);
    hide OpenNow, IdsUsed;
  }

  // Two opens that succeed, with any run in between, return different ids.
  lemma OpenedIdsDiffer(s: Session, ready: Ready, first: Action, steps: Steps, second: Action)
    requires SessionInv(s) && Allowed(s, first) && first.OpenStream? && second.OpenStream?
    requires SessionInv(Act(s, ready, first).0) && Runs(Act(s, ready, first).0, steps)
    requires OpenNow(s.conn, first.kind, first.nonBlocking).1.OpenId?
    requires OpenNow(After(Act(s, ready, first).0, steps).conn, second.kind, second.nonBlocking).1.OpenId?
    ensures OpenNow(s.conn, first.kind, first.nonBlocking).1.id
         != OpenNow(After(Act(s, ready, first).0, steps).conn, second.kind, second.nonBlocking).1.id
  {
    var s1 := Act(s, ready, first).0;
    var c2 := After(s1, steps).conn;
    ActNumbers(s, ready, first);
    RunNumbers(s1, steps, first.kind);
    OpenNowNumbers(s.conn, first.kind, first.nonBlocking);
    OpenNowNumbers(c2, second.kind, second.nonBlocking);
    hide OpenNow, Act;
  }
}
