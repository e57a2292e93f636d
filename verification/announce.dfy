// What a release announces besides new streams: readable and writable streams, and the
// establishment of the connection.
module Announcements {
  import opened Api
  import opened Readiness
  import opened QuicheLib
  import opened Conns
  import opened Releases
  import opened Replays
  import opened Sessions

  // ---- Readable streams ----

  // The id drained as number k has been announced: as a new stream if it was a record then,
  // as readable otherwise.
  ghost predicate ReadableRaised(s: Site, k: nat)
    requires k < |s.conn.wrapped.drained|
  {
    var q := s.conn.wrapped;
    if IsRecord(q.drained, k, q.isServer) then AcceptRaised(s, q.drained[k])
    else Raised(s, EventKind.StreamRecv, false, q.drained[k])
  }

  lemma RecordOfPrefix(ids: seq<nat>, more: seq<nat>, k: nat, isServer: bool)
    requires k < |ids|
    ensures IsRecord(ids + more, k, isServer) <==> IsRecord(ids, k, isServer)
  {
    assert forall j :: 0 <= j < |ids| ==> (ids + more)[j] == ids[j];
  }

  lemma ReadableRaisedStays(s: Site, s': Site, more: seq<nat>, k: nat)
    requires k < |s.conn.wrapped.drained| && ReadableRaised(s, k)
    requires Later(s, s') && s'.conn.wrapped.drained == s.conn.wrapped.drained + more
    ensures ReadableRaised(s', k)
  {
    RecordOfPrefix(s.conn.wrapped.drained, more, k, s.conn.wrapped.isServer);
  }

  lemma {:induction false} DrainReadableRaises(s: Site, k: nat)
    requires SeenInv(s.conn)
    requires |s.conn.wrapped.drained| <= k < |DrainReadable(s).conn.wrapped.drained|
    ensures ReadableRaised(DrainReadable(s), k)
    decreases |s.conn.wrapped.view.readable|
  {
    var q := s.conn.wrapped;
    DrainReadableEmpties(s);
    var id := q.view.readable[0];
    var s1 := HandleReadable(WithQuiche(s, q.PopReadable()), id);
    HandleReadableAnnounces(s);
    HandleReadableLater(s);
    if k == |q.drained| {
      assert s1.conn.wrapped.drained[k] == id;
      DrainReadableLater(s1);
      DrainReadableEmpties(s1);
      ReadableRaisedStays(s1, DrainReadable(s1), s1.conn.wrapped.view.readable, k);
    } else {
      DrainReadableRaises(s1, k);
    }
  }

  lemma FinishedKeepsReadable(s: Site, sendDone: bool, now: Time, s': Site, k: nat)
    requires Finished(s, sendDone, now, s')
    requires k < |s.conn.wrapped.drained| && ReadableRaised(s, k)
    ensures ReadableRaised(s', k)
  {
  }

  // A release leaves no readable stream unannounced.
  lemma UnlockRaisesReadable(s: Site, sendDone: bool, order: seq<LocKind>, now: Time, k: nat)
    requires forall k :: k in order ==> !k.Unlocked?
    requires s.conn.locker.ReadLock? ==> s.conn.readLockCount > 0
    requires SeenInv(s.conn)
    ensures var s' := Unlock(s, sendDone, order, now);
      && s'.conn.wrapped.view.readable == []
      && s.conn.wrapped.drained <= s'.conn.wrapped.drained
      && (|s.conn.wrapped.drained| <= k < |s'.conn.wrapped.drained| ==> ReadableRaised(s', k))
  {
    var s0 := Site(Leave(s.conn), s.ready);
    var s1 := ReplayAll(s0, order);
    var s2 := DrainWritable(s1);
    var s3 := DrainReadable(s2);
    ReplayAllLater(s0, order);
    DrainWritableLater(s1);
    DrainReadableEmpties(s2);
    FinishFacts(s3, sendDone, now);
    if |s.conn.wrapped.drained| <= k < |s3.conn.wrapped.drained| {
      DrainReadableRaises(s2, k);
      FinishedKeepsReadable(s3, sendDone, now, Unlock(s, sendDone, order, now), k);
    }
  }

  // The id drained as number k was not a new record.
  ghost predicate Lesser(q: Quiche, k: nat, id: nat) {
    k < |q.drained| && q.drained[k] == id && !IsRecord(q.drained, k, q.isServer)
  }

  // `StreamRecv` of stream `id` is due since the state in which `from` ids had been drained.
  ghost predicate LesserSince(q: Quiche, from: nat, id: nat) {
    exists k :: from <= k && Lesser(q, k, id)
  }

  ghost predicate RecvRaised(s: Site, id: nat) {
    Raised(s, EventKind.StreamRecv, false, id)
  }

  // The ids drained from number `from` on, when `first` was the first of them.
  lemma LesserSplits(q: Quiche, q': Quiche, first: nat, id: nat)
    requires q'.isServer == q.isServer && q.drained + [first] <= q'.drained
    ensures LesserSince(q', |q.drained|, id) <==>
      LesserSince(q', |q.drained| + 1, id)
      || (first == id && !IsRecord(q.drained + [first], |q.drained|, q.isServer))
  {
    var n, more := |q.drained|, q'.drained[|q.drained| + 1..];
    assert q'.drained == (q.drained + [first]) + more;
    RecordOfPrefix(q.drained + [first], more, n, q.isServer);
    assert q'.drained[n] == first;
    assert Lesser(q', n, id) <==> first == id && !IsRecord(q.drained + [first], n, q.isServer);
  }

  // Over a whole drain: the `StreamRecv` events added are exactly those of the ids that are no
  // new records.
  lemma {:induction false} DrainReadableReceives(s: Site, id: nat)
    requires SeenInv(s.conn)
    ensures var s' := DrainReadable(s);
      RecvRaised(s', id) <==> RecvRaised(s, id) || LesserSince(s'.conn.wrapped, |s.conn.wrapped.drained|, id)
    decreases |s.conn.wrapped.view.readable|
  {
    var q := s.conn.wrapped;
    DrainReadableEmpties(s);
    if q.view.readable != [] {
      var first := q.view.readable[0];
      var s1 := HandleReadable(WithQuiche(s, q.PopReadable()), first);
      HandleReadableAnnounces(s);
      HandleReadableLater(s);
      DrainReadableReceives(s1, id);
      DrainReadableEmpties(s1);
      DrainReadableLater(s1);
      LesserSplits(q, DrainReadable(s1).conn.wrapped, first, id);
    }
  }

  lemma {:induction false} ReplayAllReceives(s: Site, order: seq<LocKind>, id: nat)
    requires forall k :: k in order ==> !k.Unlocked?
    ensures RecvRaised(ReplayAll(s, order), id) <==> RecvRaised(s, id) || LocKind.StreamRecv(id) in order
  {
    if order != [] {
      var init, last := order[..|order| - 1], order[|order| - 1];
      ReplayAllReceives(s, init, id);
      ReplayAllLater(s, init);
      ReplayOneReceives(ReplayAll(s, init), last, id);
      assert order == init + [last];
    }
  }

  lemma ReplayOneReceives(s: Site, k: LocKind, id: nat)
    requires !k.Unlocked?
    ensures RecvRaised(ReplayOne(s, k), id) <==> RecvRaised(s, id) || k == LocKind.StreamRecv(id)
  {
    if k.StreamClose? {
      CloseBothSidesEvolves(s.conn.wrapped, k.id, k.err);
    }
  }

  lemma {:induction false} DrainWritableReceives(s: Site, id: nat)
    ensures RecvRaised(DrainWritable(s), id) <==> RecvRaised(s, id)
    decreases |s.conn.wrapped.view.writable|
  {
    var q := s.conn.wrapped;
    if q.view.writable != [] {
      DrainWritableReceives(Announce(WithQuiche(s, q.PopWritable()), EventKind.StreamSend, false, q.view.writable[0]), id);
    }
  }

  lemma FinishReceives(s: Site, sendDone: bool, now: Time, id: nat)
    ensures var s' := HandleClosed(HandleEstablished(HandleSend(s, sendDone, now)));
      s'.conn.wrapped == s.conn.wrapped && (RecvRaised(s', id) <==> RecvRaised(s, id))
  {
  }

  // A release raises `StreamRecv` exactly for the streams whose receivers it finds in the
  // ledger, and for those it drains that are no new records.
  lemma UnlockReceives(s: Site, sendDone: bool, order: seq<LocKind>, now: Time, id: nat)
    requires forall k :: k in order ==> !k.Unlocked?
    requires s.conn.locker.ReadLock? ==> s.conn.readLockCount > 0
    requires SeenInv(s.conn)
    ensures var s' := Unlock(s, sendDone, order, now);
      RecvRaised(s', id) <==>
        RecvRaised(s, id) || LocKind.StreamRecv(id) in order
        || LesserSince(s'.conn.wrapped, |s.conn.wrapped.drained|, id)
  {
    var s0 := Site(Leave(s.conn), s.ready);
    var s1 := ReplayAll(s0, order);
    var s2 := DrainWritable(s1);
    ReplayAllReceives(s0, order, id);
    ReplayAllLater(s0, order);
    DrainWritableReceives(s1, id);
    DrainWritableLater(s1);
    DrainReadableReceives(s2, id);
    FinishReceives(DrainReadable(s2), sendDone, now, id);
    hide ReplayAll, DrainWritable, DrainReadable, HandleSend, HandleEstablished, HandleClosed, LesserSince;
  }

  // While the remote streams of a kind appear in order, a remote stream gets a `StreamRecv`
  // caused by readability only after it was announced for acceptance.
  lemma InOrderAcceptsBeforeReceiving(s: Site, sendDone: bool, order: seq<LocKind>, now: Time, id: nat)
    requires forall k :: k in order ==> !k.Unlocked?
    requires s.conn.locker.ReadLock? ==> s.conn.readLockCount > 0
    requires SeenInv(s.conn) && !IsLocal(id, s.conn.wrapped.isServer)
    requires InOrder(Unlock(s, sendDone, order, now).conn.wrapped.drained, s.conn.wrapped.isServer)
    requires RecvRaised(Unlock(s, sendDone, order, now), id) && !RecvRaised(s, id) && LocKind.StreamRecv(id) !in order
    ensures var q, q' := s.conn.wrapped, Unlock(s, sendDone, order, now).conn.wrapped;
      exists j, k :: 0 <= j < k && |q.drained| <= k && Lesser(q', k, id)
                     && IsRecord(q'.drained, j, q'.isServer) && q'.drained[j] == id
  {
    var q' := Unlock(s, sendDone, order, now).conn.wrapped;
    UnlockReceives(s, sendDone, order, now, id);
    UnlockReleases(s, sendDone, order, now);
    hide Unlock;
    var k :| |s.conn.wrapped.drained| <= k && Lesser(q', k, id);
    InOrderAcceptsFirst(q'.drained, q'.isServer, k);
    var j :| 0 <= j < k && IsRecord(q'.drained, j, q'.isServer) && q'.drained[j] == q'.drained[k];
  }

  // ---- Writable streams ----

  lemma {:induction false} DrainWritableRaises(s: Site, id: nat)
    ensures Raised(DrainWritable(s), EventKind.StreamSend, false, id) <==>
      Raised(s, EventKind.StreamSend, false, id) || id in s.conn.wrapped.view.writable
    decreases |s.conn.wrapped.view.writable|
  {
    var q := s.conn.wrapped;
    if q.view.writable != [] {
      DrainWritableRaises(Announce(WithQuiche(s, q.PopWritable()), EventKind.StreamSend, false, q.view.writable[0]), id);
    }
  }

  lemma {:induction false} DrainReadableRaisesNoSend(s: Site, id: nat)
    ensures Raised(DrainReadable(s), EventKind.StreamSend, false, id) <==> Raised(s, EventKind.StreamSend, false, id)
    ensures DrainReadable(s).conn.wrapped.view.writable == s.conn.wrapped.view.writable
    decreases |s.conn.wrapped.view.readable|
  {
    var q := s.conn.wrapped;
    if q.view.readable != [] {
      HandleReadableLater(s);
      DrainReadableRaisesNoSend(HandleReadable(WithQuiche(s, q.PopReadable()), q.view.readable[0]), id);
    }
  }

  lemma FinishRaisesNoSend(s: Site, sendDone: bool, now: Time, id: nat)
    ensures var s' := HandleClosed(HandleEstablished(HandleSend(s, sendDone, now)));
      && s'.conn.wrapped == s.conn.wrapped
      && (Raised(s', EventKind.StreamSend, false, id) <==> Raised(s, EventKind.StreamSend, false, id))
  {
  }

  // A release announces as writable exactly the streams of which the library said so when asked
  // for a refused sender, and those that are writable once the ledger is replayed.
  lemma UnlockRaisesWritable(s: Site, sendDone: bool, order: seq<LocKind>, now: Time, id: nat)
    requires forall k :: k in order ==> !k.Unlocked?
    requires s.conn.locker.ReadLock? ==> s.conn.readLockCount > 0
    ensures var replayed := ReplayAll(Site(Leave(s.conn), s.ready), order);
      var s' := Unlock(s, sendDone, order, now);
      && s'.conn.wrapped.view.writable == []
      && (Raised(s', EventKind.StreamSend, false, id) <==>
            Raised(s, EventKind.StreamSend, false, id)
            || SendAnsweredSince(s'.conn.wrapped, |s.conn.wrapped.calls|, id, false)
            || id in replayed.conn.wrapped.view.writable)
  {
    ReplayAllAnswers(Site(Leave(s.conn), s.ready), order, id, false);
    ReplayAllLater(Site(Leave(s.conn), s.ready), order);
    var s1 := ReplayAll(Site(Leave(s.conn), s.ready), order);
    var s2 := DrainWritable(s1);
    DrainWritableRaises(s1, id);
    DrainWritableLater(s1);
    DrainReadableRaisesNoSend(s2, id);
    FinishRaisesNoSend(DrainReadable(s2), sendDone, now, id);
    DrainWritableCalls(s1);
    DrainReadableCalls(s2);
    DrainReadableLater(s2);
    SameAnswers(s1.conn.wrapped, Unlock(s, sendDone, order, now).conn.wrapped, |s.conn.wrapped.calls|, id, false);
    hide SendAnsweredSince, ReplayAll, DrainWritable, DrainReadable;
  }

  // ---- Closure ----

  // `Closed` is raised by an action exactly if that ends with a release that leaves the
  // connection closed.
  lemma ActRaisesClosed(s: Session, ready: Ready, a: Action)
    requires SessionInv(s) && Allowed(s, a)
    ensures var (s', ready') := Act(s, ready, a);
      ClosedRaised(Site(s'.conn, ready')) <==>
        ClosedRaised(Site(s.conn, ready)) || (Prepare(s, a).leaving.Some? && s'.conn.wrapped.view.closed)
  {
    var p := Prepare(s, a);
    PrepareKeepsInv(s, a);
    if p.leaving.Some? {
      UnlockRaisesClosed(Site(p.session.conn, ready), p.leaving.value.sendDone, a.order, a.now);
    }
    hide Prepare, Unlock;
  }

  lemma UnlockRaisesClosed(s: Site, sendDone: bool, order: seq<LocKind>, now: Time)
    requires forall k :: k in order ==> !k.Unlocked?
    requires s.conn.locker.ReadLock? ==> s.conn.readLockCount > 0
    ensures var s' := Unlock(s, sendDone, order, now);
      ClosedRaised(s') <==> ClosedRaised(s) || s'.conn.wrapped.view.closed
  {
    UnlockReleases(s, sendDone, order, now);
    hide Unlock;
  }

  // A closed connection stays closed, so every further release raises `Closed` again.
  lemma ClosedAgain(s: Session, ready: Ready, a: Action)
    requires SessionInv(s) && Allowed(s, a) && s.conn.wrapped.view.closed
    ensures var (s', ready') := Act(s, ready, a);
      && s'.conn.wrapped.view.closed
      && (ClosedRaised(Site(s'.conn, ready')) <==>
            ClosedRaised(Site(s.conn, ready)) || Prepare(s, a).leaving.Some?)
  {
    ActRaisesClosed(s, ready, a);
    ActIsActed(s, ready, a);
    hide Act, Prepare, Allowed;
  }

  // The `StreamRecv` events raised by an action.
  lemma ActReceives(s: Session, ready: Ready, a: Action, id: nat)
    requires SessionInv(s) && Allowed(s, a)
    ensures var (s', ready') := Act(s, ready, a);
      RecvRaised(Site(s'.conn, ready'), id) <==>
        || RecvRaised(Site(s.conn, ready), id)
        || (Prepare(s, a).leaving.Some? && LocKind.StreamRecv(id) in a.order)
        || LesserSince(s'.conn.wrapped, |s.conn.wrapped.drained|, id)
  {
    var p := Prepare(s, a);
    PrepareKeepsInv(s, a);
    if p.leaving.Some? {
      UnlockReceives(Site(p.session.conn, ready), p.leaving.value.sendDone, a.order, a.now, id);
    }
    hide Prepare, Unlock, SessionInv, Allowed;
  }

  // ---- Establishment ----

  function EstablishedKind(isServer: bool): EventKind {
    if isServer then EventKind.Accept else EventKind.Connected
  }

  ghost predicate EstablishedRaised(c: Conn, ready: Ready) {
    Raised(Site(c, ready), EstablishedKind(c.wrapped.isServer), false, 0)
  }

  lemma FinishEstablishes(s: Site, sendDone: bool, now: Time)
    ensures var s' := HandleClosed(HandleEstablished(HandleSend(s, sendDone, now)));
      && (s'.conn.established <==> s.conn.established || s'.conn.wrapped.view.established)
      && (EstablishedRaised(s'.conn, s'.ready) <==>
            EstablishedRaised(s.conn, s.ready) || (s'.conn.established && !s.conn.established))
  {
  }

  lemma UnlockEstablishes(s: Site, sendDone: bool, order: seq<LocKind>, now: Time)
    requires forall k :: k in order ==> !k.Unlocked?
    requires s.conn.locker.ReadLock? ==> s.conn.readLockCount > 0
    ensures var s' := Unlock(s, sendDone, order, now);
      && (s'.conn.established <==> s.conn.established || s'.conn.wrapped.view.established)
      && (EstablishedRaised(s'.conn, s'.ready) <==>
            EstablishedRaised(s.conn, s.ready) || (s'.conn.established && !s.conn.established))
  {
    var s1 := Flush(s, order);
    FlushLater(s, order);
    assert s1.conn.established == s.conn.established;
    assert EstablishedRaised(s1.conn, s1.ready) <==> EstablishedRaised(s.conn, s.ready);
    FinishEstablishes(s1, sendDone, now);
  }

  lemma CallsKeepEstablished(c: Conn, kind: StreamKind, nonBlocking: bool, app: bool, id: nat, err: nat, reason: seq<byte>)
    ensures OpenNow(c, kind, nonBlocking).0.established == c.established
    ensures CloseNow(c, app, err, reason).0.established == c.established
    ensures StreamCloseNow(c, id, err).0.established == c.established
  {
  }

  lemma PrepareKeepsEstablished(s: Session, a: Action)
    ensures Prepare(s, a).session.conn.established == s.conn.established
  {
    hide OpenNow, CloseNow, StreamCloseNow, CloseBothSides;
    match a
    case CloseConn(app, err, reason, _, _) => CallsKeepEstablished(s.conn, Uni, false, app, 0, err, reason);
    case OpenStream(kind, nonBlocking, _, _) => CallsKeepEstablished(s.conn, kind, nonBlocking, false, 0, 0, []);
    case CloseStream(id, err, _, _) => CallsKeepEstablished(s.conn, Uni, false, false, id, err, []);
    case _ =>
  }

  // The establishment event of a connection is raised exactly by the action that turns its
  // flag, and the flag never turns back: a connection is announced at most once.
  lemma ActEstablishes(s: Session, ready: Ready, a: Action)
    requires SessionInv(s) && Allowed(s, a)
    ensures var (s', ready') := Act(s, ready, a);
      && (s'.conn.established <==>
            s.conn.established || (Prepare(s, a).leaving.Some? && s'.conn.wrapped.view.established))
      && (EstablishedRaised(s'.conn, ready') <==>
            EstablishedRaised(s.conn, ready) || (s'.conn.established && !s.conn.established))
  {
    var p := Prepare(s, a);
    PrepareKeepsInv(s, a);
    PrepareKeepsEstablished(s, a);
    if p.leaving.Some? {
      UnlockEstablishes(Site(p.session.conn, ready), p.leaving.value.sendDone, a.order, a.now);
    }
    hide Prepare, Unlock;
  }
}
