// What one release of the connection lock achieves, as seen by those who were refused it.
module Releases {
  import opened Api
  import opened Readiness
  import opened QuicheLib
  import opened Conns

  // ---- What replaying and draining keep ----

  // Events are only added, for this connection; the lock word is left alone; `Send` is not touched.
  ghost predicate Later(s: Site, s': Site) {
    && s'.conn == s.conn.(retries := s'.conn.retries, wrapped := s'.conn.wrapped,
         remoteBidiSeen := s'.conn.remoteBidiSeen, remoteUniSeen := s'.conn.remoteUniSeen)
    && s.conn.retries <= s'.conn.retries
    && Evolves(s.conn.wrapped, s'.conn.wrapped)
    && s.ready.events <= s'.ready.events
    && (forall e :: e in s'.ready.events && e !in s.ready.events ==>
          && e.token == s.conn.token && e.isServer == s.conn.wrapped.isServer
          && !e.kind.Send? && !e.kind.Connected? && !e.kind.Accept?
          && (e.kind.StreamAccept? ==> !e.isError) && (e.kind.Closed? ==> e.isError))
    && s'.ready.delayed.Keys <= s.ready.delayed.Keys
    && (forall e :: e in s.ready.delayed && e.kind.Send? ==> e in s'.ready.delayed)
    && (forall e :: e in s'.ready.delayed ==> s'.ready.delayed[e] == s.ready.delayed[e])
    && (s.ready.Valid() ==> s'.ready.Valid())
  }

  lemma LaterTransitive(a: Site, b: Site, c: Site)
    requires Later(a, b) && Later(b, c)
    ensures Later(a, c)
  {
  }

  lemma CloseBothSidesEvolves(q: Quiche, id: nat, err: nat)
    ensures Evolves(q, CloseBothSides(q, id, err).0)
    ensures CloseBothSides(q, id, err).0.drained == q.drained
  {
  }

  lemma ReplayOneLater(s: Site, k: LocKind)
    requires !k.Unlocked?
    ensures Later(s, ReplayOne(s, k))
    ensures var s' := ReplayOne(s, k);
      && s'.conn.wrapped.drained == s.conn.wrapped.drained
      && s'.conn.remoteBidiSeen == s.conn.remoteBidiSeen && s'.conn.remoteUniSeen == s.conn.remoteUniSeen
      && forall e :: e in s'.ready.events && e !in s.ready.events ==> !e.kind.StreamAccept?
  {
    hide Announce, CloseBothSides, Later;
    var q := s.conn.wrapped;
    WithQuicheLater(s, q);
    match k
    case Send =>
    case Recv => AnnounceLater(s, EventKind.Recv, false, 0);
    case StreamRecv(id) => AnnounceLater(s, EventKind.StreamRecv, false, id);
    case StreamOpen(kind) =>
      AnnounceLater(s, OpenEvent(kind), false, 0);
      EntryLater(s, k);
    case ReadLock => AnnounceLater(s, EventKind.ReadLock, false, 0);
    case StreamClose(id, err) =>
      CloseBothSidesEvolves(q, id, err);
      WithQuicheLater(s, CloseBothSides(q, id, err).0);
    case Close(app, err, reason) =>
      var s1 := WithQuiche(s, q.Invoke(CloseCall(app, err, reason)));
      WithQuicheLater(s, s1.conn.wrapped);
      AnnounceLater(s1, EventKind.Closed, true, 0);
      LaterTransitive(s, s1, Announce(s1, EventKind.Closed, true, 0));
    case StreamSend(id, len) =>
      var s1 := WithQuiche(s, q.Invoke(WritableCall(id, len)));
      WithQuicheLater(s, s1.conn.wrapped);
      AnnounceLater(s1, EventKind.StreamSend, true, id);
      AnnounceLater(s1, EventKind.StreamSend, false, id);
      LaterTransitive(s, s1, Announce(s1, EventKind.StreamSend, true, id));
      LaterTransitive(s, s1, Announce(s1, EventKind.StreamSend, false, id));
  }

  lemma WithQuicheLater(s: Site, q: Quiche)
    requires Evolves(s.conn.wrapped, q)
    ensures Later(s, WithQuiche(s, q))
  {
  }

  lemma EntryLater(s: Site, k: LocKind)
    ensures Later(s, s.(conn := s.conn.(retries := s.conn.retries + {k})))
  {
  }

  lemma AnnounceLater(s: Site, kind: EventKind, isError: bool, id: nat)
    requires !kind.Send? && !kind.Connected? && !kind.Accept? && !kind.StreamAccept? && (kind.Closed? ==> isError)
    ensures var s' := Announce(s, kind, isError, id);
      Later(s, s') && s'.conn == s.conn && forall e :: e in s'.ready.events && e !in s.ready.events ==> e.kind == kind
  {
  }

  lemma {:induction false} ReplayAllLater(s: Site, order: seq<LocKind>)
    requires forall k :: k in order ==> !k.Unlocked?
    ensures Later(s, ReplayAll(s, order))
    ensures var s' := ReplayAll(s, order);
      && s'.conn.wrapped.drained == s.conn.wrapped.drained
      && s'.conn.remoteBidiSeen == s.conn.remoteBidiSeen && s'.conn.remoteUniSeen == s.conn.remoteUniSeen
      && forall e :: e in s'.ready.events && e !in s.ready.events ==> !e.kind.StreamAccept?
  {
    if order != [] {
      var init, last := order[..|order| - 1], order[|order| - 1];
      ReplayAllLater(s, init);
      ReplayOneLater(ReplayAll(s, init), last);
      LaterTransitive(s, ReplayAll(s, init), ReplayAll(s, order));
    }
  }

  lemma {:induction false} DrainWritableLater(s: Site)
    ensures Later(s, DrainWritable(s))
    ensures var s' := DrainWritable(s);
      && s'.conn.wrapped.drained == s.conn.wrapped.drained
      && s'.conn.wrapped.view == s.conn.wrapped.view.(writable := [])
      && s'.conn == s.conn.(wrapped := s'.conn.wrapped)
      && forall e :: e in s'.ready.events && e !in s.ready.events ==> !e.kind.StreamAccept?
    decreases |s.conn.wrapped.view.writable|
  {
    var q := s.conn.wrapped;
    if q.view.writable != [] {
      var s1 := Announce(WithQuiche(s, q.PopWritable()), EventKind.StreamSend, false, q.view.writable[0]);
      DrainWritableLater(s1);
      LaterTransitive(s, s1, DrainWritable(s1));
    }
  }

  lemma HandleReadableLater(s: Site)
    requires s.conn.wrapped.view.readable != []
    ensures var q := s.conn.wrapped;
      var s' := HandleReadable(WithQuiche(s, q.PopReadable()), q.view.readable[0]);
      && Later(s, s') && s'.conn.wrapped == q.PopReadable() && s'.conn.retries == s.conn.retries
  {
  }

  lemma {:induction false} DrainReadableLater(s: Site)
    ensures Later(s, DrainReadable(s))
    decreases |s.conn.wrapped.view.readable|
  {
    var q := s.conn.wrapped;
    if q.view.readable != [] {
      var s1 := HandleReadable(WithQuiche(s, q.PopReadable()), q.view.readable[0]);
      HandleReadableLater(s);
      DrainReadableLater(s1);
      LaterTransitive(s, s1, DrainReadable(s1));
    }
  }

  lemma {:induction false} DrainReadableEmpties(s: Site)
    ensures var s' := DrainReadable(s);
      && s'.conn.wrapped.drained == s.conn.wrapped.drained + s.conn.wrapped.view.readable
      && s'.conn.retries == s.conn.retries
      && s'.conn.wrapped.view == s.conn.wrapped.view.(readable := [])
    decreases |s.conn.wrapped.view.readable|
  {
    var q := s.conn.wrapped;
    if q.view.readable != [] {
      var s1 := HandleReadable(WithQuiche(s, q.PopReadable()), q.view.readable[0]);
      HandleReadableLater(s);
      DrainReadableEmpties(s1);
    }
  }

  // ---- Deferred closes reach the connection ----

  ghost predicate CallAt(q: Quiche, i: nat, call: Call) {
    i < |q.calls| && q.calls[i] == call
  }

  ghost predicate StopAt(q: Quiche, i: nat, id: nat, err: nat) {
    && CallAt(q, i, FinishedCall(id))
    && (q.replies(i).flag || CallAt(q, i + 1, ShutdownReadCall(id, err)))
  }

  ghost predicate StopFailedAt(q: Quiche, i: nat) {
    !q.replies(i).flag && q.replies(i + 1).outcome.Failed?
  }

  // From call i on: the receiving side is stopped unless finished, and the sending side of
  // a stream we send on is finished, unless stopping failed.
  ghost predicate StreamCloseAt(q: Quiche, i: nat, id: nat, err: nat) {
    if IsBidi(id) then
      && StopAt(q, i, id, err)
      && (StopFailedAt(q, i) || CallAt(q, i + (if q.replies(i).flag then 1 else 2), SendFinCall(id)))
    else if IsLocal(id, q.isServer) then CallAt(q, i, SendFinCall(id))
    else StopAt(q, i, id, err)
  }

  // Request k has been carried out on the connection, at call `from` or later.
  ghost predicate Applied(q: Quiche, from: nat, k: LocKind) {
    && (k.Close? ==> exists i :: from <= i && CallAt(q, i, CloseCall(k.app, k.err, k.reason)))
    && (k.StreamClose? ==> exists i :: from <= i && StreamCloseAt(q, i, k.id, k.err))
  }

  lemma AppliedStays(q: Quiche, q': Quiche, from: nat, k: LocKind)
    requires Applied(q, from, k) && Continues(q, q')
    ensures Applied(q', from, k)
  {
    if k.StreamClose? {
      var i :| from <= i && StreamCloseAt(q, i, k.id, k.err);
      assert StreamCloseAt(q', i, k.id, k.err);
    }
    if k.Close? {
      var i :| from <= i && CallAt(q, i, CloseCall(k.app, k.err, k.reason));
      assert CallAt(q', i, CloseCall(k.app, k.err, k.reason));
    }
  }

  lemma CloseBothSidesApplies(q: Quiche, id: nat, err: nat)
    ensures StreamCloseAt(CloseBothSides(q, id, err).0, |q.calls|, id, err)
  {
  }

  // ---- Every entry of the ledger is discharged by the next release ----

  ghost predicate Raised(s: Site, kind: EventKind, isError: bool, id: nat) {
    EventOf(s.conn, kind, isError, id) in s.ready.events
  }

  // A deferred close that the library refuses is reported as an error.
  ghost predicate CloseAnswered(s: Site, i: nat, k: LocKind)
    requires k.Close?
  {
    && CallAt(s.conn.wrapped, i, CloseCall(k.app, k.err, k.reason))
    && (s.conn.wrapped.replies(i).outcome.Failed? ==> Raised(s, EventKind.Closed, true, 0))
  }

  // The library was asked whether the stream is writable; yes and failure are reported.
  ghost predicate WritableAnswered(s: Site, i: nat, k: LocKind)
    requires k.StreamSend?
  {
    var reply := s.conn.wrapped.replies(i);
    && CallAt(s.conn.wrapped, i, WritableCall(k.id, k.len))
    && (if reply.outcome.Fine? then reply.flag ==> Raised(s, EventKind.StreamSend, false, k.id)
        else Raised(s, EventKind.StreamSend, true, k.id))
  }

  ghost predicate ClosedRaised(s: Site) {
    Raised(s, EventKind.Closed, false, 0)
  }

  // Entry k has become an event, or a call on the connection made since call `from`, or is a
  // stream open without credit that stays in the ledger.
  ghost predicate Discharged(s: Site, from: nat, k: LocKind) {
    match k
    case Unlocked => false
    case Send => true
    case Recv => Raised(s, EventKind.Recv, false, 0)
    case Close(_, _, _) => exists i :: from <= i && CloseAnswered(s, i, k)
    case StreamOpen(kind) =>
      || Raised(s, OpenEvent(kind), false, 0)
      || (k in s.conn.retries && s.conn.wrapped.StreamsLeft(kind) == 0)
    case StreamSend(_, _) => exists i :: from <= i && WritableAnswered(s, i, k)
    case StreamRecv(id) => Raised(s, EventKind.StreamRecv, false, id)
    case StreamClose(_, _) => Applied(s.conn.wrapped, from, k)
    case ReadLock => Raised(s, EventKind.ReadLock, false, 0)
  }

  lemma ReplayOneDischarges(s: Site, k: LocKind)
    requires !k.Unlocked?
    ensures Discharged(ReplayOne(s, k), |s.conn.wrapped.calls|, k)
  {
    var q, q' := s.conn.wrapped, ReplayOne(s, k).conn.wrapped;
    match k
    case StreamClose(id, err) =>
      CloseBothSidesApplies(q, id, err);
    case Close(app, err, reason) =>
      assert CloseAnswered(ReplayOne(s, k), |q.calls|, k);
    case StreamSend(id, len) =>
      assert WritableAnswered(ReplayOne(s, k), |q.calls|, k);
    case _ =>
  }

  lemma DischargedStays(s: Site, s': Site, from: nat, from': nat, k: LocKind)
    requires Discharged(s, from', k) && Later(s, s') && from <= from'
    ensures Discharged(s', from, k)
  {
    var q, q' := s.conn.wrapped, s'.conn.wrapped;
    match k
    case StreamSend(id, len) =>
      var i :| from' <= i && WritableAnswered(s, i, k);
      assert WritableAnswered(s', i, k);
    case Close(_, _, _) =>
      var i :| from' <= i && CloseAnswered(s, i, k);
      assert CloseAnswered(s', i, k);
    case StreamClose(_, _) =>
      AppliedStays(q, q', from', k);
    case _ =>
  }

  lemma {:induction false} ReplayAllDischarges(s: Site, order: seq<LocKind>, k: LocKind)
    requires forall k :: k in order ==> !k.Unlocked?
    requires k in order
    ensures Discharged(ReplayAll(s, order), |s.conn.wrapped.calls|, k)
  {
    var init, last := order[..|order| - 1], order[|order| - 1];
    var s1 := ReplayAll(s, init);
    ReplayAllLater(s, init);
    ReplayOneLater(s1, last);
    if k == last {
      ReplayOneDischarges(s1, k);
      LaterTransitive(s1, ReplayAll(s, order), ReplayAll(s, order));
      DischargedStays(ReplayAll(s, order), ReplayAll(s, order), |s.conn.wrapped.calls|, |s1.conn.wrapped.calls|, k);
    } else {
      assert order == init + [last];
      ReplayAllDischarges(s, init, k);
      DischargedStays(s1, ReplayAll(s, order), |s.conn.wrapped.calls|, |s.conn.wrapped.calls|, k);
    }
  }

  // The only entries left behind are stream opens without credit.
  ghost predicate OnlyStarvedOpens(c: Conn) {
    forall k :: k in c.retries ==> k.StreamOpen? && c.wrapped.StreamsLeft(k.kind) == 0
  }

  lemma {:induction false} ReplayAllLeavesStarvedOpens(s: Site, order: seq<LocKind>)
    requires forall k :: k in order ==> !k.Unlocked?
    requires OnlyStarvedOpens(s.conn)
    ensures OnlyStarvedOpens(ReplayAll(s, order).conn)
  {
    if order != [] {
      ReplayAllLeavesStarvedOpens(s, order[..|order| - 1]);
      ReplayOneLater(ReplayAll(s, order[..|order| - 1]), order[|order| - 1]);
    }
  }

  // ---- Which streams are announced for acceptance ----

  predicate SameKind(a: nat, b: nat) {
    IsBidi(a) == IsBidi(b)
  }

  // Position k of `ids` holds a remote stream larger than every earlier remote one of its kind.
  ghost predicate IsRecord(ids: seq<nat>, k: nat, isServer: bool) {
    && k < |ids| && !IsLocal(ids[k], isServer)
    && forall j :: 0 <= j < k && !IsLocal(ids[j], isServer) && SameKind(ids[j], ids[k]) ==> ids[j] < ids[k]
  }

  ghost predicate Recorded(ids: seq<nat>, isServer: bool, id: nat) {
    exists k :: 0 <= k < |ids| && IsRecord(ids, k, isServer) && ids[k] == id
  }

  // `seen` is the running maximum of the remote streams of one kind.
  ghost predicate IsMaximum(seen: Option<nat>, ids: seq<nat>, isServer: bool, bidi: bool) {
    && (seen.Some? ==> seen.value in ids && !IsLocal(seen.value, isServer) && IsBidi(seen.value) == bidi)
    && (forall id :: id in ids && !IsLocal(id, isServer) && IsBidi(id) == bidi ==> seen.Some? && id <= seen.value)
  }

  ghost predicate SeenInv(c: Conn) {
    && IsMaximum(c.remoteBidiSeen, c.wrapped.drained, c.wrapped.isServer, true)
    && IsMaximum(c.remoteUniSeen, c.wrapped.drained, c.wrapped.isServer, false)
  }

  lemma RecordsExtend(ids: seq<nat>, id: nat, isServer: bool, other: nat)
    ensures Recorded(ids + [id], isServer, other) <==>
      Recorded(ids, isServer, other) || (other == id && IsRecord(ids + [id], |ids|, isServer))
  {
    var more := ids + [id];
    if Recorded(ids, isServer, other) {
      var k :| 0 <= k < |ids| && IsRecord(ids, k, isServer) && ids[k] == other;
      assert IsRecord(more, k, isServer) && more[k] == other;
    }
    if Recorded(more, isServer, other) {
      var k :| 0 <= k < |more| && IsRecord(more, k, isServer) && more[k] == other;
      if k < |ids| {
        forall j | 0 <= j < k
          ensures ids[j] == more[j]
        {
        }
        assert ids[k] == more[k] && IsRecord(ids, k, isServer);
      }
    }
    if IsRecord(more, |ids|, isServer) {
      assert more[|ids|] == id;
    }
  }

  // A new record is a remote stream above the running maximum of its kind.
  lemma RecordIsAboveSeen(seen: Option<nat>, ids: seq<nat>, id: nat, isServer: bool)
    requires IsMaximum(seen, ids, isServer, IsBidi(id))
    ensures IsRecord(ids + [id], |ids|, isServer) <==> !IsLocal(id, isServer) && (seen.None? || id > seen.value)
  {
    assert (ids + [id])[|ids|] == id;
    assert forall j :: 0 <= j < |ids| ==> (ids + [id])[j] == ids[j] && ids[j] in ids;
    if seen.Some? {
      var j :| 0 <= j < |ids| && ids[j] == seen.value;
      assert (ids + [id])[j] == seen.value;
    }
  }

  // One readable stream: announced with StreamAccept if it is a new maximum of its remote
  // kind, with StreamRecv otherwise.
  lemma HandleReadableAnnounces(s: Site)
    requires SeenInv(s.conn) && s.conn.wrapped.view.readable != []
    ensures var q := s.conn.wrapped; var id := q.view.readable[0];
      var s' := HandleReadable(WithQuiche(s, q.PopReadable()), id);
      && SeenInv(s'.conn)
      && (if IsRecord(q.drained + [id], |q.drained|, q.isServer)
          then s'.ready.events == s.ready.events + {EventOf(s.conn, EventKind.StreamAccept, false, id)}
          else s'.ready.events == s.ready.events + {EventOf(s.conn, EventKind.StreamRecv, false, id)})
  {
    var q := s.conn.wrapped;
    var id := q.view.readable[0];
    RecordIsAboveSeen(Seen(s.conn, id), q.drained, id, q.isServer);
    var s' := HandleReadable(WithQuiche(s, q.PopReadable()), id);
    assert s'.conn.wrapped.drained == q.drained + [id];
    hide IsMaximum, IsRecord;
    MaximumExtends(s.conn.remoteBidiSeen, s'.conn.remoteBidiSeen, q.drained, id, q.isServer, true);
    MaximumExtends(s.conn.remoteUniSeen, s'.conn.remoteUniSeen, q.drained, id, q.isServer, false);
  }

  lemma MaximumExtends(seen: Option<nat>, seen': Option<nat>, ids: seq<nat>, id: nat, isServer: bool, bidi: bool)
    requires IsMaximum(seen, ids, isServer, bidi)
    requires var counts := !IsLocal(id, isServer) && IsBidi(id) == bidi && (seen.None? || id > seen.value);
      seen' == if counts then Some(id) else seen
    ensures IsMaximum(seen', ids + [id], isServer, bidi)
  {
  }

  ghost predicate AcceptRaised(s: Site, id: nat) {
    Raised(s, EventKind.StreamAccept, false, id)
  }

  ghost predicate Announced(c: Conn, id: nat) {
    Recorded(c.wrapped.drained, c.wrapped.isServer, id)
  }

  lemma HandleReadableRecords(s: Site, id: nat)
    requires SeenInv(s.conn) && s.conn.wrapped.view.readable != []
    ensures var q := s.conn.wrapped;
      var s' := HandleReadable(WithQuiche(s, q.PopReadable()), q.view.readable[0]);
      && SeenInv(s'.conn)
      && (Announced(s.conn, id) ==> Announced(s'.conn, id))
      && (AcceptRaised(s', id) <==> AcceptRaised(s, id) || (Announced(s'.conn, id) && !Announced(s.conn, id)))
  {
    var q := s.conn.wrapped;
    var next := q.view.readable[0];
    HandleReadableAnnounces(s);
    HandleReadableLater(s);
    RecordsExtend(q.drained, next, q.isServer, id);
    if IsRecord(q.drained + [next], |q.drained|, q.isServer) {
      RecordIsNew(q.drained, next, q.isServer);
    }
  }

  // Over a whole drain: the StreamAccept events added are exactly the new records.
  lemma {:induction false} DrainReadableAnnounces(s: Site, id: nat)
    requires SeenInv(s.conn)
    ensures SeenInv(DrainReadable(s).conn)
    ensures Announced(s.conn, id) ==> Announced(DrainReadable(s).conn, id)
    ensures AcceptRaised(DrainReadable(s), id) <==>
      AcceptRaised(s, id) || (Announced(DrainReadable(s).conn, id) && !Announced(s.conn, id))
    decreases |s.conn.wrapped.view.readable|
  {
    var q := s.conn.wrapped;
    if q.view.readable != [] {
      var s1 := HandleReadable(WithQuiche(s, q.PopReadable()), q.view.readable[0]);
      HandleReadableRecords(s, id);
      HandleReadableLater(s);
      DrainReadableAnnounces(s1, id);
    }
  }

  lemma RecordIsNew(ids: seq<nat>, id: nat, isServer: bool)
    requires IsRecord(ids + [id], |ids|, isServer)
    ensures id !in ids
  {
    forall j | 0 <= j < |ids|
      ensures ids[j] != id
    {
      assert (ids + [id])[j] == ids[j];
    }
  }

  // ---- One release as a whole ----

  // The `Send` event after a release: removed only when the sender reported "done" and the
  // connection has neither a timeout nor a release time.
  ghost predicate SendScheduled(s: Site, sendDone: bool, now: Time) {
    var e := SendEvent(s.conn);
    match DelaySend(s.conn.wrapped, now, sendDone)
    case Some(t) => e in s.ready.delayed && s.ready.delayed[e] == t && e !in s.ready.events
    case None => if sendDone then e !in s.ready.events && e !in s.ready.delayed else e in s.ready.events
  }

  // The lock word after one holder has left: the last one frees it and begins a new generation.
  ghost predicate LockLeft(c: Conn, c': Conn)
    requires c.locker.ReadLock? ==> c.readLockCount > 0
  {
    && (if c.locker.ReadLock? && c.readLockCount > 1 then
          c'.locker.ReadLock? && c'.lockCount == c.lockCount && c'.readLockCount == c.readLockCount - 1
        else
          && c'.locker.Unlocked? && c'.lockCount == c.lockCount + 1
          && c'.readLockCount == if c.locker.ReadLock? then 0 else c.readLockCount)
    && c'.token == c.token && c'.localBidiNext == c.localBidiNext && c'.localUniNext == c.localUniNext
  }

  // How the queue changes: only `Send` of this connection may go, only events of this
  // connection come.
  ghost predicate QueueLater(c: Conn, ready: Ready, ready': Ready) {
    && (forall e :: e in ready.events && e != SendEvent(c) ==> e in ready'.events)
    && (forall e :: e in ready'.events && e !in ready.events ==>
          e.token == c.token && e.isServer == c.wrapped.isServer && (e.kind.StreamAccept? ==> !e.isError))
    && (forall e :: e in ready.delayed && e.kind.Send? && e != SendEvent(c) ==> e in ready'.delayed)
    && (forall e :: e in ready'.delayed && e !in ready.delayed ==> e == SendEvent(c))
    && (ready.Valid() ==> ready'.Valid())
  }

  ghost predicate Released(s: Site, sendDone: bool, order: seq<LocKind>, now: Time, s': Site)
    requires s.conn.locker.ReadLock? ==> s.conn.readLockCount > 0
  {
    && LockLeft(s.conn, s'.conn)
    && Evolves(s.conn.wrapped, s'.conn.wrapped)
    && OnlyStarvedOpens(s'.conn)
    && (forall k :: k in order ==> Discharged(s', |s.conn.wrapped.calls|, k))
    && QueueLater(s.conn, s.ready, s'.ready)
    && SendScheduled(s', sendDone, now)
    && (ClosedRaised(s') <==> ClosedRaised(s) || s'.conn.wrapped.view.closed)
  }

  lemma FlushLater(s: Site, order: seq<LocKind>)
    requires forall k :: k in order ==> !k.Unlocked?
    requires s.conn.locker.ReadLock? ==> s.conn.readLockCount > 0
    ensures Later(Site(Leave(s.conn), s.ready), Flush(s, order))
    ensures OnlyStarvedOpens(Flush(s, order).conn)
  {
    var s0 := Site(Leave(s.conn), s.ready);
    var s1 := ReplayAll(s0, order);
    var s2 := DrainWritable(s1);
    ReplayAllLater(s0, order);
    ReplayAllLeavesStarvedOpens(s0, order);
    DrainWritableLater(s1);
    DrainReadableLater(s2);
    DrainReadableEmpties(s2);
    LaterTransitive(s0, s1, s2);
    LaterTransitive(s0, s2, DrainReadable(s2));
  }

  lemma FlushDischarges(s: Site, order: seq<LocKind>, k: LocKind)
    requires forall k :: k in order ==> !k.Unlocked?
    requires s.conn.locker.ReadLock? ==> s.conn.readLockCount > 0
    requires k in order
    ensures Discharged(Flush(s, order), |s.conn.wrapped.calls|, k)
  {
    var s0 := Site(Leave(s.conn), s.ready);
    var s1 := ReplayAll(s0, order);
    var s2 := DrainWritable(s1);
    var n := |s.conn.wrapped.calls|;
    ReplayAllDischarges(s0, order, k);
    DrainWritableLater(s1);
    DrainReadableLater(s2);
    LaterTransitive(s1, s2, DrainReadable(s2));
    DischargedStays(s1, DrainReadable(s2), n, n, k);
  }

  // From the flushed state to the end of `unlock`.
  ghost predicate Finished(s: Site, sendDone: bool, now: Time, s': Site) {
    && s'.conn == s.conn.(established := s'.conn.established)
    && (forall e :: e in s.ready.events && e != SendEvent(s.conn) ==> e in s'.ready.events)
    && (forall e :: e in s'.ready.events && e !in s.ready.events ==>
          e.token == s.conn.token && e.isServer == s.conn.wrapped.isServer && !e.kind.StreamAccept?)
    && (forall e :: e in s.ready.delayed && e.kind.Send? && e != SendEvent(s.conn) ==> e in s'.ready.delayed)
    && (forall e :: e in s'.ready.delayed && e !in s.ready.delayed ==> e == SendEvent(s.conn))
    && SendScheduled(s', sendDone, now)
    && (s.ready.Valid() ==> s'.ready.Valid())
    && (ClosedRaised(s') <==> ClosedRaised(s) || s'.conn.wrapped.view.closed)
  }

  lemma FinishFacts(s: Site, sendDone: bool, now: Time)
    ensures Finished(s, sendDone, now, HandleClosed(HandleEstablished(HandleSend(s, sendDone, now))))
  {
    var s1 := HandleSend(s, sendDone, now);
    var s2 := HandleClosed(HandleEstablished(s1));
    SendFacts(s, sendDone, now);
    AnnouncedLater(s1, sendDone, now);
    FinishComposes(s, s1, sendDone, now, s2);
    hide HandleSend, HandleEstablished, HandleClosed, Finished, SendHandled;
  }

  // The first part of the end of `unlock`, in which the queue may lose the `Send` event.
  ghost predicate SendHandled(s: Site, sendDone: bool, now: Time, s': Site) {
    && s'.conn == s.conn && SendScheduled(s', sendDone, now)
    && (forall e :: e != SendEvent(s.conn) ==> (e in s'.ready.events <==> e in s.ready.events))
    && (forall e :: e != SendEvent(s.conn) ==> (e in s'.ready.delayed <==> e in s.ready.delayed))
    && (s.ready.Valid() ==> s'.ready.Valid())
  }

  lemma SendFacts(s: Site, sendDone: bool, now: Time)
    ensures SendHandled(s, sendDone, now, HandleSend(s, sendDone, now))
  {
  }

  lemma AnnouncedLater(s: Site, sendDone: bool, now: Time)
    requires SendScheduled(s, sendDone, now)
    ensures Finished(s, sendDone, now, HandleClosed(HandleEstablished(s)))
  {
  }

  lemma FinishComposes(s: Site, s1: Site, sendDone: bool, now: Time, s2: Site)
    requires SendHandled(s, sendDone, now, s1) && Finished(s1, sendDone, now, s2)
    ensures Finished(s, sendDone, now, s2)
  {
  }

  lemma DischargedFinished(s: Site, sendDone: bool, now: Time, s': Site, from: nat, k: LocKind)
    requires Finished(s, sendDone, now, s') && Discharged(s, from, k)
    ensures Discharged(s', from, k)
  {
    match k
    case StreamSend(_, _) =>
      var i :| from <= i && WritableAnswered(s, i, k);
      assert WritableAnswered(s', i, k);
    case Close(_, _, _) =>
      var i :| from <= i && CloseAnswered(s, i, k);
      assert CloseAnswered(s', i, k);
    case _ =>
  }

  lemma ReleaseComposes(s: Site, s1: Site, s2: Site, sendDone: bool, order: seq<LocKind>, now: Time)
    requires s.conn.locker.ReadLock? ==> s.conn.readLockCount > 0
    requires Later(Site(Leave(s.conn), s.ready), s1) && OnlyStarvedOpens(s1.conn)
    requires Finished(s1, sendDone, now, s2)
    requires forall k :: k in order ==> Discharged(s1, |s.conn.wrapped.calls|, k)
    ensures Released(s, sendDone, order, now, s2)
  {
    forall k | k in order
      ensures Discharged(s2, |s.conn.wrapped.calls|, k)
    {
      DischargedFinished(s1, sendDone, now, s2, |s.conn.wrapped.calls|, k);
    }
  }

  // A release discharges the whole ledger, whatever the order of the drain.
  lemma UnlockReleases(s: Site, sendDone: bool, order: seq<LocKind>, now: Time)
    requires forall k :: k in order ==> !k.Unlocked?
    requires s.conn.locker.ReadLock? ==> s.conn.readLockCount > 0
    ensures Released(s, sendDone, order, now, Unlock(s, sendDone, order, now))
  {
    var s1 := Flush(s, order);
    FlushLater(s, order);
    FinishFacts(s1, sendDone, now);
    forall k | k in order
      ensures Discharged(s1, |s.conn.wrapped.calls|, k)
    {
      FlushDischarges(s, order, k);
    }
    ReleaseComposes(s, s1, Unlock(s, sendDone, order, now), sendDone, order, now);
  }

  // A release announces exactly the new records of the streams it drained.
  lemma UnlockAnnounces(s: Site, sendDone: bool, order: seq<LocKind>, now: Time, id: nat)
    requires forall k :: k in order ==> !k.Unlocked?
    requires s.conn.locker.ReadLock? ==> s.conn.readLockCount > 0
    requires SeenInv(s.conn)
    ensures var s' := Unlock(s, sendDone, order, now);
      && SeenInv(s'.conn)
      && (Announced(s.conn, id) ==> Announced(s'.conn, id))
      && (AcceptRaised(s', id) <==> AcceptRaised(s, id) || (Announced(s'.conn, id) && !Announced(s.conn, id)))
  {
    var s0 := Site(Leave(s.conn), s.ready);
    var s1 := ReplayAll(s0, order);
    var s2 := DrainWritable(s1);
    ReplayAllLater(s0, order);
    DrainWritableLater(s1);
    assert SeenInv(s2.conn);
    assert AcceptRaised(s2, id) <==> AcceptRaised(s, id);
    DrainReadableAnnounces(s2, id);
    FinishFacts(DrainReadable(s2), sendDone, now);
  }

  // A stream is ever announced exactly when its first appearance is larger than every
  // remote stream of its kind that became readable before.
  lemma AnnouncedExactly(ids: seq<nat>, isServer: bool, id: nat)
    ensures Recorded(ids, isServer, id) <==>
      exists k :: 0 <= k < |ids| && FirstAt(ids, k, id) && IsRecord(ids, k, isServer)
  {
  }

  ghost predicate FirstAt(ids: seq<nat>, k: nat, id: nat) {
    k < |ids| && ids[k] == id && forall j :: 0 <= j < k ==> ids[j] != id
  }

  ghost predicate RemotePair(a: nat, b: nat, isServer: bool) {
    !IsLocal(a, isServer) && !IsLocal(b, isServer) && SameKind(a, b)
  }

  // Remote streams of one kind first appear in increasing order.
  ghost predicate InOrder(ids: seq<nat>, isServer: bool) {
    forall j, k :: 0 <= j < k < |ids| && FirstPair(ids, j, k, isServer) ==> ids[j] < ids[k]
  }

  // The first appearances of two remote streams of one kind.
  ghost predicate FirstPair(ids: seq<nat>, j: nat, k: nat, isServer: bool)
    requires j < |ids| && k < |ids|
  {
    RemotePair(ids[j], ids[k], isServer) && FirstAt(ids, j, ids[j]) && FirstAt(ids, k, ids[k])
  }

  ghost predicate AllRecorded(ids: seq<nat>, isServer: bool) {
    forall k :: 0 <= k < |ids| && !IsLocal(ids[k], isServer) ==> Recorded(ids, isServer, ids[k])
  }

  lemma {:induction false} FirstAppearance(ids: seq<nat>, k: nat) returns (f: nat)
    requires k < |ids|
    ensures f <= k && FirstAt(ids, f, ids[k])
  {
    if j :| 0 <= j < k && ids[j] == ids[k] {
      f := FirstAppearance(ids, j);
    } else {
      f := k;
    }
  }

  lemma FirstInOrderIsRecord(ids: seq<nat>, isServer: bool, k: nat)
    requires InOrder(ids, isServer) && k < |ids| && !IsLocal(ids[k], isServer) && FirstAt(ids, k, ids[k])
    ensures IsRecord(ids, k, isServer)
  {
    forall j | 0 <= j < k && !IsLocal(ids[j], isServer) && SameKind(ids[j], ids[k])
      ensures ids[j] < ids[k]
    {
      var f := FirstAppearance(ids, j);
      assert FirstPair(ids, f, k, isServer);
    }
  }

  lemma RecordedIsFirst(ids: seq<nat>, isServer: bool, k: nat)
    requires k < |ids| && FirstAt(ids, k, ids[k]) && Recorded(ids, isServer, ids[k])
    ensures IsRecord(ids, k, isServer)
  {
    var m :| 0 <= m < |ids| && IsRecord(ids, m, isServer) && ids[m] == ids[k];
    assert SameKind(ids[k], ids[m]);
  }

  // Every remote stream that became readable is announced if and only if the remote streams
  // of each kind first appear in increasing order.
  lemma AllAnnouncedIffInOrder(ids: seq<nat>, isServer: bool)
    ensures AllRecorded(ids, isServer) <==> InOrder(ids, isServer)
  {
    if InOrder(ids, isServer) {
      forall k | 0 <= k < |ids| && !IsLocal(ids[k], isServer)
        ensures Recorded(ids, isServer, ids[k])
      {
        var f := FirstAppearance(ids, k);
        FirstInOrderIsRecord(ids, isServer, f);
      }
    }
    if AllRecorded(ids, isServer) {
      forall j, k | 0 <= j < k < |ids| && FirstPair(ids, j, k, isServer)
        ensures ids[j] < ids[k]
      {
        RecordedIsFirst(ids, isServer, k);
      }
    }
  }

  // In order, a stream is announced at its first appearance and at no other, so whatever
  // appears without being announced was announced before.
  lemma InOrderAcceptsFirst(ids: seq<nat>, isServer: bool, k: nat)
    requires InOrder(ids, isServer) && k < |ids| && !IsLocal(ids[k], isServer)
    ensures IsRecord(ids, k, isServer) <==> FirstAt(ids, k, ids[k])
    ensures !IsRecord(ids, k, isServer) ==> exists j :: 0 <= j < k && IsRecord(ids, j, isServer) && ids[j] == ids[k]
  {
    if FirstAt(ids, k, ids[k]) {
      FirstInOrderIsRecord(ids, isServer, k);
    } else {
      var f := FirstAppearance(ids, k);
      FirstInOrderIsRecord(ids, isServer, f);
    }
  }

  // Out of order a stream may never be announced: here stream 0 of a client.
  lemma LateStreamIsNeverAnnounced()
    ensures !IsLocal(0, true) && 0 in [4, 0] && !Recorded([4, 0], true, 0)
  {
    assert [4, 0][1] == 0;
    assert !IsRecord([4, 0], 1, true) by {
      assert [4, 0][0] == 4;
    }
  }
}
