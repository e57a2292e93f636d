// Exactly what the single operations on a connection do, in terms of the calls they make, the
// replies of the library and the events they raise.
module Replays {
  import opened Api
  import opened Readiness
  import opened QuicheLib
  import opened Conns
  import opened Releases

  // ---- Identifiers ----

  // The two low bits of a stream identifier (section 2.1 of RFC 9000).
  lemma StreamIdTable(id: nat, isServer: bool)
    ensures IsLocal(id, isServer) <==> (if isServer then id % 4 == 1 || id % 4 == 3 else id % 4 == 0 || id % 4 == 2)
    ensures IsBidi(id) <==> id % 4 == 0 || id % 4 == 1
    ensures StreamKindOf(id) == if id % 4 < 2 then Bidi else Uni
  {
  }

  // ---- Lock attempts ----

  // A lock attempt succeeds exactly on a free lock, or by a reader among readers. Every other
  // request but `Send` enters the ledger.
  lemma TryLockExactly(c: Conn, kind: LocKind)
    ensures var (c', granted) := TryLock(c, kind);
      && (granted <==> c.locker.Unlocked? || (c.locker.ReadLock? && kind.ReadLock?))
      && (granted ==> c' == c.(locker := kind, readLockCount := c.readLockCount + if kind.ReadLock? then 1 else 0))
      && (!granted ==>
            c' == c.(retries := c.retries + if kind.Send? || kind.Unlocked? then {} else {kind}))
  {
  }

  // ---- Closing a stream ----

  // Replies n on: the receiving side was stopped, or was finished already.
  predicate Stopped(q: Quiche) {
    q.replies(|q.calls|).flag || !q.replies(|q.calls| + 1).outcome.Failed?
  }

  function StopCalls(q: Quiche, id: nat, err: nat): seq<Call> {
    if q.replies(|q.calls|).flag then [FinishedCall(id)] else [FinishedCall(id), ShutdownReadCall(id, err)]
  }

  // The calls that close stream `id`, and whether all of them succeeded.
  ghost predicate ClosesStream(q: Quiche, q': Quiche, ok: bool, id: nat, err: nat) {
    var n, stop := |q.calls|, StopCalls(q, id, err);
    if id % 4 < 2 then
      if Stopped(q) then
        q'.calls == q.calls + stop + [SendFinCall(id)] && (ok <==> !q.replies(n + |stop|).outcome.Failed?)
      else q'.calls == q.calls + stop && !ok
    else if (id % 4 == 3) == q.isServer then
      q'.calls == q.calls + [SendFinCall(id)] && (ok <==> !q.replies(n).outcome.Failed?)
    else q'.calls == q.calls + stop && (ok <==> Stopped(q))
  }

  lemma CloseBothSidesExactly(q: Quiche, id: nat, err: nat)
    ensures var (q', ok) := CloseBothSides(q, id, err); ClosesStream(q, q', ok, id, err)
  {
    StreamIdTable(id, q.isServer);
  }

  // `stream_close` on a free lock closes the stream and returns Ok exactly if that succeeded.
  lemma StreamCloseExactly(c: Conn, id: nat, err: nat)
    ensures var (c', granted) := StreamCloseNow(c, id, err);
      && (granted <==> c.locker.Unlocked?)
      && (granted ==> c'.locker == StreamClose(id, err)
                      && ClosesStream(c.wrapped, c'.wrapped, CloseBothSides(c.wrapped, id, err).1, id, err))
      && (!granted ==> c' == c.(retries := c.retries + {StreamClose(id, err)}))
  {
    CloseBothSidesExactly(c.wrapped, id, err);
    hide CloseBothSides;
  }

  lemma CloseExactly(c: Conn, app: bool, err: nat, reason: seq<byte>)
    ensures var (c', granted) := CloseNow(c, app, err, reason);
      && (granted <==> c.locker.Unlocked?)
      && (granted ==> c'.locker == Close(app, err, reason)
                      && c'.wrapped.calls == c.wrapped.calls + [CloseCall(app, err, reason)])
      && (!granted ==> c' == c.(retries := c.retries + {Close(app, err, reason)}))
  {
  }

  // ---- Opening a stream ----

  function CreditOf(q: Quiche, kind: StreamKind): nat {
    match kind
    case Bidi => q.view.bidiLeft
    case Uni => q.view.uniLeft
  }

  function NextOf(c: Conn, kind: StreamKind): nat {
    match kind
    case Bidi => c.localBidiNext
    case Uni => c.localUniNext
  }

  function OtherKind(kind: StreamKind): StreamKind {
    if kind.Bidi? then Uni else Bidi
  }

  // `stream_open`: busy unless the lock is free; without credit the request enters the ledger;
  // with credit the next id is used up, and handed out exactly if the library agrees.
  lemma OpenExactly(c: Conn, kind: StreamKind, nonBlocking: bool)
    ensures var (c', reply) := OpenNow(c, kind, nonBlocking);
      var free, credit, next := c.locker.Unlocked?, CreditOf(c.wrapped, kind), NextOf(c, kind);
      var fine := c.wrapped.replies(|c.wrapped.calls|).outcome.Fine?;
      && (reply.OpenBusy? <==> !free)
      && (reply.OpenRetry? <==> free && credit == 0 && !nonBlocking)
      && (reply.OpenNone? <==> free && credit == 0 && nonBlocking)
      && (reply.OpenError? <==> free && credit > 0 && !fine)
      && (reply.OpenId? <==> free && credit > 0 && fine)
      && (reply.OpenId? ==> reply.id == next)
      && NextOf(c', OtherKind(kind)) == NextOf(c, OtherKind(kind))
      && (if free && credit > 0 then
            && NextOf(c', kind) == next + 4 && c'.retries == c.retries
            && c'.wrapped.calls == c.wrapped.calls + [PriorityCall(next)]
          else
            && NextOf(c', kind) == next && c'.retries == c.retries + {StreamOpen(kind)}
            && c'.wrapped == c.wrapped)
  {
  }

  // ---- Replaying one entry ----

  // The calls made for each kind of entry.
  lemma ReplayOneExactly(s: Site, k: LocKind)
    requires !k.Unlocked?
    ensures var q, q' := s.conn.wrapped, ReplayOne(s, k).conn.wrapped;
      && (k.Close? ==> q'.calls == q.calls + [CloseCall(k.app, k.err, k.reason)])
      && (k.StreamSend? ==> q'.calls == q.calls + [WritableCall(k.id, k.len)])
      && (k.StreamClose? ==> exists ok :: ClosesStream(q, q', ok, k.id, k.err))
      && (!MakesCalls(k) ==> q' == q)
  {
    if k.StreamClose? {
      CloseBothSidesExactly(s.conn.wrapped, k.id, k.err);
      hide CloseBothSides, ClosesStream;
      assert ClosesStream(s.conn.wrapped, CloseBothSides(s.conn.wrapped, k.id, k.err).0,
                          CloseBothSides(s.conn.wrapped, k.id, k.err).1, k.id, k.err);
    }
  }

  // ---- The calls of a release ----

  // Entries that a release replays by calls on the library.
  predicate MakesCalls(k: LocKind) {
    k.Close? || k.StreamClose? || k.StreamSend?
  }

  lemma ReplayOneCalls(s: Site, k: LocKind)
    requires !k.Unlocked?
    ensures |ReplayOne(s, k).conn.wrapped.calls| > |s.conn.wrapped.calls| <==> MakesCalls(k)
  {
  }

  lemma {:induction false} ReplayAllCalls(s: Site, order: seq<LocKind>)
    requires forall k :: k in order ==> !k.Unlocked?
    ensures |ReplayAll(s, order).conn.wrapped.calls| > |s.conn.wrapped.calls| <==>
      exists k :: k in order && MakesCalls(k)
  {
    if order != [] {
      var init, last := order[..|order| - 1], order[|order| - 1];
      ReplayAllCalls(s, init);
      ReplayAllLater(s, init);
      ReplayOneCalls(ReplayAll(s, init), last);
      ReplayOneLater(ReplayAll(s, init), last);
      assert order == init + [last];
    }
  }

  lemma {:induction false} DrainWritableCalls(s: Site)
    ensures DrainWritable(s).conn.wrapped.calls == s.conn.wrapped.calls
    decreases |s.conn.wrapped.view.writable|
  {
    var q := s.conn.wrapped;
    if q.view.writable != [] {
      DrainWritableCalls(Announce(WithQuiche(s, q.PopWritable()), EventKind.StreamSend, false, q.view.writable[0]));
    }
  }

  lemma {:induction false} DrainReadableCalls(s: Site)
    ensures DrainReadable(s).conn.wrapped.calls == s.conn.wrapped.calls
    decreases |s.conn.wrapped.view.readable|
  {
    var q := s.conn.wrapped;
    if q.view.readable != [] {
      HandleReadableLater(s);
      DrainReadableCalls(HandleReadable(WithQuiche(s, q.PopReadable()), q.view.readable[0]));
    }
  }

  // A release makes calls on the library exactly if the ledger holds an entry that needs one.
  lemma UnlockCalls(s: Site, sendDone: bool, order: seq<LocKind>, now: Time)
    requires forall k :: k in order ==> !k.Unlocked?
    requires s.conn.locker.ReadLock? ==> s.conn.readLockCount > 0
    ensures |Unlock(s, sendDone, order, now).conn.wrapped.calls| > |s.conn.wrapped.calls| <==>
      exists k :: k in order && MakesCalls(k)
  {
    var s0 := Site(Leave(s.conn), s.ready);
    var s1 := ReplayAll(s0, order);
    ReplayAllCalls(s0, order);
    DrainWritableCalls(s1);
    DrainReadableCalls(DrainWritable(s1));
  }

  // ---- The events of a release ----

  // A release in three parts: the ledger, the stream queues, the rest.
  lemma UnlockParts(s: Site, sendDone: bool, order: seq<LocKind>, now: Time, e: Event)
    requires forall k :: k in order ==> !k.Unlocked?
    requires s.conn.locker.ReadLock? ==> s.conn.readLockCount > 0
    requires e.kind.Recv? || e.kind.StreamOpenBidi? || e.kind.StreamOpenUni? || e.kind.ReadLock?
             || (e.isError && (e.kind.StreamSend? || e.kind.Closed?))
    ensures var s1 := ReplayAll(Site(Leave(s.conn), s.ready), order);
      var s' := Unlock(s, sendDone, order, now);
      && (e in s'.ready.events <==> e in s1.ready.events)
      && s'.conn.wrapped.calls == s1.conn.wrapped.calls && s'.conn.wrapped.replies == s1.conn.wrapped.replies
      && s'.conn.retries == s1.conn.retries
      && s'.conn.wrapped.view.uniLeft == s1.conn.wrapped.view.uniLeft
      && s'.conn.wrapped.view.bidiLeft == s1.conn.wrapped.view.bidiLeft
  {
    var s1 := ReplayAll(Site(Leave(s.conn), s.ready), order);
    var s2 := DrainWritable(s1);
    DrainWritableLater(s1);
    DrainWritableCalls(s1);
    DrainWritableSilent(s1, e);
    DrainReadableLater(s2);
    DrainReadableEmpties(s2);
    DrainReadableCalls(s2);
    DrainReadableSilent(s2, e);
    FinishSilent(DrainReadable(s2), sendDone, now, e);
    hide ReplayAll, DrainWritable, DrainReadable, HandleSend, HandleEstablished, HandleClosed;
  }

  lemma {:induction false} DrainWritableSilent(s: Site, e: Event)
    requires e.isError || !e.kind.StreamSend?
    ensures e in DrainWritable(s).ready.events <==> e in s.ready.events
    decreases |s.conn.wrapped.view.writable|
  {
    var q := s.conn.wrapped;
    if q.view.writable != [] {
      DrainWritableSilent(Announce(WithQuiche(s, q.PopWritable()), EventKind.StreamSend, false, q.view.writable[0]), e);
    }
  }

  lemma {:induction false} DrainReadableSilent(s: Site, e: Event)
    requires !e.kind.StreamAccept? && !e.kind.StreamRecv?
    ensures e in DrainReadable(s).ready.events <==> e in s.ready.events
    decreases |s.conn.wrapped.view.readable|
  {
    var q := s.conn.wrapped;
    if q.view.readable != [] {
      HandleReadableLater(s);
      DrainReadableSilent(HandleReadable(WithQuiche(s, q.PopReadable()), q.view.readable[0]), e);
    }
  }

  lemma FinishSilent(s: Site, sendDone: bool, now: Time, e: Event)
    requires !e.kind.Send? && !e.kind.Connected? && !e.kind.Accept? && (e.kind.Closed? ==> e.isError)
    ensures var s' := HandleClosed(HandleEstablished(HandleSend(s, sendDone, now)));
      && (e in s'.ready.events <==> e in s.ready.events)
      && s'.conn.wrapped == s.conn.wrapped && s'.conn.retries == s.conn.retries
  {
  }

  // ---- Stream opens in the ledger ----

  function OpenedEvent(c: Conn, kind: StreamKind): Event {
    match kind
    case Bidi => Event(c.token, EventKind.StreamOpenBidi, c.wrapped.isServer, false, 0)
    case Uni => Event(c.token, EventKind.StreamOpenUni, c.wrapped.isServer, false, 0)
  }

  lemma ReplayOneOpens(s: Site, k: LocKind, kind: StreamKind)
    requires !k.Unlocked?
    ensures var s', e := ReplayOne(s, k), OpenedEvent(s.conn, kind);
      && (e in s'.ready.events <==> e in s.ready.events || (k == StreamOpen(kind) && CreditOf(s.conn.wrapped, kind) > 0))
      && (StreamOpen(kind) in s'.conn.retries <==>
            StreamOpen(kind) in s.conn.retries || (k == StreamOpen(kind) && CreditOf(s.conn.wrapped, kind) == 0))
  {
  }

  lemma {:induction false} ReplayAllOpens(s: Site, order: seq<LocKind>, kind: StreamKind)
    requires forall k :: k in order ==> !k.Unlocked?
    ensures var s', e := ReplayAll(s, order), OpenedEvent(s.conn, kind);
      && CreditOf(s'.conn.wrapped, kind) <= CreditOf(s.conn.wrapped, kind)
      && (e in s'.ready.events && e !in s.ready.events ==>
            StreamOpen(kind) in order && CreditOf(s.conn.wrapped, kind) > 0)
      && (StreamOpen(kind) in s'.conn.retries && StreamOpen(kind) !in s.conn.retries ==> StreamOpen(kind) in order)
      && (StreamOpen(kind) in order ==> e in s'.ready.events || StreamOpen(kind) in s'.conn.retries)
      && (StreamOpen(kind) in order && CreditOf(s.conn.wrapped, kind) == 0 ==> StreamOpen(kind) in s'.conn.retries)
      && (StreamOpen(kind) in order && CreditOf(s'.conn.wrapped, kind) > 0 ==> e in s'.ready.events)
  {
    if order != [] {
      var init, last := order[..|order| - 1], order[|order| - 1];
      ReplayAllOpens(s, init, kind);
      ReplayAllLater(s, init);
      ReplayOneOpens(ReplayAll(s, init), last, kind);
      ReplayOneLater(ReplayAll(s, init), last);
      assert order == init + [last];
      hide ReplayOne;
    }
  }

  // A release tells an opener exactly what it found: a new event of a kind means that an opener
  // of that kind was waiting and that there was credit; an opener waiting without credit stays in
  // the ledger, and no event is raised for it; one waiting while credit is left is answered.
  lemma UnlockOpens(s: Site, sendDone: bool, order: seq<LocKind>, now: Time, kind: StreamKind)
    requires forall k :: k in order ==> !k.Unlocked?
    requires s.conn.locker.ReadLock? ==> s.conn.readLockCount > 0
    ensures var s' := Unlock(s, sendDone, order, now);
      var e, waiting := OpenedEvent(s.conn, kind), StreamOpen(kind) in order;
      var before, after := CreditOf(s.conn.wrapped, kind), CreditOf(s'.conn.wrapped, kind);
      && (e in s'.ready.events && e !in s.ready.events ==> waiting && before > 0)
      && (waiting && before == 0 ==>
            StreamOpen(kind) in s'.conn.retries && (e in s'.ready.events <==> e in s.ready.events))
      && (waiting && after > 0 ==> e in s'.ready.events)
      && (StreamOpen(kind) in s'.conn.retries ==> waiting && after == 0)
  {
    var s0 := Site(Leave(s.conn), s.ready);
    ReplayAllOpens(s0, order, kind);
    UnlockParts(s, sendDone, order, now, OpenedEvent(s.conn, kind));
    FlushLater(s, order);
    ReplayAllLater(s0, order);
    ReplayAllLeavesStarvedOpens(s0, order);
    hide Unlock, ReplayAll, Flush;
  }

  // ---- Receivers and readers in the ledger ----

  lemma {:induction false} ReplayAllReports(s: Site, order: seq<LocKind>)
    requires forall k :: k in order ==> !k.Unlocked?
    ensures var s' := ReplayAll(s, order);
      var recv := Event(s.conn.token, EventKind.Recv, s.conn.wrapped.isServer, false, 0);
      var read := Event(s.conn.token, EventKind.ReadLock, s.conn.wrapped.isServer, false, 0);
      && (recv in s'.ready.events <==> recv in s.ready.events || LocKind.Recv in order)
      && (read in s'.ready.events <==> read in s.ready.events || LocKind.ReadLock in order)
  {
    if order != [] {
      var init, last := order[..|order| - 1], order[|order| - 1];
      ReplayAllReports(s, init);
      ReplayAllLater(s, init);
      ReplayOneReports(ReplayAll(s, init), last);
      assert order == init + [last];
      hide ReplayOne;
    }
  }

  lemma ReplayOneReports(s: Site, k: LocKind)
    requires !k.Unlocked?
    ensures var s' := ReplayOne(s, k);
      var recv := Event(s.conn.token, EventKind.Recv, s.conn.wrapped.isServer, false, 0);
      var read := Event(s.conn.token, EventKind.ReadLock, s.conn.wrapped.isServer, false, 0);
      && (recv in s'.ready.events <==> recv in s.ready.events || k.Recv?)
      && (read in s'.ready.events <==> read in s.ready.events || k.ReadLock?)
  {
  }

  // `Recv` and `ReadLock` are raised exactly for the refused requests of these kinds.
  lemma UnlockReports(s: Site, sendDone: bool, order: seq<LocKind>, now: Time)
    requires forall k :: k in order ==> !k.Unlocked?
    requires s.conn.locker.ReadLock? ==> s.conn.readLockCount > 0
    ensures var s' := Unlock(s, sendDone, order, now);
      var recv := Event(s.conn.token, EventKind.Recv, s.conn.wrapped.isServer, false, 0);
      var read := Event(s.conn.token, EventKind.ReadLock, s.conn.wrapped.isServer, false, 0);
      && (recv in s'.ready.events <==> recv in s.ready.events || LocKind.Recv in order)
      && (read in s'.ready.events <==> read in s.ready.events || LocKind.ReadLock in order)
  {
    ReplayAllReports(Site(Leave(s.conn), s.ready), order);
    UnlockParts(s, sendDone, order, now, Event(s.conn.token, EventKind.Recv, s.conn.wrapped.isServer, false, 0));
    UnlockParts(s, sendDone, order, now, Event(s.conn.token, EventKind.ReadLock, s.conn.wrapped.isServer, false, 0));
    hide Unlock, ReplayAll;
  }

  // ---- Answers of the library ----

  // Call number i asked whether stream `id` is writable, and was answered by a failure, or by yes.
  ghost predicate SendAnswered(q: Quiche, i: nat, id: nat, isError: bool) {
    && i < |q.calls| && q.calls[i].WritableCall? && q.calls[i].id == id
    && (if isError then !q.replies(i).outcome.Fine? else q.replies(i).outcome.Fine? && q.replies(i).flag)
  }

  ghost predicate SendAnsweredSince(q: Quiche, from: nat, id: nat, isError: bool) {
    exists i :: from <= i && SendAnswered(q, i, id, isError)
  }

  ghost predicate CloseFailed(q: Quiche, i: nat) {
    i < |q.calls| && q.calls[i].CloseCall? && q.replies(i).outcome.Failed?
  }

  ghost predicate CloseFailedSince(q: Quiche, from: nat) {
    exists i :: from <= i && CloseFailed(q, i)
  }

  // The calls of one replayed entry ask and close only as the entry says.
  lemma ReplayOneAnswers(s: Site, k: LocKind, id: nat, isError: bool)
    requires !k.Unlocked?
    ensures var s' := ReplayOne(s, k);
      var q, q' := s.conn.wrapped, s'.conn.wrapped;
      var send := Event(s.conn.token, EventKind.StreamSend, q.isServer, isError, id);
      var closed := Event(s.conn.token, EventKind.Closed, q.isServer, true, 0);
      && (send in s'.ready.events <==> send in s.ready.events || SendAnsweredSince(q', |q.calls|, id, isError))
      && (closed in s'.ready.events <==> closed in s.ready.events || CloseFailedSince(q', |q.calls|))
  {
    var q, q' := s.conn.wrapped, ReplayOne(s, k).conn.wrapped;
    var n := |q.calls|;
    ReplayOneExactly(s, k);
    ReplayOneLater(s, k);
    if k.StreamSend? {
      var reply := q.replies(n);
      var told := if isError then !reply.outcome.Fine? else reply.outcome.Fine? && reply.flag;
      assert SendAnswered(q', n, id, isError) <==> k.id == id && told;
    } else if k.Close? {
      assert CloseFailed(q', n) <==> q.replies(n).outcome.Failed?;
    } else if k.StreamClose? {
      forall i | n <= i < |q'.calls|
        ensures !q'.calls[i].WritableCall? && !q'.calls[i].CloseCall?
      {
      }
    }
    hide CloseBothSides;
  }

  lemma SameAnswers(q: Quiche, q': Quiche, from: nat, id: nat, isError: bool)
    requires q'.calls == q.calls && q'.replies == q.replies
    ensures SendAnsweredSince(q', from, id, isError) <==> SendAnsweredSince(q, from, id, isError)
    ensures CloseFailedSince(q', from) <==> CloseFailedSince(q, from)
  {
    assert forall i :: SendAnswered(q', i, id, isError) <==> SendAnswered(q, i, id, isError);
    assert forall i :: CloseFailed(q', i) <==> CloseFailed(q, i);
  }

  lemma AnswersExtend(q: Quiche, q': Quiche, from: nat, id: nat, isError: bool)
    requires Continues(q, q') && from <= |q.calls|
    ensures SendAnsweredSince(q', from, id, isError) <==>
      SendAnsweredSince(q, from, id, isError) || SendAnsweredSince(q', |q.calls|, id, isError)
    ensures CloseFailedSince(q', from) <==> CloseFailedSince(q, from) || CloseFailedSince(q', |q.calls|)
  {
    if i :| from <= i && SendAnswered(q, i, id, isError) {
      assert SendAnswered(q', i, id, isError);
    }
    if i :| from <= i && CloseFailed(q, i) {
      assert CloseFailed(q', i);
    }
    if i :| from <= i && SendAnswered(q', i, id, isError) {
      assert i < |q.calls| ==> SendAnswered(q, i, id, isError);
    }
    if i :| from <= i && CloseFailed(q', i) {
      assert i < |q.calls| ==> CloseFailed(q, i);
    }
  }

  lemma {:induction false} ReplayAllAnswers(s: Site, order: seq<LocKind>, id: nat, isError: bool)
    requires forall k :: k in order ==> !k.Unlocked?
    ensures var s' := ReplayAll(s, order);
      var q, q' := s.conn.wrapped, s'.conn.wrapped;
      var send := Event(s.conn.token, EventKind.StreamSend, q.isServer, isError, id);
      var closed := Event(s.conn.token, EventKind.Closed, q.isServer, true, 0);
      && (send in s'.ready.events <==> send in s.ready.events || SendAnsweredSince(q', |q.calls|, id, isError))
      && (closed in s'.ready.events <==> closed in s.ready.events || CloseFailedSince(q', |q.calls|))
  {
    if order != [] {
      var init, last := order[..|order| - 1], order[|order| - 1];
      var s1 := ReplayAll(s, init);
      ReplayAllAnswers(s, init, id, isError);
      ReplayAllLater(s, init);
      ReplayOneAnswers(s1, last, id, isError);
      ReplayOneLater(s1, last);
      AnswersExtend(s1.conn.wrapped, ReplayOne(s1, last).conn.wrapped, |s.conn.wrapped.calls|, id, isError);
      hide ReplayOne;
    }
  }

  // A release reports what the library answered to the requests it replays: a failure to tell
  // whether a stream is writable, and a failed close, exactly when there was one.
  lemma UnlockReportsFailures(s: Site, sendDone: bool, order: seq<LocKind>, now: Time, id: nat)
    requires forall k :: k in order ==> !k.Unlocked?
    requires s.conn.locker.ReadLock? ==> s.conn.readLockCount > 0
    ensures var s' := Unlock(s, sendDone, order, now);
      var q, q' := s.conn.wrapped, s'.conn.wrapped;
      var send := Event(s.conn.token, EventKind.StreamSend, q.isServer, true, id);
      var closed := Event(s.conn.token, EventKind.Closed, q.isServer, true, 0);
      && (send in s'.ready.events <==> send in s.ready.events || SendAnsweredSince(q', |q.calls|, id, true))
      && (closed in s'.ready.events <==> closed in s.ready.events || CloseFailedSince(q', |q.calls|))
  {
    var q := s.conn.wrapped;
    ReplayAllAnswers(Site(Leave(s.conn), s.ready), order, id, true);
    UnlockParts(s, sendDone, order, now, Event(s.conn.token, EventKind.StreamSend, q.isServer, true, id));
    UnlockParts(s, sendDone, order, now, Event(s.conn.token, EventKind.Closed, q.isServer, true, 0));
    SameAnswers(ReplayAll(Site(Leave(s.conn), s.ready), order).conn.wrapped,
                Unlock(s, sendDone, order, now).conn.wrapped, |q.calls|, id, true);
    hide Unlock, ReplayAll;
  }
}
