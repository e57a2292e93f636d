// The connection wrapper: a try-lock, a ledger of operations that found it busy, and the
// readiness events raised on release.
module Conns {
  import opened Api
  import opened Readiness
  import opened QuicheLib

  // Unlocked is the original's `LocKind::None`.
  datatype LocKind =
    | Unlocked
    | Send
    | Recv
    | Close(app: bool, err: nat, reason: seq<byte>)
    | StreamOpen(kind: StreamKind)
    | StreamSend(id: nat, len: nat)
    | StreamRecv(id: nat)
    | StreamClose(id: nat, err: nat)
    | ReadLock

  predicate NeedRetry(k: LocKind) {
    !(k.Send? || k.Unlocked?)
  }

  datatype LockContext = LockContext(token: Token, lockCount: nat, sendDone: bool)

  datatype Conn = Conn(
    token: Token,
    localBidiNext: nat,
    remoteBidiSeen: Option<nat>,
    localUniNext: nat,
    remoteUniSeen: Option<nat>,
    locker: LocKind,
    retries: set<LocKind>,
    lockCount: nat,
    readLockCount: nat,
    established: bool,
    wrapped: Quiche)

  function NewConn(token: Token, wrapped: Quiche): Conn {
    Conn(token, if wrapped.isServer then 1 else 0, None, if wrapped.isServer then 3 else 2, None,
         Unlocked, {}, 0, 0, wrapped.view.established, wrapped.(drained := []))
  }

  function Context(c: Conn): LockContext {
    LockContext(c.token, c.lockCount, false)
  }

  // Grants the lock, or refuses it and notes the request in the ledger.
  function TryLock(c: Conn, kind: LocKind): (Conn, bool) {
    if c.locker.Unlocked? then
      (c.(locker := kind, readLockCount := if kind.ReadLock? then c.readLockCount + 1 else c.readLockCount), true)
    else if c.locker.ReadLock? && kind.ReadLock? then
      (c.(readLockCount := c.readLockCount + 1), true)
    else
      (c.(retries := if NeedRetry(kind) then c.retries + {kind} else c.retries), false)
  }

  // A connection together with the readiness queue its events go to.
  datatype Site = Site(conn: Conn, ready: Ready)

  function EventOf(c: Conn, kind: EventKind, isError: bool, streamId: nat): Event {
    Event(c.token, kind, c.wrapped.isServer, isError, streamId)
  }

  function Announce(s: Site, kind: EventKind, isError: bool, streamId: nat): Site {
    s.(ready := s.ready.Insert(EventOf(s.conn, kind, isError, streamId), Option.None))
  }

  function WithQuiche(s: Site, q: Quiche): Site {
    s.(conn := s.conn.(wrapped := q))
  }

  // Stop receiving, unless the stream is finished already.
  function StopReceiving(q: Quiche, id: nat, err: nat): (Quiche, bool) {
    var finished, q1 := q.Flag(), q.Invoke(FinishedCall(id));
    if finished then (q1, true)
    else (q1.Invoke(ShutdownReadCall(id, err)), !q1.Outcome().Failed?)
  }

  function FinishSending(q: Quiche, id: nat): (Quiche, bool) {
    (q.Invoke(SendFinCall(id)), !q.Outcome().Failed?)
  }

  function CloseBothSides(q: Quiche, id: nat, err: nat): (Quiche, bool) {
    if IsBidi(id) then
      var (q1, ok) := StopReceiving(q, id, err);
      if ok then FinishSending(q1, id) else (q1, false)
    else if IsLocal(id, q.isServer) then FinishSending(q, id)
    else StopReceiving(q, id, err)
  }

  datatype OpenResult = Opened(id: nat) | NoCredit | OpenFailed

  function OpenOn(c: Conn, kind: StreamKind): (Conn, OpenResult) {
    if c.wrapped.StreamsLeft(kind) == 0 then (c, NoCredit)
    else
      var id := if kind.Uni? then c.localUniNext else c.localBidiNext;
      var c1 := if kind.Uni? then c.(localUniNext := id + 4) else c.(localBidiNext := id + 4);
      var outcome := c.wrapped.Outcome();
      (c1.(wrapped := c.wrapped.Invoke(PriorityCall(id))), if outcome.Fine? then Opened(id) else OpenFailed)
  }

  function OpenEvent(kind: StreamKind): EventKind {
    if kind.Uni? then EventKind.StreamOpenUni else EventKind.StreamOpenBidi
  }

  // What a release does with one entry of the ledger.
  function ReplayOne(s: Site, k: LocKind): Site
    requires !k.Unlocked?
  {
    var q := s.conn.wrapped;
    match k
    case Send => s
    case Recv => Announce(s, EventKind.Recv, false, 0)
    case Close(app, err, reason) =>
      var s1 := WithQuiche(s, q.Invoke(CloseCall(app, err, reason)));
      if q.Outcome().Failed? then Announce(s1, EventKind.Closed, true, 0) else s1
    case StreamOpen(kind) =>
      if q.StreamsLeft(kind) > 0 then Announce(s, OpenEvent(kind), false, 0)
      else s.(conn := s.conn.(retries := s.conn.retries + {k}))
    case StreamSend(id, len) =>
      var s1 := WithQuiche(s, q.Invoke(WritableCall(id, len)));
      if !q.Outcome().Fine? then Announce(s1, EventKind.StreamSend, true, id)
      else if q.Flag() then Announce(s1, EventKind.StreamSend, false, id)
      else s1
    case StreamRecv(id) => Announce(s, EventKind.StreamRecv, false, id)
    case StreamClose(id, err) => WithQuiche(s, CloseBothSides(q, id, err).0)
    case ReadLock => Announce(s, EventKind.ReadLock, false, 0)
  }

  function ReplayAll(s: Site, order: seq<LocKind>): Site
    requires forall k :: k in order ==> !k.Unlocked?
  {
    if order == [] then s
    else ReplayOne(ReplayAll(s, order[..|order| - 1]), order[|order| - 1])
  }

  function DrainWritable(s: Site): Site
    decreases |s.conn.wrapped.view.writable|
  {
    var q := s.conn.wrapped;
    if q.view.writable == [] then s
    else DrainWritable(Announce(WithQuiche(s, q.PopWritable()), EventKind.StreamSend, false, q.view.writable[0]))
  }

  function Seen(c: Conn, id: nat): Option<nat> {
    if IsBidi(id) then c.remoteBidiSeen else c.remoteUniSeen
  }

  function SetSeen(c: Conn, id: nat): Conn {
    if IsBidi(id) then c.(remoteBidiSeen := Some(id)) else c.(remoteUniSeen := Some(id))
  }

  function HandleAccept(s: Site, id: nat): Site {
    match Seen(s.conn, id)
    case Some(seen) =>
      if id > seen then
        var s1 := Announce(s, EventKind.StreamAccept, false, id);
        s1.(conn := SetSeen(s1.conn, id))
      else Announce(s, EventKind.StreamRecv, false, id)
    case None =>
      var s1 := Announce(s, EventKind.StreamAccept, false, id);
      s1.(conn := SetSeen(s1.conn, id))
  }

  function HandleReadable(s: Site, id: nat): Site {
    if IsLocal(id, s.conn.wrapped.isServer) then Announce(s, EventKind.StreamRecv, false, id)
    else HandleAccept(s, id)
  }

  function DrainReadable(s: Site): Site
    decreases |s.conn.wrapped.view.readable|
  {
    var q := s.conn.wrapped;
    if q.view.readable == [] then s
    else
      var s1 := HandleReadable(WithQuiche(s, q.PopReadable()), q.view.readable[0]);
      assert s1.conn.wrapped == q.PopReadable();
      DrainReadable(s1)
  }

  function SendEvent(c: Conn): Event {
    EventOf(c, EventKind.Send, false, 0)
  }

  function HandleSend(s: Site, sendDone: bool, now: Time): Site {
    var delayTo := DelaySend(s.conn.wrapped, now, sendDone);
    if sendDone && delayTo.None? then s.(ready := s.ready.Remove(SendEvent(s.conn)))
    else s.(ready := s.ready.Insert(SendEvent(s.conn), delayTo))
  }

  function HandleEstablished(s: Site): Site {
    if !s.conn.established && s.conn.wrapped.view.established then
      var s1 := s.(conn := s.conn.(established := true));
      Announce(s1, if s.conn.wrapped.isServer then EventKind.Accept else EventKind.Connected, false, 0)
    else s
  }

  function HandleClosed(s: Site): Site {
    if s.conn.wrapped.view.closed then Announce(s, EventKind.Closed, false, 0) else s
  }

  // The lock word after one holder has left; the ledger is drained in the same step.
  function Leave(c: Conn): Conn
    requires c.locker.ReadLock? ==> c.readLockCount > 0
  {
    if c.locker.ReadLock? then
      if c.readLockCount == 1 then
        c.(readLockCount := 0, lockCount := c.lockCount + 1, locker := Unlocked, retries := {})
      else c.(readLockCount := c.readLockCount - 1, retries := {})
    else c.(lockCount := c.lockCount + 1, locker := Unlocked, retries := {})
  }

  // `order` lists the ledger in the order in which the hash set yields it.
  ghost predicate DrainOrder(order: seq<LocKind>, retries: set<LocKind>) {
    NoDuplicates(order) && Elements(order) == retries && forall k :: k in order ==> !k.Unlocked?
  }

  // The ledger replayed and the stream queues drained.
  function Flush(s: Site, order: seq<LocKind>): Site
    requires forall k :: k in order ==> !k.Unlocked?
    requires s.conn.locker.ReadLock? ==> s.conn.readLockCount > 0
  {
    DrainReadable(DrainWritable(ReplayAll(Site(Leave(s.conn), s.ready), order)))
  }

  function Unlock(s: Site, sendDone: bool, order: seq<LocKind>, now: Time): Site
    requires forall k :: k in order ==> !k.Unlocked?
    requires s.conn.locker.ReadLock? ==> s.conn.readLockCount > 0
  {
    HandleClosed(HandleEstablished(HandleSend(Flush(s, order), sendDone, now)))
  }

  // `close` up to its release of the lock: carried out at once if the lock is free, else
  // noted in the ledger.
  function CloseNow(c: Conn, app: bool, err: nat, reason: seq<byte>): (Conn, bool) {
    var (c1, granted) := TryLock(c, Close(app, err, reason));
    if !granted then (c1, false)
    else (c1.(wrapped := c1.wrapped.Invoke(CloseCall(app, err, reason))), true)
  }

  function StreamCloseNow(c: Conn, id: nat, err: nat): (Conn, bool) {
    var (c1, granted) := TryLock(c, StreamClose(id, err));
    if !granted then (c1, false)
    else (c1.(wrapped := CloseBothSides(c1.wrapped, id, err).0), true)
  }

  datatype OpenReply = OpenBusy | OpenRetry | OpenNone | OpenId(id: nat) | OpenError

  // `stream_open` up to its release of the lock: without credit the request enters the ledger.
  function OpenNow(c: Conn, kind: StreamKind, nonBlocking: bool): (Conn, OpenReply) {
    var (c1, granted) := TryLock(c, StreamOpen(kind));
    if !granted then (c1, OpenBusy) else
    var (c2, result) := OpenOn(c1, kind);
    match result
    case NoCredit =>
      (c2.(retries := c2.retries + {StreamOpen(kind)}), if nonBlocking then OpenNone else OpenRetry)
    case Opened(id) => (c2, OpenId(id))
    case OpenFailed => (c2, OpenError)
  }

  // The wrapper object.
  class QuicConn {
    const token: Token
    var localBidiNext: nat
    var remoteBidiSeen: Option<nat>
    var localUniNext: nat
    var remoteUniSeen: Option<nat>
    var locker: LocKind
    var retries: set<LocKind>
    var lockCount: nat
    var readLockCount: nat
    var established: bool
    var wrapped: Quiche

    ghost function State(): Conn
      reads this
    {
      Conn(token, localBidiNext, remoteBidiSeen, localUniNext, remoteUniSeen, locker, retries,
           lockCount, readLockCount, established, wrapped)
    }

    // Only operations that need a retry are in the ledger, so the `unreachable!` arm is dead.
    ghost predicate Valid()
      reads this
    {
      && (forall k :: k in retries ==> NeedRetry(k))
      && (locker.ReadLock? <==> readLockCount > 0)
    }

    constructor (token: Token, wrapped: Quiche)
      ensures Valid() && State() == NewConn(token, wrapped)
    {
      this.token := token;
      localBidiNext := if wrapped.isServer then 1 else 0;
      remoteBidiSeen := Option.None;
      localUniNext := if wrapped.isServer then 3 else 2;
      remoteUniSeen := Option.None;
      locker, retries, lockCount, readLockCount := Unlocked, {}, 0, 0;
      established := wrapped.view.established;
      this.wrapped := wrapped.(drained := []);
    }

    method TryLockPrv(kind: LocKind) returns (context: Option<LockContext>)
      requires Valid()
      modifies this`locker, this`retries, this`readLockCount
      ensures Valid() && State() == TryLock(old(State()), kind).0
      ensures context == if TryLock(old(State()), kind).1 then Some(Context(State())) else Option.None
    {
      if locker.Unlocked? {
        if kind == LocKind.ReadLock {
          assert readLockCount == 0;
          readLockCount := readLockCount + 1;
        }
        locker := kind;
      } else if locker.ReadLock? && kind == LocKind.ReadLock {
        assert readLockCount > 0;
        readLockCount := readLockCount + 1;
      } else {
        if NeedRetry(kind) {
          retries := retries + {kind};
        }
        return Option.None;
      }
      return Some(LockContext(token, lockCount, false));
    }

    method Raise(queue: Queue, kind: EventKind, isError: bool, streamId: nat)
      modifies queue
      ensures queue.State() == Announce(Site(State(), old(queue.State())), kind, isError, streamId).ready
    {
      queue.Insert(Event(token, kind, wrapped.isServer, isError, streamId), Option.None);
    }

    method StopReceive(id: nat, err: nat) returns (ok: bool)
      modifies this`wrapped
      ensures (wrapped, ok) == StopReceiving(old(wrapped), id, err)
    {
      var finished := wrapped.Flag();
      wrapped := wrapped.Invoke(FinishedCall(id));
      if !finished {
        var outcome := wrapped.Outcome();
        wrapped := wrapped.Invoke(ShutdownReadCall(id, err));
        if outcome.Failed? {
          return false;
        }
      }
      return true;
    }

    method FinishSend(id: nat) returns (ok: bool)
      modifies this`wrapped
      ensures (wrapped, ok) == FinishSending(old(wrapped), id)
    {
      var outcome := wrapped.Outcome();
      wrapped := wrapped.Invoke(SendFinCall(id));
      return !outcome.Failed?;
    }

    method StreamClosePrv(id: nat, err: nat) returns (ok: bool)
      modifies this`wrapped
      ensures (wrapped, ok) == CloseBothSides(old(wrapped), id, err)
    {
      if IsBidi(id) {
        ok := StopReceive(id, err);
        if !ok {
          return;
        }
        ok := FinishSend(id);
      } else if IsLocal(id, wrapped.isServer) {
        ok := FinishSend(id);
      } else {
        ok := StopReceive(id, err);
      }
    }

    method StreamOpenPrv(kind: StreamKind) returns (r: OpenResult)
      modifies this`wrapped, this`localUniNext, this`localBidiNext
      ensures (State(), r) == OpenOn(old(State()), kind)
    {
      var id;
      match kind {
        case Uni =>
          if wrapped.view.uniLeft == 0 {
            return NoCredit;
          }
          id := localUniNext;
          localUniNext := localUniNext + 4;
        case Bidi =>
          if wrapped.view.bidiLeft == 0 {
            return NoCredit;
          }
          id := localBidiNext;
          localBidiNext := localBidiNext + 4;
      }
      var outcome := wrapped.Outcome();
      wrapped := wrapped.Invoke(PriorityCall(id));
      return if outcome.Fine? then Opened(id) else OpenFailed;
    }

    method ReplayEntry(k: LocKind, queue: Queue)
      requires NeedRetry(k)
      modifies this`wrapped, this`retries, queue
      ensures Site(State(), queue.State()) == ReplayOne(Site(old(State()), old(queue.State())), k)
    {
      match k {
        case Send =>
        case Recv =>
          Raise(queue, EventKind.Recv, false, 0);
        case Close(app, err, reason) =>
          var outcome := wrapped.Outcome();
          wrapped := wrapped.Invoke(CloseCall(app, err, reason));
          if outcome.Failed? {
            Raise(queue, EventKind.Closed, true, 0);
          }
        case StreamOpen(kind) =>
          match kind {
            case Uni =>
              if wrapped.view.uniLeft > 0 {
                Raise(queue, EventKind.StreamOpenUni, false, 0);
              } else {
                retries := retries + {k};
              }
            case Bidi =>
              if wrapped.view.bidiLeft > 0 {
                Raise(queue, EventKind.StreamOpenBidi, false, 0);
              } else {
                retries := retries + {k};
              }
          }
        case StreamSend(id, len) =>
          var outcome, writable := wrapped.Outcome(), wrapped.Flag();
          wrapped := wrapped.Invoke(WritableCall(id, len));
          if outcome.Fine? {
            if writable {
              Raise(queue, EventKind.StreamSend, false, id);
            }
          } else {
            Raise(queue, EventKind.StreamSend, true, id);
          }
        case StreamRecv(id) =>
          Raise(queue, EventKind.StreamRecv, false, id);
        case StreamClose(id, err) =>
          var _ := StreamClosePrv(id, err);
        case ReadLock =>
          Raise(queue, EventKind.ReadLock, false, 0);
        case Unlocked =>
          assert false;
      }
    }

    method DrainRetries() returns (order: seq<LocKind>)
      requires forall k :: k in retries ==> NeedRetry(k)
      modifies this`retries
      ensures retries == {} && DrainOrder(order, old(retries))
      ensures forall k :: k in order ==> NeedRetry(k)
    {
      order := [];
      while retries != {}
        invariant Elements(order) !! retries && Elements(order) + retries == old(retries)
        invariant NoDuplicates(order)
        decreases |retries|
      {
        var k :| k in retries;
        retries := retries - {k};
        AppendNew(order, k);
        order := order + [k];
      }
      assert forall k :: k in order ==> k in Elements(order);
    }

    method HandleRetryEvents(queue: Queue) returns (ghost order: seq<LocKind>)
      requires forall k :: k in retries ==> NeedRetry(k)
      modifies this`wrapped, this`retries, queue
      ensures DrainOrder(order, old(retries))
      ensures Site(State(), queue.State())
           == ReplayAll(Site(old(State()).(retries := {}), old(queue.State())), order)
    {
      var drained := DrainRetries();
      order := drained;
      ghost var start := Site(State(), queue.State());
      for i := 0 to |drained|
        invariant Site(State(), queue.State()) == ReplayAll(start, drained[..i])
      {
        assert drained[..i + 1][..i] == drained[..i];
        ReplayEntry(drained[i], queue);
      }
      assert drained[..|drained|] == drained;
    }

    method HandleStreamStateChanged(queue: Queue)
      modifies this`wrapped, this`remoteBidiSeen, this`remoteUniSeen, queue
      ensures Site(State(), queue.State()) == DrainReadable(DrainWritable(Site(old(State()), old(queue.State()))))
    {
      ghost var start := Site(State(), queue.State());
      while wrapped.view.writable != []
        invariant DrainWritable(Site(State(), queue.State())) == DrainWritable(start)
        decreases |wrapped.view.writable|
      {
        var id := wrapped.view.writable[0];
        wrapped := wrapped.PopWritable();
        Raise(queue, EventKind.StreamSend, false, id);
      }
      while wrapped.view.readable != []
        invariant DrainReadable(Site(State(), queue.State())) == DrainReadable(DrainWritable(start))
        decreases |wrapped.view.readable|
      {
        var id := wrapped.view.readable[0];
        wrapped := wrapped.PopReadable();
        if !IsLocal(id, wrapped.isServer) {
          AcceptOrReceive(id, queue);
        } else {
          Raise(queue, EventKind.StreamRecv, false, id);
        }
      }
    }

    method AcceptOrReceive(id: nat, queue: Queue)
      modifies this`remoteBidiSeen, this`remoteUniSeen, queue
      ensures Site(State(), queue.State()) == HandleAccept(Site(old(State()), old(queue.State())), id)
    {
      var seen := if IsBidi(id) then remoteBidiSeen else remoteUniSeen;
      if seen.Some? && id <= seen.value {
        Raise(queue, EventKind.StreamRecv, false, id);
        return;
      }
      Raise(queue, EventKind.StreamAccept, false, id);
      if IsBidi(id) {
        remoteBidiSeen := Some(id);
      } else {
        remoteUniSeen := Some(id);
      }
    }

    method RescheduleSend(sendDone: bool, now: Time, queue: Queue)
      modifies queue
      ensures Site(State(), queue.State()) == HandleSend(Site(State(), old(queue.State())), sendDone, now)
    {
      var delayTo := DelaySend(wrapped, now, sendDone);
      var event := Event(token, EventKind.Send, wrapped.isServer, false, 0);
      if sendDone && delayTo.None? {
        queue.Remove(event);
        return;
      }
      queue.Insert(event, delayTo);
    }

    method HandleStateChanged(queue: Queue) returns (closed: bool)
      modifies this`established, queue
      ensures Site(State(), queue.State())
           == HandleClosed(HandleEstablished(Site(old(State()), old(queue.State()))))
      ensures closed == wrapped.view.closed
    {
      if !established && wrapped.view.established {
        established := true;
        if wrapped.isServer {
          Raise(queue, EventKind.Accept, false, 0);
        } else {
          Raise(queue, EventKind.Connected, false, 0);
        }
      }
      if wrapped.view.closed {
        Raise(queue, EventKind.Closed, false, 0);
        return true;
      }
      return false;
    }

    method LeaveLock()
      requires Valid() && !locker.Unlocked?
      modifies this`locker, this`lockCount, this`readLockCount
      ensures State().(retries := {}) == Leave(old(State())) && retries == old(retries)
    {
      if locker == LocKind.ReadLock {
        readLockCount := readLockCount - 1;
        if readLockCount == 0 {
          lockCount := lockCount + 1;
          locker := Unlocked;
        }
      } else {
        lockCount := lockCount + 1;
        locker := Unlocked;
      }
    }

    // Releases the lock and replays the ledger. The two assertions of the original are the
    // preconditions; Sessions proves that every guard meets them.
    method UnlockWith(lockCount: nat, sendDone: bool, now: Time, queue: Queue)
      returns (closed: bool, ghost order: seq<LocKind>)
      requires Valid() && !locker.Unlocked? && this.lockCount == lockCount
      modifies this, queue
      ensures DrainOrder(order, old(retries))
      ensures Site(State(), queue.State())
           == Unlock(Site(old(State()), old(queue.State())), sendDone, order, now)
      ensures closed == wrapped.view.closed
      ensures Valid()
    {
      ghost var start := Site(State(), queue.State());
      LeaveLock();
      order := HandleRetryEvents(queue);
      HandleStreamStateChanged(queue);
      ghost var flushed := Site(State(), queue.State());
      assert flushed == Flush(start, order);
      FlushKeepsLock(start, order);
      assert Valid() by {
        assert forall k :: k in retries ==> k in Elements(order);
      }
      RescheduleSend(sendDone, now, queue);
      closed := HandleStateChanged(queue);
    }

    method CloseConn(app: bool, err: nat, reason: seq<byte>, now: Time, queue: Queue)
      returns (ok: bool, ghost order: seq<LocKind>)
      requires Valid()
      modifies this, queue
      ensures Valid()
      ensures var (c, granted) := CloseNow(old(State()), app, err, reason);
        if granted then
          && DrainOrder(order, c.retries)
          && Site(State(), queue.State()) == Unlock(Site(c, old(queue.State())), false, order, now)
          && ok == !old(wrapped).Outcome().Failed?
        else State() == c && queue.State() == old(queue.State()) && ok
    {
      hide Unlock;
      order := [];
      var guard := TryLockPrv(Close(app, err, reason));
      if guard.None? {
        return true, order;
      }
      var outcome := wrapped.Outcome();
      wrapped := wrapped.Invoke(CloseCall(app, err, reason));
      var _, o := UnlockWith(guard.value.lockCount, false, now, queue);
      return !outcome.Failed?, o;
    }

    method OpenStream(kind: StreamKind, nonBlocking: bool, now: Time, queue: Queue)
      returns (r: OpenReply, ghost order: seq<LocKind>)
      requires Valid()
      modifies this, queue
      ensures Valid()
      ensures var (c, reply) := OpenNow(old(State()), kind, nonBlocking);
        && r == reply
        && if reply.OpenBusy? then State() == c && queue.State() == old(queue.State())
           else
             && DrainOrder(order, c.retries)
             && Site(State(), queue.State()) == Unlock(Site(c, old(queue.State())), false, order, now)
    {
      hide Unlock;
      order := [];
      var guard := TryLockPrv(StreamOpen(kind));
      if guard.None? {
        return OpenBusy, order;
      }
      var result := StreamOpenPrv(kind);
      match result {
        case NoCredit =>
          retries := retries + {StreamOpen(kind)};
          var _, o := UnlockWith(guard.value.lockCount, false, now, queue);
          return if nonBlocking then OpenNone else OpenRetry, o;
        case Opened(id) =>
          var _, o := UnlockWith(guard.value.lockCount, false, now, queue);
          return OpenId(id), o;
        case OpenFailed =>
          var _, o := UnlockWith(guard.value.lockCount, false, now, queue);
          return OpenError, o;
      }
    }

    method CloseStream(id: nat, err: nat, now: Time, queue: Queue)
      returns (ok: bool, ghost order: seq<LocKind>)
      requires Valid()
      modifies this, queue
      ensures Valid()
      ensures var (c, granted) := StreamCloseNow(old(State()), id, err);
        if granted then
          && DrainOrder(order, c.retries)
          && Site(State(), queue.State()) == Unlock(Site(c, old(queue.State())), false, order, now)
          && ok == CloseBothSides(old(wrapped), id, err).1
        else State() == c && queue.State() == old(queue.State()) && ok
    {
      hide Unlock;
      order := [];
      var guard := TryLockPrv(StreamClose(id, err));
      if guard.None? {
        return true, order;
      }
      ok := StreamClosePrv(id, err);
      var _, o := UnlockWith(guard.value.lockCount, false, now, queue);
      return ok, o;
    }
  }

  lemma {:induction false} ReplayKeepsLock(s: Site, order: seq<LocKind>)
    requires forall k :: k in order ==> !k.Unlocked?
    ensures var c := ReplayAll(s, order).conn;
      && c.locker == s.conn.locker && c.readLockCount == s.conn.readLockCount
      && c.retries <= s.conn.retries + Elements(order)
  {
    if order != [] {
      var init := order[..|order| - 1];
      ReplayKeepsLock(s, init);
      assert order == init + [order[|order| - 1]];
    }
  }

  lemma {:induction false} DrainWritableKeepsLock(s: Site)
    ensures var c := DrainWritable(s).conn;
      c == s.conn.(wrapped := c.wrapped)
    decreases |s.conn.wrapped.view.writable|
  {
    var q := s.conn.wrapped;
    if q.view.writable != [] {
      DrainWritableKeepsLock(Announce(WithQuiche(s, q.PopWritable()), EventKind.StreamSend, false, q.view.writable[0]));
    }
  }

  lemma {:induction false} DrainReadableKeepsLock(s: Site)
    ensures var c := DrainReadable(s).conn;
      c == s.conn.(wrapped := c.wrapped, remoteBidiSeen := c.remoteBidiSeen, remoteUniSeen := c.remoteUniSeen)
    decreases |s.conn.wrapped.view.readable|
  {
    var q := s.conn.wrapped;
    if q.view.readable != [] {
      DrainReadableKeepsLock(HandleReadable(WithQuiche(s, q.PopReadable()), q.view.readable[0]));
    }
  }

  lemma FlushKeepsLock(s: Site, order: seq<LocKind>)
    requires forall k :: k in order ==> !k.Unlocked?
    requires s.conn.locker.ReadLock? ==> s.conn.readLockCount > 0
    ensures var c := Flush(s, order).conn;
      && c.locker == Leave(s.conn).locker && c.readLockCount == Leave(s.conn).readLockCount
      && c.retries <= Elements(order)
  {
    var s0 := Site(Leave(s.conn), s.ready);
    ReplayKeepsLock(s0, order);
    DrainWritableKeepsLock(ReplayAll(s0, order));
    DrainReadableKeepsLock(DrainWritable(ReplayAll(s0, order)));
  }
}
