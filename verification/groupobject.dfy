// The group object: each method is one critical section of the original, proved to be a step
// of the group's state machine.
module GroupObjects {
  import opened Api
  import opened Readiness
  import opened QuicheLib
  import opened Conns
  import opened Releases
  import opened Sessions
  import opened Groups

  datatype Locking = NotFound | Busy | Granted(context: LockContext)

  class Group {
    var tokenNext: Token
    var conns: map<Token, QuicConn>
    const readiness: Queue
    var unparkers: map<Token, Unparker>
    var unparked: seq<Unparker>
    var scids: map<ConnectionId, Token>

    // The outstanding guards and the history that the state machine keeps beside the fields.
    ghost var sessions: map<Token, Session>
    ghost var leaving: map<ConnectionId, Token>
    ghost var polled: multiset<Event>
    ghost var retired: map<Token, Conn>
    ghost var closing: multiset<Token>
    ghost var orphans: multiset<LockContext>

    ghost function State(): GroupState
      reads this, readiness
    {
      GroupState(tokenNext, sessions, scids, readiness.State(), unparkers, unparked, leaving, polled, retired,
                 closing, orphans)
    }

    ghost predicate Linked()
      reads this, conns.Values
    {
      && sessions.Keys == conns.Keys
      && forall t :: t in conns ==> conns[t].token == t && conns[t].State() == sessions[t].conn
    }

    constructor ()
      ensures Linked() && fresh(readiness) && conns == map[]
      ensures State() == GroupState(0, map[], map[], Ready({}, map[]), map[], [], map[], multiset{}, map[], multiset{}, multiset{})
    {
      tokenNext, conns, unparkers, unparked, scids := 0, map[], map[], [], map[];
      readiness := new Queue();
      sessions, leaving, polled, retired := map[], map[], multiset{}, map[];
      closing, orphans := multiset{}, multiset{};
    }

    lemma ConnValid(t: Token)
      requires Linked() && GroupInv(State()) && t in conns
      ensures conns[t].Valid()
    {
    }

    // As Linked, but for one connection that has just made its step.
    ghost predicate LinkedBut(token: Token)
      reads this, conns.Values
    {
      && sessions.Keys == conns.Keys && token in conns
      && (forall t :: t in conns ==> conns[t].token == t)
      && (forall t :: t in conns && t != token ==> conns[t].State() == sessions[t].conn)
    }

    ghost method Record(token: Token, s: Session)
      requires LinkedBut(token) && conns[token].State() == s.conn
      modifies this`sessions
      ensures Linked() && sessions == old(sessions)[token := s]
    {
      sessions := sessions[token := s];
    }

    // The `lock!` macro, and the locking half of `recv` and `send`.
    method Lock(token: Token, kind: LocKind) returns (r: Locking)
      requires Linked() && GroupInv(State()) && !kind.Unlocked? && !kind.ReadLock?
      modifies this, conns.Values
      ensures Linked()
      ensures r.NotFound? <==> token !in old(conns)
      ensures r.NotFound? ==> State() == old(State())
      ensures !r.NotFound? ==> Steps(old(State()), OnConn(token, TryLocking(kind)), State())
      ensures r.Granted? <==> !r.NotFound? && TryLock(old(sessions)[token].conn, kind).1
      ensures r.Granted? ==> token in sessions && r.context in sessions[token].guards
      ensures r.Granted? ==> r.context == LockContext(token, old(sessions)[token].conn.lockCount, false)
    {
      hide Steps, GroupInv, Unlock, TryLock, CloseNow, OpenNow, StreamCloseNow, ActedOn;
      if token !in conns {
        return NotFound;
      }
      ConnValid(token);
      ghost var g := State();
      ghost var s := Locked(g, token, kind);
      var context := conns[token].TryLockPrv(kind);
      Record(token, s);
      match context {
        case Some(c) => return Granted(c);
        case None => return Busy;
      }
    }

    // ---- Dropping a guard ----

    lemma GuardMatches(context: LockContext)
      requires Linked() && GroupInv(State())
      requires context.token in sessions && context in sessions[context.token].guards
      ensures context.token in conns && conns[context.token].Valid()
      ensures !conns[context.token].locker.Unlocked? && conns[context.token].lockCount == context.lockCount
    {
    }

    method Unpark(token: Token)
      modifies this`unparkers, this`unparked
      ensures State() == Unparked(old(State()), token)
    {
      if token in unparkers {
        unparked := unparked + [unparkers[token]];
        unparkers := unparkers - {token};
      }
    }

    method ReleaseConn(context: LockContext, now: Time)
      returns (closed: bool, ghost order: seq<LocKind>, ghost s: Session)
      requires Linked() && GroupInv(State())
      requires context.token in sessions && context in sessions[context.token].guards
      modifies this`sessions, this`unparkers, this`unparked, readiness, conns.Values
      ensures Linked() && closed == s.conn.wrapped.view.closed && s.guards == multiset{}
      ensures State() == Updated(Unparked(old(State()), context.token), context.token, s, readiness.State())
      ensures var a := Release(context, order, now);
        Steps(old(State()), OnConn(context.token, a),
              ActedOn(old(State()), context.token, a, s, readiness.State()))
    {
      hide Steps, GroupInv, Unlock, TryLock, CloseNow, OpenNow, StreamCloseNow, ActedOn, Unparked;
      GuardMatches(context);
      ghost var g := State();
      var token := context.token;
      Unpark(token);
      closed, order := conns[token].UnlockWith(context.lockCount, context.sendDone, now, readiness);
      s := Dropped(g, context, order, now);
      Record(token, s);
    }

    // The first critical section of a guard's drop: unparks the waiting receiver and unlocks.
    method UnlockConn(context: LockContext, now: Time)
      returns (closed: bool, ghost order: seq<LocKind>, ghost s: Session)
      requires Linked() && GroupInv(State())
      requires context.token in sessions && context in sessions[context.token].guards
      modifies this`sessions, this`unparkers, this`unparked, this`closing, readiness, conns.Values
      ensures Linked() && closed == s.conn.wrapped.view.closed && s.guards == multiset{}
      ensures context.token in sessions && sessions[context.token] == s
      ensures closed ==> context.token in closing
      ensures Steps(old(State()), OnConn(context.token, Release(context, order, now)), State())
    {
      hide Steps, GroupInv, ActedOn, Unparked;
      ghost var g := State();
      closed, order, s := ReleaseConn(context, now);
      NoteClosing(context.token, closed);
      ReleasedGroup(g, context.token, Release(context, order, now), s, readiness.State());
    }

    ghost method NoteClosing(token: Token, closed: bool)
      requires Linked()
      modifies this`closing
      ensures Linked()
      ensures State() == old(State()).(closing := old(closing) + if closed then multiset{token} else multiset{})
    {
      if closed {
        closing := closing + multiset{token};
      }
    }

    // Called when a guard is dropped. A closed connection is deregistered in critical sections
    // of their own; `mid` is the state after the unlock, `out` that after the removal from `conns`.
    method DropGuard(context: LockContext, now: Time)
      returns (closed: bool, ghost order: seq<LocKind>, ghost mid: GroupState, ghost out: GroupState)
      requires Linked() && GroupInv(State())
      requires context.token in sessions && context in sessions[context.token].guards
      modifies this, readiness, conns.Values
      ensures Linked()
      ensures Steps(old(State()), OnConn(context.token, Release(context, order, now)), mid)
      ensures !closed ==> State() == mid
      ensures closed ==> context.token !in conns && context.token in mid.sessions
      ensures closed ==> Steps(mid, Expire(context.token), out)
      ensures closed ==> Steps(out, DropScid(SourceOf(mid, context.token)), State())
    {
      hide Steps, GroupInv, Unlock;
      ghost var g := State();
      ghost var s;
      closed, order, s := UnlockConn(context, now);
      mid, out := State(), State();
      if closed {
        StepsKeepInv(g, OnConn(context.token, Release(context, order, now)), mid);
        var wrapped;
        wrapped, out := Deregister(context.token, true);
        OrderlyMove(mid, Expire(context.token), out);
      }
    }

    method TakeOutConn(token: Token) returns (wrapped: Quiche)
      requires Linked() && token in conns
      modifies this
      ensures Linked() && State() == Removed(old(State()), token) && conns == old(conns) - {token}
      ensures wrapped == old(sessions)[token].conn.wrapped
    {
      wrapped := conns[token].wrapped;
      assert conns[token].State() == sessions[token].conn;
      conns := conns - {token};
      leaving := leaving[sessions[token].conn.wrapped.sourceId := token];
      retired := retired[token := sessions[token].conn];
      orphans := orphans + sessions[token].guards;
      sessions := sessions - {token};
    }

    method RemoveScid(scid: ConnectionId)
      requires Linked() && scid in leaving && scid in scids && scids[scid] == leaving[scid]
      modifies this
      ensures Linked() && conns == old(conns)
      ensures State() == old(State()).(scids := old(scids) - {scid}, leaving := old(leaving) - {scid})
    {
      scids := scids - {scid};
      leaving := leaving - {scid};
    }

    // `deregister`, called by a user or, after the unlock of a closed connection, automatically.
    // It takes the connection out even if guards of it are outstanding.
    method Deregister(token: Token, ghost automatic: bool) returns (r: Option<Quiche>, ghost mid: GroupState)
      requires Linked() && GroupInv(State())
      requires automatic ==> token in closing
      modifies this
      ensures Linked()
      ensures r.None? <==> token !in old(conns)
      ensures r.None? ==> State() == mid && (!automatic ==> State() == old(State()))
      ensures r.Some? ==> r.value == old(sessions)[token].conn.wrapped && conns == old(conns) - {token}
      ensures r.Some? || automatic ==> Moves(old(State()), Deregistration(token, automatic), mid)
      ensures r.Some? ==> Steps(mid, DropScid(r.value.sourceId), State())
    {
      hide Steps, Moves, GroupInv, Unlock, TryLock, CloseNow, OpenNow, StreamCloseNow, ActedOn, Take;
      ghost var g := State();
      NoteExpiry(token, automatic);
      mid := State();
      if token !in conns {
        if automatic {
          ExpiryOfNone(g, token);
        }
        return None, mid;
      }
      DeregistrationTakes(g, mid, token, automatic);
      var wrapped := TakeOutConn(token);
      mid := State();
      RemoveScid(wrapped.sourceId);
      return Some(wrapped), mid;
    }

    ghost method NoteExpiry(token: Token, automatic: bool)
      modifies this`closing
      ensures closing == if automatic then old(closing) - multiset{token} else old(closing)
    {
      if automatic {
        closing := closing - multiset{token};
      }
    }

    // ---- Registering ----

    // The wrapping search: settles on the first free token, within one lap.
    method NextFree() returns (token: Token)
      requires Linked() && |conns| < TWO_TO_THE_32
      modifies this`tokenNext
      ensures Linked()
      ensures IsFirstFree(old(tokenNext), conns.Keys, token)
      ensures tokenNext == NextToken(token)
    {
      hide TokenAt, NextToken;
      ghost var start, d := tokenNext, 0;
      TokenAfter(start, 0);
      while true
        invariant d < TWO_TO_THE_32 && tokenNext == TokenAt(start, d)
        invariant forall j :: 0 <= j < d ==> TokenAt(start, j) in conns.Keys
        decreases TWO_TO_THE_32 - d
      {
        token := tokenNext;
        tokenNext := NextToken(tokenNext);
        if token !in conns {
          assert FreeAtDistance(start, conns.Keys, token, d);
          return;
        }
        TokenAfter(start, d);
        d := d + 1;
        TakenTokens(start, conns.Keys, d);
      }
    }

    method Allot() returns (token: Token)
      requires Linked() && |conns| < TWO_TO_THE_32
      modifies this`tokenNext
      ensures Linked() && IsFirstFree(old(tokenNext), conns.Keys, token)
      ensures State() == old(State()).(tokenNext := NextToken(token))
    {
      hide IsFirstFree, NextToken;
      token := NextFree();
    }

    // A new connection object, read-locked and released once.
    method Wrap(token: Token, wrapped: Quiche, now: Time) returns (conn: QuicConn)
      requires Linked()
      modifies readiness
      ensures Linked() && fresh(conn) && conn.token == token
      ensures State() == old(State()).(ready := readiness.State())
      ensures var c := TryLock(NewConn(token, wrapped), LocKind.ReadLock).0;
        Site(conn.State(), readiness.State()) == Unlock(Site(c, old(readiness.State())), false, [], now)
    {
      hide Unlock;
      conn := new QuicConn(token, wrapped);
      var context := conn.TryLockPrv(LocKind.ReadLock);
      var _, order := conn.UnlockWith(context.value.lockCount, false, now, readiness);
      EmptyDrain(order);
    }

    method Register(wrapped: Quiche, now: Time) returns (token: Token)
      requires Linked() && GroupInv(State()) && |conns| < TWO_TO_THE_32
      requires wrapped.sourceId !in leaving
      requires forall t :: t in sessions ==> SourceOf(State(), t) != wrapped.sourceId
      modifies this, readiness
      ensures Linked() && token in conns && token !in old(conns)
      ensures Steps(old(State()), Step.Register(token, wrapped, now), State())
    {
      hide Steps, GroupInv, Unlock, TryLock, WithSession, NextToken;
      ghost var g := State();
      token := Allot();
      ghost var s, ready := RegisteredStep(g, token, wrapped, now);
      var conn := Wrap(token, wrapped, now);
      Enter(token, conn, s);
      Entered(g, token, s, ready, wrapped.sourceId);
    }

    method Enter(token: Token, conn: QuicConn, ghost s: Session)
      requires Linked() && token !in conns && conn.token == token && conn.State() == s.conn
      modifies this`conns, this`sessions, this`scids
      ensures Linked() && conns == old(conns)[token := conn]
      ensures State() == old(State()).(sessions := old(sessions)[token := s],
                                       scids := old(scids)[s.conn.wrapped.sourceId := token])
    {
      scids := scids[conn.wrapped.sourceId := token];
      conns := conns[token := conn];
      sessions := sessions[token := s];
    }

    // ---- Calls on one connection under the mutex ----

    method Close(token: Token, app: bool, err: nat, reason: seq<byte>, now: Time)
      returns (found: bool, ok: bool, ghost order: seq<LocKind>)
      requires Linked() && GroupInv(State())
      modifies this, readiness, conns.Values
      ensures Linked() && found == (token in old(conns))
      ensures !found ==> State() == old(State())
      ensures found ==> Steps(old(State()), OnConn(token, CloseConn(app, err, reason, order, now)), State())
      ensures found && ok ==> token in sessions && NotedClose(old(sessions)[token], sessions[token], LocKind.Close(app, err, reason))
    {
      hide Steps, GroupInv, Unlock, TryLock, CloseNow, OpenNow, StreamCloseNow, ActedOn;
      order := [];
      if token !in conns {
        return false, false, order;
      }
      ConnValid(token);
      ghost var g := State();
      ok, order := conns[token].CloseConn(app, err, reason, now, readiness);
      ghost var s, _ := Closing(g, token, CloseConn(app, err, reason, order, now));
      Record(token, s);
      found := true;
    }

    method StreamOpen(token: Token, kind: StreamKind, nonBlocking: bool, now: Time)
      returns (r: Option<OpenReply>, ghost order: seq<LocKind>)
      requires Linked() && GroupInv(State())
      modifies this, readiness, conns.Values
      ensures Linked() && (r.None? <==> token !in old(conns))
      ensures r.None? ==> State() == old(State())
      ensures r.Some? ==> r.value == OpenNow(old(sessions)[token].conn, kind, nonBlocking).1
      ensures r.Some? ==> Steps(old(State()), OnConn(token, OpenStream(kind, nonBlocking, order, now)), State())
    {
      hide Steps, GroupInv, Unlock, TryLock, CloseNow, OpenNow, StreamCloseNow, ActedOn;
      order := [];
      if token !in conns {
        return None, order;
      }
      ConnValid(token);
      ghost var g := State();
      var reply;
      reply, order := conns[token].OpenStream(kind, nonBlocking, now, readiness);
      ghost var s, _ := Opening(g, token, OpenStream(kind, nonBlocking, order, now));
      Record(token, s);
      r := Some(reply);
    }

    method StreamShutdown(token: Token, id: nat, err: nat, now: Time)
      returns (found: bool, ok: bool, ghost order: seq<LocKind>)
      requires Linked() && GroupInv(State())
      modifies this, readiness, conns.Values
      ensures Linked() && found == (token in old(conns))
      ensures !found ==> State() == old(State())
      ensures found ==> Steps(old(State()), OnConn(token, CloseStream(id, err, order, now)), State())
      ensures found && ok ==> token in sessions && NotedClose(old(sessions)[token], sessions[token], StreamClose(id, err))
    {
      hide Steps, GroupInv, Unlock, TryLock, CloseNow, OpenNow, StreamCloseNow, ActedOn;
      order := [];
      if token !in conns {
        return false, false, order;
      }
      ConnValid(token);
      ghost var g := State();
      ok, order := conns[token].CloseStream(id, err, now, readiness);
      ghost var s, _ := ClosingStream(g, token, CloseStream(id, err, order, now));
      Record(token, s);
      found := true;
    }

    // ---- Receiving, sending and polling ----

    // The second critical section of `recv_with_connection_id`: the lock, or the unparker of
    // the receiver is left behind.
    method RecvLock(token: Token, unparker: Option<Unparker>) returns (r: Locking)
      requires Linked() && GroupInv(State())
      modifies this, conns.Values
      ensures Linked()
      ensures r.NotFound? <==> token !in old(conns)
      ensures r.NotFound? ==> State() == old(State())
      ensures r.Granted? || (r.Busy? && unparker.None?) ==>
        Steps(old(State()), OnConn(token, TryLocking(LocKind.Recv)), State())
      ensures r.Busy? && unparker.Some? ==>
        Steps(old(State()), ReceiverParks(token, unparker.value), State())
    {
      hide Steps, GroupInv;
      ghost var g := State();
      r := Lock(token, LocKind.Recv);
      if r.Busy? && unparker.Some? {
        ParkedStep(g, token, unparker.value, State());
        Park(token, unparker.value);
      }
    }

    method Park(token: Token, unparker: Unparker)
      requires Linked()
      modifies this`unparkers
      ensures Linked()
      ensures State() == old(State()).(unparkers := old(unparkers)[token := unparker])
    {
      unparkers := unparkers[token := unparker];
    }

    // What `send` does between taking the lock and dropping its guard: nothing while the
    // release time is too far ahead; "done" is reported when the library has nothing to send.
    method UseToSend(context: LockContext, now: Time) 
      returns (context': LockContext, r: SendReply, done: bool, ghost mid: GroupState)
      requires Linked() && GroupInv(State())
      requires context.token in sessions && context in sessions[context.token].guards
      modifies this, conns.Values
      ensures Linked()
      ensures context' == context || context' == context.(sendDone := true)
      ensures context.token in mid.sessions
      ensures var q, q' := old(sessions)[context.token].conn.wrapped, mid.sessions[context.token].conn.wrapped;
        && SendsWhenDue(q, q', now, done, r)
        && Steps(old(State()), OnConn(context.token, Use(q', false)), mid)
      ensures !done ==> State() == mid && context' == context
      ensures done ==> context'.sendDone && Steps(mid, OnConn(context.token, SendDone(context)), State())
      ensures context.token in sessions && context' in sessions[context.token].guards
    {
      hide Steps, GroupInv, SendUse, ReleaseTime;
      ghost var g := State();
      SendUseIsDue(sessions[context.token].conn.wrapped, now);
      r, done := UseConn(context, now);
      mid := State();
      context' := context;
      if done {
        StepsKeepInv(g, OnConn(context.token, Use(sessions[context.token].conn.wrapped, false)), mid);
        NoteDone(context);
        context' := context.(sendDone := true);
      }
    }

    method UseConn(context: LockContext, now: Time) returns (r: SendReply, done: bool)
      requires Linked() && GroupInv(State())
      requires context.token in sessions && context in sessions[context.token].guards
      modifies this, conns.Values
      ensures Linked()
      ensures context.token in sessions && context in sessions[context.token].guards
      ensures (sessions[context.token].conn.wrapped, done, r) == SendUse(old(sessions)[context.token].conn.wrapped, now)
      ensures Steps(old(State()), OnConn(context.token, Use(sessions[context.token].conn.wrapped, false)), State())
    {
      hide Steps, GroupInv, SendUse, ReleaseTime;
      ghost var s := SendUsed(State(), context, now);
      r, done := SendOver(conns[context.token], now);
      sessions := sessions[context.token := s];
    }

    ghost method NoteDone(context: LockContext)
      requires Linked() && GroupInv(State())
      requires context.token in sessions && context in sessions[context.token].guards
      modifies this`sessions
      ensures Linked() && Steps(old(State()), OnConn(context.token, SendDone(context)), State())
      ensures context.token in sessions && context.(sendDone := true) in sessions[context.token].guards
    {
      hide Steps, GroupInv;
      var s := MarkedDone(State(), context);
      sessions := sessions[context.token := s];
    }

    method SendOver(conn: QuicConn, now: Time) returns (r: SendReply, done: bool)
      modifies conn`wrapped
      ensures (conn.wrapped, done, r) == SendUse(old(conn.wrapped), now)
    {
      var release := ReleaseTime(conn.wrapped, now, RELEASE_TIMER_THRESHOLD);
      if release.Some? {
        return SendRetry, false;
      }
      conn.wrapped := conn.wrapped.Invoke(OnTimeoutCall);
      var outcome := conn.wrapped.Outcome();
      conn.wrapped := conn.wrapped.Invoke(SendCall);
      match outcome {
        case Fine => return Sent, false;
        case Done => return SendRetry, true;
        case Failed => return SendFailed, false;
      }
    }

    method Poll(now: Time) returns (batch: seq<Event>, deadline: Option<Time>)
      requires Linked() && GroupInv(State())
      modifies this, readiness
      ensures Linked() && Steps(old(State()), PollAll(now), State())
      ensures NoDuplicates(batch) && polled == old(polled) + multiset(batch)
      ensures IsLeastDeadline(deadline, readiness.delayed)
    {
      hide Steps, GroupInv, Unlock, TryLock, CloseNow, OpenNow, StreamCloseNow, ActedOn;
      ghost var g := State();
      PollFacts(g, now);
      batch, deadline := readiness.Poll(now, RELEASE_TIMER_THRESHOLD);
      MultisetOfDistinct(batch);
      polled := polled + multiset(batch);
    }
  }

  datatype SendReply = Sent | SendRetry | SendFailed

  function SendUse(q: Quiche, now: Time): (Quiche, bool, SendReply) {
    if ReleaseTime(q, now, RELEASE_TIMER_THRESHOLD).Some? then (q, false, SendRetry) else
    var q1 := q.Invoke(OnTimeoutCall);
    var q2 := q1.Invoke(SendCall);
    match q1.Outcome()
    case Fine => (q2, false, Sent)
    case Done => (q2, true, SendRetry)
    case Failed => (q2, false, SendFailed)
  }

  // Nothing is done while the next release time is more than 250 microseconds ahead. Otherwise
  // the timeouts are served and one packet is asked for; "done" means that there was none.
  ghost predicate SendsWhenDue(q: Quiche, q': Quiche, now: Time, done: bool, reply: SendReply) {
    var release, n := q.view.nextRelease(now), |q.calls|;
    if release.Some? && release.value - now > 250_000 then q' == q && !done && reply == SendRetry
    else
      && q'.calls == q.calls + [OnTimeoutCall, SendCall]
      && (done <==> q.replies(n + 1).outcome.Done?)
      && (reply == Sent <==> q.replies(n + 1).outcome.Fine?)
      && (reply == SendRetry <==> q.replies(n + 1).outcome.Done?)
  }

  lemma SendUseIsDue(q: Quiche, now: Time)
    ensures var (q', done, reply) := SendUse(q, now); SendsWhenDue(q, q', now, done, reply)
  {
  }

  lemma EmptyDrain(order: seq<LocKind>)
    requires DrainOrder(order, {})
    ensures order == []
  {
    if order != [] {
      ElementAt(order, 0);
    }
  }

  lemma ElementAt(order: seq<LocKind>, i: nat)
    requires i < |order|
    ensures order[i] in Elements(order)
  {
  }

  lemma TokenAfter(start: Token, d: nat)
    ensures TokenAt(start, 0) == start && NextToken(TokenAt(start, d)) == TokenAt(start, d + 1)
  {
  }

  // The tokens on the way are distinct, so the search passes at most as many as are taken.
  lemma {:induction false} TakenTokens(start: Token, used: set<Token>, d: nat)
    requires d <= TWO_TO_THE_32 && forall j :: 0 <= j < d ==> TokenAt(start, j) in used
    ensures d <= |used|
  {
    if d > 0 {
      var last := TokenAt(start, d - 1);
      forall j | 0 <= j < d - 1
        ensures TokenAt(start, j) in used - {last}
      {
      }
      TakenTokens(start, used - {last}, d - 1);
    }
  }

  lemma {:induction false} MultisetOfDistinct(s: seq<Event>)
    requires NoDuplicates(s)
    ensures multiset(s) == multiset(Elements(s))
  {
    if s != [] {
      var init, last := s[..|s| - 1], s[|s| - 1];
      MultisetOfDistinct(init);
      assert s == init + [last];
      assert last !in Elements(init);
      assert Elements(s) == Elements(init) + {last};
    }
  }

  // ---- The ghost half of each method: the session after it, and the step it is ----

  // After a lock attempt.
  lemma Locked(g: GroupState, token: Token, kind: LocKind) returns (s: Session)
    requires GroupInv(g) && token in g.sessions && !kind.Unlocked? && !kind.ReadLock?
    ensures var (c, granted) := TryLock(g.sessions[token].conn, kind);
      s == g.sessions[token].(conn := c,
        guards := if granted then g.sessions[token].guards + multiset{Context(c)} else g.sessions[token].guards)
    ensures Steps(g, OnConn(token, TryLocking(kind)), Updated(g, token, s, g.ready))
  {
    hide Steps;
    var a := TryLocking(kind);
    assert SessionInv(g.sessions[token]) && Allowed(g.sessions[token], a);
    s := Act(g.sessions[token], g.ready, a).0;
    ActTakesStep(g, token, a, s, g.ready);
  }

  lemma Dropped(g: GroupState, context: LockContext, order: seq<LocKind>, now: Time) returns (s: Session)
    requires GroupInv(g) && context.token in g.sessions && context in g.sessions[context.token].guards
    requires DrainOrder(order, g.sessions[context.token].conn.retries)
    ensures var site := Unlock(Site(g.sessions[context.token].conn, g.ready), context.sendDone, order, now);
      var a := Release(context, order, now);
      && s.conn == site.conn && s.conn.wrapped.sourceId == SourceOf(g, context.token) && s.guards == multiset{}
      && Steps(g, OnConn(context.token, a), ActedOn(g, context.token, a, s, site.ready))
  {
    hide Unlock, Steps;
    var a, s0 := Release(context, order, now), g.sessions[context.token];
    var site := Unlock(Site(s0.conn, g.ready), context.sendDone, order, now);
    ActIsConnStep(g, context.token, a);
    s := Act(s0, g.ready, a).0;
    ActTakesStep(g, context.token, a, s, site.ready);
  }

  lemma ActTakesStep(g: GroupState, t: Token, a: Action, s: Session, ready: Ready)
    requires GroupInv(g) && Enabled(g, OnConn(t, a)) && (s, ready) == Act(g.sessions[t], g.ready, a)
    ensures Steps(g, OnConn(t, a), ActedOn(g, t, a, s, ready))
  {
  }

  function Deregistration(t: Token, automatic: bool): Step {
    if automatic then Expire(t) else TakeOut(t)
  }

  lemma RemovedFacts(g: GroupState, t: Token)
    requires GroupInv(g) && t in g.sessions
    ensures var mid, scid := Removed(g, t), SourceOf(g, t);
      && scid in mid.leaving && scid in mid.scids && mid.scids[scid] == mid.leaving[scid]
      && Steps(mid, DropScid(scid), mid.(scids := mid.scids - {scid}, leaving := mid.leaving - {scid}))
  {
  }

  lemma DeregistrationTakes(g: GroupState, g1: GroupState, t: Token, automatic: bool)
    requires GroupInv(g) && t in g.sessions && (automatic ==> t in g.closing)
    requires g1 == g.(closing := if automatic then g.closing - multiset{t} else g.closing)
    ensures var mid, scid := Removed(g1, t), SourceOf(g, t);
      && Moves(g, Deregistration(t, automatic), mid)
      && scid in mid.leaving && scid in mid.scids && mid.scids[scid] == mid.leaving[scid]
      && Steps(mid, DropScid(scid), mid.(scids := mid.scids - {scid}, leaving := mid.leaving - {scid}))
  {
    assert ConnsOk(g);
    hide GroupInv, ConnsOk, Moves, Steps, Removed;
    ClosingIsFree(g, g1.closing);
    RemovedFacts(g1, t);
    RemovalMoves(g, g1, t, automatic);
  }

  lemma RemovalMoves(g: GroupState, g1: GroupState, t: Token, automatic: bool)
    requires ConnsOk(g) && t in g.sessions && (automatic ==> t in g.closing)
    requires g1 == g.(closing := if automatic then g.closing - multiset{t} else g.closing)
    ensures Moves(g, Deregistration(t, automatic), Removed(g1, t))
  {
    hide Take, Removed, GroupInv;
    if automatic {
      ExpireTakes(g, t);
    } else {
      TakeOutTakes(g, t);
      assert g1 == g;
    }
  }

  lemma ExpiryOfNone(g: GroupState, t: Token)
    requires GroupInv(g) && t !in g.sessions && t in g.closing
    ensures Moves(g, Expire(t), g.(closing := g.closing - multiset{t}))
  {
    ExpireTakes(g, t);
    hide Take, Removed;
  }

  lemma OrderlyMove(g: GroupState, s: Step, g': GroupState)
    requires Moves(g, s, g') && Orderly(g, s)
    ensures Steps(g, s, g')
  {
  }

  lemma ReleasedGroup(g: GroupState, t: Token, a: Action, s: Session, ready: Ready)
    requires a.Release?
    ensures ActedOn(g, t, a, s, ready) == Updated(Unparked(g, t), t, s, ready).(closing := g.closing
      + if s.conn.wrapped.view.closed then multiset{t} else multiset{})
  {
  }

  lemma Entered(g: GroupState, t: Token, s: Session, ready: Ready, scid: ConnectionId)
    ensures g.(tokenNext := NextToken(t)).(ready := ready).(sessions := g.sessions[t := s], scids := g.scids[scid := t])
         == WithSession(g, t, s, ready, scid)
  {
  }

  lemma RegisteredStep(g: GroupState, t: Token, q: Quiche, now: Time) returns (s: Session, ready: Ready)
    requires GroupInv(g) && Enabled(g, Step.Register(t, q, now))
    ensures q.sourceId !in g.scids && t !in g.sessions
    ensures var c := TryLock(NewConn(t, q), LocKind.ReadLock).0;
      && Site(s.conn, ready) == Unlock(Site(c, g.ready), false, [], now) && s.conn.wrapped.sourceId == q.sourceId
      && Steps(g, Step.Register(t, q, now), WithSession(g, t, s, ready, q.sourceId))
  {
    RegisterKeepsInv(g, Step.Register(t, q, now));
    RegisteredFacts(t, q, g.ready, now);
    s, ready := Registered(t, q, g.ready, now).0, Registered(t, q, g.ready, now).1;
    hide Unlock;
  }

  // Request k is among those that returned Ok, as of the calls made before it.
  ghost predicate NotedClose(s: Session, s': Session, k: LocKind) {
    OkClose(k, |s.conn.wrapped.calls|) in s'.closes
  }

  // A call that got the lock ends with its release.
  ghost predicate Ends(c: Conn, ready: Ready, granted: bool, order: seq<LocKind>, now: Time, site: Site) {
    if granted then
      && (c.locker.ReadLock? ==> c.readLockCount > 0) && (forall k :: k in order ==> !k.Unlocked?)
      && site == Unlock(Site(c, ready), false, order, now)
    else site == Site(c, ready)
  }

  lemma Closed(s0: Session, ready: Ready, a: Action)
    requires SessionInv(s0) && a.CloseConn?
    requires var (c, granted) := CloseNow(s0.conn, a.app, a.err, a.reason);
      granted ==> DrainOrder(a.order, c.retries)
    ensures Allowed(s0, a)
    ensures var (c, granted) := CloseNow(s0.conn, a.app, a.err, a.reason);
      var (s, ready') := Act(s0, ready, a);
      && Ends(c, ready, granted, a.order, a.now, Site(s.conn, ready'))
      && (!granted || !s0.conn.wrapped.Outcome().Failed? ==> NotedClose(s0, s, LocKind.Close(a.app, a.err, a.reason)))
  {
    hide Unlock;
  }

  lemma Closing(g: GroupState, t: Token, a: Action) returns (s: Session, ready: Ready)
    requires GroupInv(g) && t in g.sessions && a.CloseConn?
    requires var (c, granted) := CloseNow(g.sessions[t].conn, a.app, a.err, a.reason);
      granted ==> DrainOrder(a.order, c.retries)
    ensures var (c, granted) := CloseNow(g.sessions[t].conn, a.app, a.err, a.reason);
      && Ends(c, g.ready, granted, a.order, a.now, Site(s.conn, ready))
      && Steps(g, OnConn(t, a), Updated(g, t, s, ready))
      && (!granted || !g.sessions[t].conn.wrapped.Outcome().Failed? ==>
            NotedClose(g.sessions[t], s, LocKind.Close(a.app, a.err, a.reason)))
  {
    hide Unlock, Steps, Act, Allowed, Ends;
    Closed(g.sessions[t], g.ready, a);
    s, ready := Act(g.sessions[t], g.ready, a).0, Act(g.sessions[t], g.ready, a).1;
    ActTakesStep(g, t, a, s, ready);
  }

  lemma OpenedNow(s0: Session, ready: Ready, a: Action)
    requires SessionInv(s0) && a.OpenStream?
    requires var (c, reply) := OpenNow(s0.conn, a.kind, a.nonBlocking);
      !reply.OpenBusy? ==> DrainOrder(a.order, c.retries)
    ensures Allowed(s0, a)
    ensures var (c, reply) := OpenNow(s0.conn, a.kind, a.nonBlocking);
      var (s, ready') := Act(s0, ready, a);
      Ends(c, ready, !reply.OpenBusy?, a.order, a.now, Site(s.conn, ready'))
  {
    PrepareKeepsInv(s0, a);
    hide Unlock, OpenNow;
  }

  lemma Opening(g: GroupState, t: Token, a: Action) returns (s: Session, ready: Ready)
    requires GroupInv(g) && t in g.sessions && a.OpenStream?
    requires var (c, reply) := OpenNow(g.sessions[t].conn, a.kind, a.nonBlocking);
      !reply.OpenBusy? ==> DrainOrder(a.order, c.retries)
    ensures var (c, reply) := OpenNow(g.sessions[t].conn, a.kind, a.nonBlocking);
      && Ends(c, g.ready, !reply.OpenBusy?, a.order, a.now, Site(s.conn, ready))
      && Steps(g, OnConn(t, a), Updated(g, t, s, ready))
  {
    hide Unlock, Steps, Act, Allowed, Ends, OpenNow;
    OpenedNow(g.sessions[t], g.ready, a);
    s, ready := Act(g.sessions[t], g.ready, a).0, Act(g.sessions[t], g.ready, a).1;
    ActTakesStep(g, t, a, s, ready);
  }

  lemma ClosedStream(s0: Session, ready: Ready, a: Action)
    requires SessionInv(s0) && a.CloseStream?
    requires var (c, granted) := StreamCloseNow(s0.conn, a.id, a.err);
      granted ==> DrainOrder(a.order, c.retries)
    ensures Allowed(s0, a)
    ensures var (c, granted) := StreamCloseNow(s0.conn, a.id, a.err);
      var (s, ready') := Act(s0, ready, a);
      && Ends(c, ready, granted, a.order, a.now, Site(s.conn, ready'))
      && (!granted || CloseBothSides(s0.conn.wrapped, a.id, a.err).1 ==>
            NotedClose(s0, s, StreamClose(a.id, a.err)))
  {
    hide Unlock, CloseBothSides;
  }

  lemma ClosingStream(g: GroupState, t: Token, a: Action) returns (s: Session, ready: Ready)
    requires GroupInv(g) && t in g.sessions && a.CloseStream?
    requires var (c, granted) := StreamCloseNow(g.sessions[t].conn, a.id, a.err);
      granted ==> DrainOrder(a.order, c.retries)
    ensures var (c, granted) := StreamCloseNow(g.sessions[t].conn, a.id, a.err);
      && Ends(c, g.ready, granted, a.order, a.now, Site(s.conn, ready))
      && Steps(g, OnConn(t, a), Updated(g, t, s, ready))
      && (!granted || CloseBothSides(g.sessions[t].conn.wrapped, a.id, a.err).1 ==>
            NotedClose(g.sessions[t], s, StreamClose(a.id, a.err)))
  {
    hide Unlock, Steps, Act, Allowed, Ends, CloseBothSides;
    ClosedStream(g.sessions[t], g.ready, a);
    s, ready := Act(g.sessions[t], g.ready, a).0, Act(g.sessions[t], g.ready, a).1;
    ActTakesStep(g, t, a, s, ready);
  }

  lemma ParkedStep(g: GroupState, t: Token, unparker: Unparker, g1: GroupState)
    requires GroupInv(g) && t in g.sessions && !TryLock(g.sessions[t].conn, LocKind.Recv).1
    requires Steps(g, OnConn(t, TryLocking(LocKind.Recv)), g1)
    ensures Steps(g, ReceiverParks(t, unparker), g1.(unparkers := g1.unparkers[t := unparker]))
  {
  }

  lemma SendUseEvolves(q: Quiche, now: Time)
    ensures Evolves(q, SendUse(q, now).0) && SendUse(q, now).0.drained == q.drained
  {
  }

  lemma SendUsed(g: GroupState, context: LockContext, now: Time) returns (s: Session)
    requires GroupInv(g) && context.token in g.sessions && context in g.sessions[context.token].guards
    ensures var q := SendUse(g.sessions[context.token].conn.wrapped, now).0;
      && s == g.sessions[context.token].(conn := g.sessions[context.token].conn.(wrapped := q))
      && Steps(g, OnConn(context.token, Use(q, false)), Updated(g, context.token, s, g.ready))
  {
    hide SendUse, Steps;
    var q := SendUse(g.sessions[context.token].conn.wrapped, now).0;
    SendUseEvolves(g.sessions[context.token].conn.wrapped, now);
    assert SessionInv(g.sessions[context.token]) && Allowed(g.sessions[context.token], Use(q, false));
    s := Act(g.sessions[context.token], g.ready, Use(q, false)).0;
    ActTakesStep(g, context.token, Use(q, false), s, g.ready);
  }

  lemma MarkedDone(g: GroupState, context: LockContext) returns (s: Session)
    requires GroupInv(g) && context.token in g.sessions && context in g.sessions[context.token].guards
    ensures s.conn == g.sessions[context.token].conn && context.(sendDone := true) in s.guards
    ensures Steps(g, OnConn(context.token, SendDone(context)), Updated(g, context.token, s, g.ready))
  {
    hide Steps;
    s := DoneNoted(g.sessions[context.token], g.ready, context);
    hide Act, Allowed, SessionInv;
    ActTakesStep(g, context.token, SendDone(context), s, g.ready);
  }

  lemma DoneNoted(s0: Session, ready: Ready, context: LockContext) returns (s: Session)
    requires SessionInv(s0) && context in s0.guards
    ensures Allowed(s0, SendDone(context)) && (s, ready) == Act(s0, ready, SendDone(context))
    ensures s.conn == s0.conn && context.(sendDone := true) in s.guards
  {
    s := Act(s0, ready, SendDone(context)).0;
  }

  lemma StepsKeepInv(g: GroupState, s: Step, g': GroupState)
    requires GroupInv(g) && Steps(g, s, g')
    ensures GroupInv(g')
  {
    StepKeepsInv(g, s);
  }

  lemma PollFacts(g: GroupState, now: Time)
    requires GroupInv(g)
    ensures g.ready.Valid()
    ensures Steps(g, PollAll(now), g.(ready := g.ready.Rest(now, RELEASE_TIMER_THRESHOLD),
      polled := g.polled + multiset(g.ready.Due(now, RELEASE_TIMER_THRESHOLD))))
  {
  }
}
