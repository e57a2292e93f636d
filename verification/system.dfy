// The two layers together: tasks, the waker hub with its dispatch loop, and the group.
module Systems {
  import opened Api
  import opened Readiness
  import opened QuicheLib
  import opened Conns
  import opened Releases
  import opened Sessions
  import Groups
  import opened Futures

  // One poll of a task: its waker is registered first, then the operation is tried. `mark` is
  // how often the task had been woken when the poll began.
  datatype Task = Idle | Trying(waker: Waker, mark: nat) | Waiting(waker: Waker, mark: nat)

  type Slot = (Token, Interest)

  // `handed` are the streams that `accept` returned, `discarded` those dropped by a close;
  // `listener` tells how often the listener had been woken when it was left waiting, if it was.
  datatype System = System(
    group: Groups.GroupState,
    hub: Hub,
    tasks: map<Slot, Task>,
    handed: map<Token, multiset<nat>>,
    discarded: map<Token, multiset<nat>>,
    listener: Option<nat>)

  datatype Step =
    | InGroup(step: Groups.Step)
    | Begin(token: Token, interest: Interest, waker: Waker)
    | TryOpen(token: Token, kind: StreamKind, nonBlocking: bool, order: seq<LocKind>, now: Time)
    | TryRecv(token: Token, id: nat)
    | Finish(token: Token, interest: Interest)
    | DispatchEvent(event: Event)
    | Accepting(token: Token, waker: Waker)
    | AcceptingConn(waker: Waker)
    | Awaiting(token: Token, waker: Waker)
    | ShuttingStream(token: Token, id: nat)

  function TaskOf(s: System, slot: Slot): Task {
    if slot in s.tasks then s.tasks[slot] else Idle
  }

  function OpenInterest(kind: StreamKind): Interest {
    if kind.Bidi? then ToOpenBidi else ToOpenUni
  }

  // One task per slot. The I/O layer tries `send` for each `Send` event, drops `Recv` events
  // and passes the rest on to the dispatch loop. Nobody deregisters explicitly, and no token
  // is given out again while a deregistration of it is pending.
  ghost predicate Enabled(s: System, step: Step) {
    match step
    case InGroup(g) =>
      && Groups.Enabled(s.group, g) && !g.TakeOut?
      && (g.Handle? ==> g.event.kind.Recv?)
      && (g.Register? ==> g.token !in s.group.closing)
    case Begin(t, i, w) => !TaskOf(s, (t, i)).Trying? && !i.ToConnect? && !i.ToAccept?
    case TryOpen(t, kind, nonBlocking, order, now) =>
      && TaskOf(s, (t, OpenInterest(kind))).Trying?
      && (t in s.group.sessions ==>
            Allowed(s.group.sessions[t], OpenStream(kind, nonBlocking, order, now)))
    case TryRecv(t, id) => TaskOf(s, (t, ToRecv(id))).Trying?
    case Finish(t, i) => TaskOf(s, (t, i)).Idle?
    case DispatchEvent(e) => e in s.group.polled && Dispatchable(e.kind)
    case _ => true
  }

  function CountOf(m: map<Token, multiset<nat>>, t: Token): multiset<nat> {
    if t in m then m[t] else multiset{}
  }

  // A task after one poll: done, or left waiting.
  function Left(h: Hub, t: Token, i: Interest, w: Waker, done: bool): Task {
    if done then Idle else Waiting(w, h.woken[Wakeup(t, i, w)])
  }

  ghost function Take(s: System, step: Step): System
    requires Groups.ConnsOk(s.group) && Enabled(s, step)
  {
    match step
    case InGroup(g) => s.(group := Groups.Take(s.group, g))
    case Begin(t, i, w) =>
      s.(hub := Register(s.hub, t, i, w), tasks := s.tasks[(t, i) := Trying(w, s.hub.woken[Wakeup(t, i, w)])])
    case TryOpen(t, kind, nonBlocking, order, now) =>
      var slot := (t, OpenInterest(kind));
      if t !in s.group.sessions then s.(tasks := s.tasks[slot := Idle]) else
      var reply := OpenNow(s.group.sessions[t].conn, kind, nonBlocking).1;
      var g := Groups.Take(s.group, Groups.OnConn(t, OpenStream(kind, nonBlocking, order, now)));
      s.(group := g, tasks := s.tasks[slot :=
        if reply.OpenBusy? || reply.OpenRetry? then Waiting(s.tasks[slot].waker, s.tasks[slot].mark) else Idle])
    case TryRecv(t, id) =>
      var slot := (t, ToRecv(id));
      if t !in s.group.sessions then s.(tasks := s.tasks[slot := Idle]) else
      var granted := TryLock(s.group.sessions[t].conn, LocKind.StreamRecv(id)).1;
      var g := Groups.Take(s.group, Groups.OnConn(t, TryLocking(LocKind.StreamRecv(id))));
      s.(group := g, tasks := s.tasks[slot :=
        if granted then Idle else Waiting(s.tasks[slot].waker, s.tasks[slot].mark)])
    case Finish(t, i) => s.(hub := Unregister(s.hub, t, i))
    case DispatchEvent(e) =>
      var s1 := s.(group := Groups.Take(s.group, Groups.Handle(e)), hub := Dispatch(s.hub, e));
      if e.kind.Closed? then
        s1.(discarded := s.discarded[e.token := CountOf(s.discarded, e.token) + multiset(IncomingOf(s.hub, e.token))])
      else s1
    case Accepting(t, w) =>
      var (hub, r) := AcceptStream(s.hub, t, w);
      var s1 := s.(hub := hub, tasks := s.tasks[(t, ToAccept) := Left(s.hub, t, ToAccept, w, r.Some?)]);
      if r.Some? then s1.(handed := s.handed[t := CountOf(s.handed, t) + multiset{r.value}]) else s1
    case AcceptingConn(w) =>
      var (hub, r) := AcceptConn(s.hub, w);
      s.(hub := hub, listener := if r.Some? then None else Some(s.hub.acceptsWoken))
    case Awaiting(t, w) =>
      var (hub, done) := AwaitEstablished(s.hub, t, w);
      s.(hub := hub, tasks := s.tasks[(t, ToConnect) := Left(s.hub, t, ToConnect, w, done)])
    case ShuttingStream(t, id) => s.(hub := ShutStream(s.hub, t, id))
  }

  // What a task tries on its connection.
  function Tried(step: Step): Action
    requires step.TryOpen? || step.TryRecv?
  {
    if step.TryOpen? then OpenStream(step.kind, step.nonBlocking, step.order, step.now)
    else TryLocking(LocKind.StreamRecv(step.id))
  }

  // Of the layers below the tasks, trying changes the group only.
  lemma TryTakes(s: System, step: Step)
    requires Groups.ConnsOk(s.group) && Enabled(s, step) && (step.TryOpen? || step.TryRecv?)
    ensures var s' := Take(s, step);
      && s'.hub == s.hub && s'.handed == s.handed && s'.discarded == s.discarded
      && (if step.token in s.group.sessions
          then && Groups.Enabled(s.group, Groups.OnConn(step.token, Tried(step)))
               && s'.group == Groups.Take(s.group, Groups.OnConn(step.token, Tried(step)))
          else s'.group == s.group)
  {
    hide Groups.Take, TryLock, OpenNow, SessionInv;
    if step.TryRecv? && step.token in s.group.sessions {
      RecvAllowed(s.group.sessions[step.token], step.id);
    }
  }

  lemma RecvAllowed(s: Session, id: nat)
    requires SessionInv(s)
    ensures Allowed(s, TryLocking(LocKind.StreamRecv(id)))
  {
  }

  // ---- No task is stranded ----

  predicate Claimed(i: Interest) {
    i.ToOpenBidi? || i.ToOpenUni? || i.ToRecv?
  }

  // The ledger entry left by a task that was refused.
  function EntryOf(i: Interest): LocKind
    requires Claimed(i)
  {
    match i
    case ToOpenBidi => StreamOpen(Bidi)
    case ToOpenUni => StreamOpen(Uni)
    case ToRecv(id) => LocKind.StreamRecv(id)
  }

  ghost predicate Answered(g: Groups.GroupState, t: Token, i: Interest) {
    exists e :: (e in g.ready.events || e in g.polled) && IsFor(e, t, i)
  }

  // The refused request is in the ledger of a connection that is held or open ..
  ghost predicate InLedger(g: Groups.GroupState, t: Token, i: Interest)
    requires Claimed(i)
  {
    && t in g.sessions && EntryOf(i) in g.sessions[t].conn.retries
    && !(g.sessions[t].conn.locker.Unlocked? && g.sessions[t].conn.wrapped.view.closed)
  }

  // .. or its event or `Closed` is on the way.
  ghost predicate Promised(g: Groups.GroupState, t: Token, i: Interest)
    requires Claimed(i)
  {
    InLedger(g, t, i) || Answered(g, t, i)
  }

  // Only closed connections are to be deregistered automatically.
  ghost predicate ClosingInv(g: Groups.GroupState) {
    forall t :: t in g.closing && t in g.sessions ==> g.sessions[t].conn.wrapped.view.closed
  }

  predicate WokenSince(h: Hub, t: Token, i: Interest, w: Waker, mark: nat) {
    h.woken[Wakeup(t, i, w)] > mark
  }

  ghost predicate Covered(g: Groups.GroupState, h: Hub, task: Task, t: Token, i: Interest)
    requires Claimed(i)
  {
    match task
    case Idle => true
    case Trying(w, mark) =>
      && mark <= h.woken[Wakeup(t, i, w)]
      && (WokenSince(h, t, i, w, mark) || HasWaker(h, t, i, w))
    case Waiting(w, mark) =>
      && mark <= h.woken[Wakeup(t, i, w)]
      && (WokenSince(h, t, i, w, mark) || (HasWaker(h, t, i, w) && Promised(g, t, i)))
  }

  ghost predicate TasksInv(s: System) {
    forall t: Token, i: Interest :: Claimed(i) ==> Covered(s.group, s.hub, TaskOf(s, (t, i)), t, i)
  }

  // ---- The hub: what each of its steps does to one task ----

  // A task's registration is kept, or the task is woken.
  ghost predicate HubKeeps(h: Hub, h': Hub, u: Wakeup) {
    && h.woken[u] <= h'.woken[u]
    && (HasWaker(h, u.token, u.interest, u.waker) ==>
          HasWaker(h', u.token, u.interest, u.waker) || h.woken[u] < h'.woken[u])
  }

  // A registered task is woken.
  ghost predicate HubWakes(h: Hub, h': Hub, u: Wakeup) {
    HasWaker(h, u.token, u.interest, u.waker) ==> h.woken[u] < h'.woken[u]
  }

  // Dispatching an event keeps every task registered or wakes it, and wakes those it is for.
  lemma DispatchHub(h: Hub, e: Event, u: Wakeup)
    requires Dispatchable(e.kind)
    ensures HubKeeps(h, Dispatch(h, e), u)
    ensures IsFor(e, u.token, u.interest) ==> HubWakes(h, Dispatch(h, e), u)
  {
    DispatchWakesExactly(h, e, u);
    hide Dispatch;
  }

  // ---- The group: a promise is kept by every step ----

  ghost predicate QueueGrows(g: Groups.GroupState, g': Groups.GroupState) {
    && (forall e :: e in g.ready.events && !e.kind.Send? ==> e in g'.ready.events || e in g'.polled)
    && (forall e :: e in g.polled && !e.kind.Send? && !e.kind.Recv? ==> e in g'.polled)
  }

  lemma AnswerStays(g: Groups.GroupState, g': Groups.GroupState, t: Token, i: Interest)
    requires QueueGrows(g, g') && Answered(g, t, i)
    ensures Answered(g', t, i)
  {
  }

  lemma DischargedAnswers(s: Site, from: nat, i: Interest)
    requires Claimed(i) && Discharged(s, from, EntryOf(i))
    ensures EntryOf(i) in s.conn.retries || exists e :: e in s.ready.events && IsFor(e, s.conn.token, i)
  {
  }

  // One step of connection u keeps every promise, even one made on u itself, and even if the
  // connection closes in it.
  lemma SteppedPromise(g: Groups.GroupState, u: Token, s': Session, ready': Ready, g': Groups.GroupState,
                       t: Token, i: Interest)
    requires u in g.sessions && g.sessions[u].conn.token == u
    requires g'.sessions == g.sessions[u := s'] && g'.ready == ready' && g'.polled == g.polled
    requires Acted(g.sessions[u], g.ready, s', ready')
    requires Claimed(i) && Promised(g, t, i)
    requires t == u && EntryOf(i) in g.sessions[u].conn.retries ==>
      EntryOf(i) in s'.conn.retries || exists e :: e in ready'.events && IsFor(e, t, i)
    ensures Promised(g', t, i)
  {
    if Answered(g, t, i) {
      AnswerStays(g, g', t, i);
    } else if t == u && s'.conn.locker.Unlocked? && s'.conn.wrapped.view.closed {
      ClosedAnswers(g', s', ready', i);
    }
  }

  lemma ClosedAnswers(g: Groups.GroupState, s: Session, ready: Ready, i: Interest)
    requires ClosedRaised(Site(s.conn, ready)) && g.ready == ready
    ensures Answered(g, s.conn.token, i)
  {
    assert IsFor(EventOf(s.conn, EventKind.Closed, false, 0), s.conn.token, i);
  }

  lemma OnConnPromise(g: Groups.GroupState, u: Token, a: Action, t: Token, i: Interest)
    requires Groups.GroupInv(g) && Groups.Enabled(g, Groups.OnConn(u, a))
    requires Claimed(i) && Promised(g, t, i)
    ensures Promised(Groups.Take(g, Groups.OnConn(u, a)), t, i)
  {
    hide Groups.Take, Act, Promised;
    var (s', ready') := Act(g.sessions[u], g.ready, a);
    Groups.OnConnTakes(g, u, a);
    Groups.ActedOnQueue(g, u, a, s', ready');
    ActIsActed(g.sessions[u], g.ready, a);
    assert g.sessions[u].conn.token == u;
    if t == u && EntryOf(i) in g.sessions[u].conn.retries {
      ActKeepsEntry(g.sessions[u], g.ready, a, EntryOf(i));
      if EntryOf(i) !in s'.conn.retries {
        DischargedAnswers(Site(s'.conn, ready'), |g.sessions[u].conn.wrapped.calls|, i);
      }
    }
    hide Groups.GroupInv, Groups.ActedOn, Acted;
    SteppedPromise(g, u, s', ready', Groups.ActedOn(g, u, a, s', ready'), t, i);
  }

  lemma WithSessionPromise(g: Groups.GroupState, u: Token, s: Session, ready: Ready, scid: ConnectionId, c: Conn,
                           t: Token, i: Interest)
    requires u !in g.sessions && QueueLater(c, g.ready, ready)
    requires Claimed(i) && Promised(g, t, i)
    ensures Promised(Groups.WithSession(g, u, s, ready, scid), t, i)
  {
  }

  lemma RegisterPromise(g: Groups.GroupState, s: Groups.Step, t: Token, i: Interest)
    requires Groups.GroupInv(g) && s.Register? && Groups.Enabled(g, s)
    requires Claimed(i) && Promised(g, t, i)
    ensures Promised(Groups.Take(g, s), t, i)
  {
    Groups.RegisteredFacts(s.token, s.q, g.ready, s.now);
    var (session, ready) := Groups.Registered(s.token, s.q, g.ready, s.now);
    WithSessionPromise(g, s.token, session, ready, s.q.sourceId, NewConn(s.token, s.q), t, i);
  }

  // A lock attempt by `send` or by a parking receiver.
  lemma RefusalPromise(g: Groups.GroupState, u: Token, g': Groups.GroupState, t: Token, i: Interest)
    requires Groups.GroupInv(g) && u in g.sessions
    requires Claimed(i) && Promised(g, t, i) && QueueGrows(g, g')
    requires Allowed(g.sessions[u], TryLocking(LocKind.Recv))
    requires g'.sessions == g.sessions[u := Prepare(g.sessions[u], TryLocking(LocKind.Recv)).session]
    ensures Promised(g', t, i)
  {
    hide Prepare, Promised, QueueGrows;
    PrepareKeepsInv(g.sessions[u], TryLocking(LocKind.Recv));
    hide SessionInv, Groups.GroupInv;
    HeldPromise(g, u, Prepare(g.sessions[u], TryLocking(LocKind.Recv)).session, g', t, i);
  }

  lemma HeldPromise(g: Groups.GroupState, u: Token, s': Session, g': Groups.GroupState, t: Token, i: Interest)
    requires u in g.sessions && g'.sessions == g.sessions[u := s']
    requires g.sessions[u].conn.retries <= s'.conn.retries && !s'.conn.locker.Unlocked?
    requires Claimed(i) && Promised(g, t, i) && QueueGrows(g, g')
    ensures Promised(g', t, i)
  {
    if Answered(g, t, i) {
      AnswerStays(g, g', t, i);
    }
  }

  lemma PollPromise(g: Groups.GroupState, now: Time, t: Token, i: Interest)
    requires Groups.GroupInv(g) && Claimed(i) && Promised(g, t, i)
    ensures Promised(Groups.Take(g, Groups.PollAll(now)), t, i)
  {
  }

  lemma SamePromise(g: Groups.GroupState, g': Groups.GroupState, t: Token, i: Interest)
    requires g'.sessions == g.sessions && QueueGrows(g, g') && Claimed(i) && Promised(g, t, i)
    ensures Promised(g', t, i)
  {
  }

  lemma ParksPromise(g: Groups.GroupState, s: Groups.Step, t: Token, i: Interest)
    requires Groups.GroupInv(g) && Groups.Enabled(g, s) && s.ReceiverParks?
    requires Claimed(i) && Promised(g, t, i)
    ensures Promised(Groups.Take(g, s), t, i)
  {
    hide Groups.Take, Act, Prepare, Promised;
    Groups.ParksTakes(g, s.token, s.unparker);
    Groups.AttemptActs(g, s.token);
    RefusalPromise(g, s.token, Groups.Take(g, s), t, i);
  }

  lemma TrySendPromise(g: Groups.GroupState, s: Groups.Step, t: Token, i: Interest)
    requires Groups.GroupInv(g) && Groups.Enabled(g, s) && s.TrySend?
    requires Claimed(i) && Promised(g, t, i)
    ensures Promised(Groups.Take(g, s), t, i)
  {
    hide Groups.Take, Act, Prepare, Promised;
    Groups.TrySendTakes(g, s.event);
    if s.event.token in g.sessions {
      Groups.AttemptActs(g, s.event.token);
      RefusalPromise(g, s.event.token, Groups.Take(g, s), t, i);
    } else {
      SamePromise(g, Groups.Take(g, s), t, i);
    }
  }

  // The automatic deregistration breaks no promise: a closed connection that nobody holds has
  // announced its closure.
  lemma ExpirePromise(g: Groups.GroupState, u: Token, t: Token, i: Interest)
    requires Groups.GroupInv(g) && ClosingInv(g) && Groups.Enabled(g, Groups.Expire(u))
    requires Claimed(i) && Promised(g, t, i)
    ensures Promised(Groups.Take(g, Groups.Expire(u)), t, i)
  {
    hide Groups.Take, Promised, SessionInv, ClosingInv;
    Groups.ExpireTakes(g, u);
    ExpiringIsFree(g, u);
    hide Groups.GroupInv;
    GonePromise(g, u, Groups.Take(g, Groups.Expire(u)), t, i);
  }

  lemma ExpiringIsFree(g: Groups.GroupState, u: Token)
    requires Groups.GroupInv(g) && ClosingInv(g) && Groups.Enabled(g, Groups.Expire(u))
    ensures u in g.sessions ==> g.sessions[u].conn.locker.Unlocked? && g.sessions[u].conn.wrapped.view.closed
  {
    if u in g.sessions {
      assert LockInv(g.sessions[u]) && |g.sessions[u].guards| == 0;
    }
  }

  lemma GonePromise(g: Groups.GroupState, u: Token, g': Groups.GroupState, t: Token, i: Interest)
    requires g'.sessions == g.sessions - {u} && g'.ready == g.ready && g'.polled == g.polled
    requires u in g.sessions ==> g.sessions[u].conn.locker.Unlocked? && g.sessions[u].conn.wrapped.view.closed
    requires Claimed(i) && Promised(g, t, i)
    ensures Promised(g', t, i)
  {
    if Answered(g, t, i) {
      AnswerStays(g, g', t, i);
    }
  }

  lemma DropOrHandlePromise(g: Groups.GroupState, s: Groups.Step, t: Token, i: Interest)
    requires Groups.GroupInv(g) && Groups.Enabled(g, s) && (s.DropScid? || (s.Handle? && s.event.kind.Recv?))
    requires Claimed(i) && Promised(g, t, i)
    ensures Promised(Groups.Take(g, s), t, i)
  {
  }

  lemma GroupStepPromise(g: Groups.GroupState, s: Groups.Step, t: Token, i: Interest)
    requires Groups.GroupInv(g) && ClosingInv(g)
    requires Groups.Enabled(g, s) && !s.TakeOut? && (s.Handle? ==> s.event.kind.Recv?)
    requires Claimed(i) && Promised(g, t, i)
    ensures Promised(Groups.Take(g, s), t, i)
  {
    hide Groups.Take, Groups.Enabled, Groups.GroupInv, Promised;
    match s
    case Register(_, _, _) => RegisterPromise(g, s, t, i);
    case OnConn(u, a) => OnConnPromise(g, u, a, t, i);
    case ReceiverParks(_, _) => ParksPromise(g, s, t, i);
    case Expire(u) => ExpirePromise(g, u, t, i);
    case DropScid(_) => DropOrHandlePromise(g, s, t, i);
    case PollAll(now) => PollPromise(g, now, t, i);
    case TrySend(_) => TrySendPromise(g, s, t, i);
    case Handle(_) => DropOrHandlePromise(g, s, t, i);
  }

  // ---- A refused task leaves its request behind ----

  // `open` that returns Busy or Retry leaves its request in the ledger, or its event is raised.
  lemma RefusedOpenPromises(s: Session, ready: Ready, a: Action)
    requires SessionInv(s) && Allowed(s, a) && a.OpenStream?
    requires var reply := OpenNow(s.conn, a.kind, a.nonBlocking).1; reply.OpenBusy? || reply.OpenRetry?
    ensures var (s', ready') := Act(s, ready, a);
      StreamOpen(a.kind) in s'.conn.retries
      || Discharged(Site(s'.conn, ready'), |s.conn.wrapped.calls|, StreamOpen(a.kind))
  {
    OpenNowNotes(s.conn, a.kind, a.nonBlocking);
    assert StreamOpen(a.kind) in Prepare(s, a).session.conn.retries;
    hide OpenNow;
    var p := Prepare(s, a);
    PrepareKeepsInv(s, a);
    if p.leaving.Some? {
      UnlockReleases(Site(p.session.conn, ready), p.leaving.value.sendDone, a.order, a.now);
      assert StreamOpen(a.kind) in Elements(a.order);
    }
    hide Prepare, Unlock;
  }

  lemma OpenNowNotes(c: Conn, kind: StreamKind, nonBlocking: bool)
    ensures var (c', reply) := OpenNow(c, kind, nonBlocking);
      reply.OpenBusy? || reply.OpenRetry? ==> StreamOpen(kind) in c'.retries
  {
  }

  lemma EntryPromises(g: Groups.GroupState, t: Token, s': Session, ready': Ready, from: nat, i: Interest)
    requires s'.conn.token == t && Claimed(i)
    requires EntryOf(i) in s'.conn.retries || Discharged(Site(s'.conn, ready'), from, EntryOf(i))
    requires s'.conn.locker.Unlocked? && s'.conn.wrapped.view.closed ==> ClosedRaised(Site(s'.conn, ready'))
    ensures Promised(Groups.Updated(g, t, s', ready'), t, i)
  {
    var g' := Groups.Updated(g, t, s', ready');
    if s'.conn.locker.Unlocked? && s'.conn.wrapped.view.closed {
      ClosedAnswers(g', s', ready', i);
    } else if EntryOf(i) !in s'.conn.retries {
      DischargedAnswers(Site(s'.conn, ready'), from, i);
    }
  }

  lemma TryOpenPromises(g: Groups.GroupState, t: Token, a: Action)
    requires Groups.GroupInv(g) && t in g.sessions && Allowed(g.sessions[t], a) && a.OpenStream?
    requires var reply := OpenNow(g.sessions[t].conn, a.kind, a.nonBlocking).1; reply.OpenBusy? || reply.OpenRetry?
    ensures Promised(Groups.Take(g, Groups.OnConn(t, a)), t, OpenInterest(a.kind))
  {
    hide Groups.Take, Act, Promised, OpenNow;
    var (s', ready') := Act(g.sessions[t], g.ready, a);
    Groups.OnConnTakes(g, t, a);
    RefusedOpenPromises(g.sessions[t], g.ready, a);
    ActIsActed(g.sessions[t], g.ready, a);
    EntryPromises(g, t, s', ready', |g.sessions[t].conn.wrapped.calls|, OpenInterest(a.kind));
  }

  lemma TryRecvPromises(g: Groups.GroupState, t: Token, id: nat)
    requires Groups.GroupInv(g) && t in g.sessions
    requires !TryLock(g.sessions[t].conn, LocKind.StreamRecv(id)).1
    ensures Groups.Enabled(g, Groups.OnConn(t, TryLocking(LocKind.StreamRecv(id))))
    ensures Promised(Groups.Take(g, Groups.OnConn(t, TryLocking(LocKind.StreamRecv(id)))), t, ToRecv(id))
  {
    hide Act, SessionInv, Promised, Groups.Take, Allowed, TryLock;
    var s, a := g.sessions[t], TryLocking(LocKind.StreamRecv(id));
    RecvEnabled(g, t, id);
    hide Groups.GroupInv, Groups.Enabled, Groups.Orderly;
    RefusedLockPromises(s, g.ready, a);
    Groups.OnConnTakes(g, t, a);
    EntryPromises(g, t, Act(s, g.ready, a).0, g.ready, 0, ToRecv(id));
  }

  lemma RecvEnabled(g: Groups.GroupState, t: Token, id: nat)
    requires Groups.GroupInv(g) && t in g.sessions
    ensures var a := TryLocking(LocKind.StreamRecv(id));
      && Groups.Enabled(g, Groups.OnConn(t, a)) && Groups.ConnsOk(g)
      && SessionInv(g.sessions[t]) && Allowed(g.sessions[t], a) && g.sessions[t].conn.token == t
  {
    hide SessionInv, Allowed;
    RecvAllowed(g.sessions[t], id);
  }

  lemma RefusedLockPromises(s: Session, ready: Ready, a: Action)
    requires SessionInv(s) && Allowed(s, a) && a.TryLocking? && NeedRetry(a.lock) && !TryLock(s.conn, a.lock).1
    ensures var (s', ready') := Act(s, ready, a);
      && s'.conn.token == s.conn.token && a.lock in s'.conn.retries && ready' == ready
      && !s'.conn.locker.Unlocked?
  {
  }

  // ---- Every step of the system keeps every task covered ----

  lemma CoveredByGroup(s: System, g': Groups.GroupState, t: Token, i: Interest)
    requires Claimed(i) && Covered(s.group, s.hub, TaskOf(s, (t, i)), t, i)
    requires Promised(s.group, t, i) ==> Promised(g', t, i)
    ensures Covered(g', s.hub, TaskOf(s, (t, i)), t, i)
  {
  }

  lemma CoveredByHub(g: Groups.GroupState, h: Hub, h': Hub, task: Task, t: Token, i: Interest)
    requires Claimed(i) && Covered(g, h, task, t, i)
    requires !task.Idle? ==> HubKeeps(h, h', Wakeup(t, i, task.waker))
    ensures Covered(g, h', task, t, i)
  {
  }

  // Handling one event: the tasks it answers are woken, the promises to the others stand.
  lemma HandledPromise(g: Groups.GroupState, e: Event, t: Token, i: Interest)
    requires Claimed(i) && Promised(g, t, i) && !IsFor(e, t, i)
    ensures Promised(g.(polled := g.polled - multiset{e}), t, i)
  {
  }

  lemma CoveredByDispatch(g: Groups.GroupState, h: Hub, e: Event, task: Task, t: Token, i: Interest)
    requires Dispatchable(e.kind) && Claimed(i) && Covered(g, h, task, t, i)
    ensures Covered(g.(polled := g.polled - multiset{e}), Dispatch(h, e), task, t, i)
  {
    hide Dispatch;
    if !task.Idle? {
      DispatchHub(h, e, Wakeup(t, i, task.waker));
      if Promised(g, t, i) && !IsFor(e, t, i) {
        HandledPromise(g, e, t, i);
      }
    }
  }

  lemma GroupStepKeepsTasks(s: System, step: Step)
    requires Groups.GroupInv(s.group) && ClosingInv(s.group) && TasksInv(s) && step.InGroup? && Enabled(s, step)
    ensures TasksInv(Take(s, step))
  {
    forall t: Token, i: Interest | Claimed(i)
      ensures Covered(Take(s, step).group, s.hub, TaskOf(s, (t, i)), t, i)
    {
      if Promised(s.group, t, i) {
        GroupStepPromise(s.group, step.step, t, i);
      }
      CoveredByGroup(s, Take(s, step).group, t, i);
    }
  }

  // After trying its operation a task is done, or waits for what it was promised.
  lemma CoveredAfterTry(s: System, g': Groups.GroupState, t0: Token, i0: Interest, task': Task, t: Token, i: Interest)
    requires Claimed(i) && Claimed(i0) && Covered(s.group, s.hub, TaskOf(s, (t, i)), t, i)
    requires Covered(s.group, s.hub, TaskOf(s, (t0, i0)), t0, i0)
    requires Promised(s.group, t, i) ==> Promised(g', t, i)
    requires var task := TaskOf(s, (t0, i0));
      task'.Idle? || (task.Trying? && task' == Waiting(task.waker, task.mark) && Promised(g', t0, i0))
    ensures Covered(g', s.hub, TaskOf(s.(tasks := s.tasks[(t0, i0) := task']), (t, i)), t, i)
  {
  }

  lemma TriedKeepsTasks(s: System, t0: Token, a: Action, i0: Interest, task': Task)
    requires Groups.GroupInv(s.group) && TasksInv(s) && Claimed(i0)
    requires Groups.Enabled(s.group, Groups.OnConn(t0, a))
    requires var task := TaskOf(s, (t0, i0));
      || task'.Idle?
      || (task.Trying? && task' == Waiting(task.waker, task.mark)
          && Promised(Groups.Take(s.group, Groups.OnConn(t0, a)), t0, i0))
    ensures TasksInv(s.(group := Groups.Take(s.group, Groups.OnConn(t0, a)), tasks := s.tasks[(t0, i0) := task']))
  {
    var g' := Groups.Take(s.group, Groups.OnConn(t0, a));
    forall t: Token, i: Interest | Claimed(i)
      ensures Covered(g', s.hub, TaskOf(s.(tasks := s.tasks[(t0, i0) := task']), (t, i)), t, i)
    {
      if Promised(s.group, t, i) {
        OnConnPromise(s.group, t0, a, t, i);
      }
      CoveredAfterTry(s, g', t0, i0, task', t, i);
    }
  }

  lemma TryOpenKeepsTasks(s: System, step: Step)
    requires Groups.GroupInv(s.group) && TasksInv(s) && step.TryOpen? && Enabled(s, step)
    ensures TasksInv(Take(s, step))
  {
    var t, i := step.token, OpenInterest(step.kind);
    if t in s.group.sessions {
      var a := OpenStream(step.kind, step.nonBlocking, step.order, step.now);
      var reply := OpenNow(s.group.sessions[t].conn, step.kind, step.nonBlocking).1;
      if reply.OpenBusy? || reply.OpenRetry? {
        TryOpenPromises(s.group, t, a);
      }
      TriedKeepsTasks(s, t, a, i, TaskOf(Take(s, step), (t, i)));
    }
  }

  lemma TryRecvKeepsTasks(s: System, step: Step)
    requires Groups.GroupInv(s.group) && TasksInv(s) && step.TryRecv? && Enabled(s, step)
    ensures TasksInv(Take(s, step))
  {
    var t, i := step.token, ToRecv(step.id);
    if t in s.group.sessions {
      var a := TryLocking(LocKind.StreamRecv(step.id));
      assert Groups.Enabled(s.group, Groups.OnConn(t, a));
      if !TryLock(s.group.sessions[t].conn, a.lock).1 {
        TryRecvPromises(s.group, t, step.id);
      }
      TriedKeepsTasks(s, t, a, i, TaskOf(Take(s, step), (t, i)));
    }
  }

  lemma HubStepKeepsTasks(s: System, step: Step)
    requires Groups.GroupInv(s.group) && TasksInv(s) && Enabled(s, step)
    requires step.Finish? || step.Accepting? || step.AcceptingConn? || step.Awaiting?
    ensures TasksInv(Take(s, step))
  {
    var s' := Take(s, step);
    hide Groups.GroupInv, Groups.Take, Groups.Enabled, Dispatch, OpenNow, TryLock, Covered;
    forall t: Token, i: Interest | Claimed(i)
      ensures Covered(s'.group, s'.hub, TaskOf(s', (t, i)), t, i)
    {
      CoveredByHub(s.group, s.hub, s'.hub, TaskOf(s, (t, i)), t, i);
    }
  }

  lemma BeginKeepsTasks(s: System, step: Step)
    requires Groups.GroupInv(s.group) && TasksInv(s) && step.Begin? && Enabled(s, step)
    ensures TasksInv(Take(s, step))
  {
  }

  lemma DispatchTakes(s: System, e: Event)
    requires Groups.ConnsOk(s.group) && Enabled(s, DispatchEvent(e))
    ensures Dispatchable(e.kind)
    ensures var s' := Take(s, DispatchEvent(e));
      && s'.group == s.group.(polled := s.group.polled - multiset{e})
      && s'.hub == Dispatch(s.hub, e) && s'.tasks == s.tasks && s'.handed == s.handed && s'.listener == s.listener
  {
    hide Groups.Take, Groups.ConnsOk, Dispatch;
    Groups.HandleTakes(s.group, e);
  }

  lemma DispatchKeepsTasks(s: System, step: Step)
    requires Groups.GroupInv(s.group) && TasksInv(s) && step.DispatchEvent? && Enabled(s, step)
    ensures TasksInv(Take(s, step))
  {
    hide Take, Dispatch, Covered;
    var s', e := Take(s, step), step.event;
    DispatchTakes(s, e);
    hide Groups.GroupInv, Enabled;
    forall t: Token, i: Interest | Claimed(i)
      ensures Covered(s'.group, s'.hub, TaskOf(s', (t, i)), t, i)
    {
      CoveredByDispatch(s.group, s.hub, e, TaskOf(s, (t, i)), t, i);
    }
  }

  lemma ShuttingKeepsTasks(s: System, step: Step)
    requires Groups.GroupInv(s.group) && TasksInv(s) && step.ShuttingStream? && Enabled(s, step)
    ensures TasksInv(Take(s, step))
  {
    forall t: Token, i: Interest | Claimed(i)
      ensures Covered(s.group, ShutStream(s.hub, step.token, step.id), TaskOf(s, (t, i)), t, i)
    {
      var task := TaskOf(s, (t, i));
      if !task.Idle? {
        ShutWakesExactly(s.hub, step.token, step.id, Wakeup(t, i, task.waker));
      }
      CoveredByHub(s.group, s.hub, ShutStream(s.hub, step.token, step.id), task, t, i);
    }
  }

  lemma StepKeepsTasks(s: System, step: Step)
    requires Groups.GroupInv(s.group) && ClosingInv(s.group) && TasksInv(s) && Enabled(s, step)
    ensures TasksInv(Take(s, step))
  {
    hide Take, Enabled, TasksInv, Groups.GroupInv;
    match step
    case InGroup(_) => GroupStepKeepsTasks(s, step);
    case TryOpen(_, _, _, _, _) => TryOpenKeepsTasks(s, step);
    case TryRecv(_, _) => TryRecvKeepsTasks(s, step);
    case DispatchEvent(_) => DispatchKeepsTasks(s, step);
    case Begin(_, _, _) => BeginKeepsTasks(s, step);
    case Finish(_, _) => HubStepKeepsTasks(s, step);
    case Accepting(_, _) => HubStepKeepsTasks(s, step);
    case AcceptingConn(_) => HubStepKeepsTasks(s, step);
    case Awaiting(_, _) => HubStepKeepsTasks(s, step);
    case ShuttingStream(_, _) => ShuttingKeepsTasks(s, step);
  }

  // ---- Automatic deregistration is for closed connections ----

  lemma OnConnKeepsClosing(g: Groups.GroupState, t: Token, a: Action)
    requires Groups.GroupInv(g) && ClosingInv(g) && Groups.Enabled(g, Groups.OnConn(t, a))
    ensures ClosingInv(Groups.Take(g, Groups.OnConn(t, a)))
  {
    hide Groups.Take, Act;
    var (s', ready') := Act(g.sessions[t], g.ready, a);
    Groups.OnConnTakes(g, t, a);
    Groups.ActedOnQueue(g, t, a, s', ready');
    ActIsActed(g.sessions[t], g.ready, a);
    hide Groups.ActedOn, Groups.GroupInv;
  }

  lemma AttemptKeepsClosing(g: Groups.GroupState, u: Token, g': Groups.GroupState)
    requires Groups.GroupInv(g) && ClosingInv(g) && u in g.sessions
    requires g'.sessions == g.sessions[u := Prepare(g.sessions[u], TryLocking(LocKind.Recv)).session]
    requires g'.closing == g.closing
    ensures ClosingInv(g')
  {
    Groups.AttemptActs(g, u);
    PrepareKeepsInv(g.sessions[u], TryLocking(LocKind.Recv));
    hide Prepare, SessionInv;
  }

  lemma RegisterKeepsClosing(g: Groups.GroupState, s: Groups.Step)
    requires Groups.GroupInv(g) && ClosingInv(g) && s.Register? && Groups.Enabled(g, s) && s.token !in g.closing
    ensures ClosingInv(Groups.Take(g, s))
  {
    hide Groups.Registered, SessionInv;
  }

  lemma QueueStepKeepsClosing(g: Groups.GroupState, s: Groups.Step)
    requires Groups.GroupInv(g) && ClosingInv(g) && Groups.Enabled(g, s) && (s.DropScid? || s.PollAll? || s.Handle?)
    ensures ClosingInv(Groups.Take(g, s))
  {
    hide Act, SessionInv;
  }

  lemma GroupStepKeepsClosing(g: Groups.GroupState, s: Groups.Step)
    requires Groups.GroupInv(g) && ClosingInv(g) && Groups.Enabled(g, s) && !s.TakeOut?
    requires s.Register? ==> s.token !in g.closing
    ensures ClosingInv(Groups.Take(g, s))
  {
    hide Groups.Take, ClosingInv, Prepare, SessionInv;
    match s
    case Register(_, _, _) => RegisterKeepsClosing(g, s);
    case OnConn(t, a) => OnConnKeepsClosing(g, t, a);
    case ReceiverParks(t, unparker) =>
      Groups.ParksTakes(g, t, unparker);
      AttemptKeepsClosing(g, t, Groups.Take(g, s));
    case Expire(t) => ExpireKeepsClosing(g, t);
    case TrySend(e) => TrySendKeepsClosing(g, e);
    case _ => QueueStepKeepsClosing(g, s);
  }

  lemma TrySendKeepsClosing(g: Groups.GroupState, e: Event)
    requires Groups.GroupInv(g) && ClosingInv(g) && Groups.Enabled(g, Groups.TrySend(e))
    ensures ClosingInv(Groups.Take(g, Groups.TrySend(e)))
  {
    hide Groups.Take, Prepare, SessionInv;
    Groups.TrySendTakes(g, e);
    if e.token in g.sessions {
      AttemptKeepsClosing(g, e.token, Groups.Take(g, Groups.TrySend(e)));
    }
  }

  lemma ExpireKeepsClosing(g: Groups.GroupState, t: Token)
    requires Groups.GroupInv(g) && ClosingInv(g) && Groups.Enabled(g, Groups.Expire(t))
    ensures ClosingInv(Groups.Take(g, Groups.Expire(t)))
  {
    hide Groups.Take, SessionInv;
    Groups.ExpireTakes(g, t);
  }

  lemma StepKeepsClosing(s: System, step: Step)
    requires Groups.GroupInv(s.group) && ClosingInv(s.group) && Enabled(s, step)
    ensures ClosingInv(Take(s, step).group)
  {
    hide ClosingInv, Groups.GroupInv, Groups.Take;
    match step
    case InGroup(g) => GroupStepKeepsClosing(s.group, g);
    case TryOpen(_, _, _, _, _) => TryKeepsClosing(s, step);
    case TryRecv(_, _) => TryKeepsClosing(s, step);
    case DispatchEvent(e) => GroupStepKeepsClosing(s.group, Groups.Handle(e));
    case _ =>
  }

  lemma TryKeepsClosing(s: System, step: Step)
    requires Groups.GroupInv(s.group) && ClosingInv(s.group) && Enabled(s, step) && (step.TryOpen? || step.TryRecv?)
    ensures ClosingInv(Take(s, step).group)
  {
    TryTakes(s, step);
    hide ClosingInv, Take, Enabled, Groups.Take, Groups.GroupInv, Groups.Enabled;
    if step.token in s.group.sessions {
      OnConnKeepsClosing(s.group, step.token, Tried(step));
    }
  }

  lemma StepKeepsGroup(s: System, step: Step)
    requires Groups.GroupInv(s.group) && Enabled(s, step)
    ensures Groups.GroupInv(Take(s, step).group)
  {
    if step.TryOpen? || step.TryRecv? {
      TryTakes(s, step);
      hide Take, Enabled, Groups.Take, Groups.GroupInv;
      if step.token in s.group.sessions {
        Groups.StepKeepsInv(s.group, Groups.OnConn(step.token, Tried(step)));
      }
    } else if step.InGroup? {
      Groups.StepKeepsInv(s.group, step.step);
      hide Groups.GroupInv, Groups.Take;
    } else if step.DispatchEvent? {
      Groups.StepKeepsInv(s.group, Groups.Handle(step.event));
      hide Groups.GroupInv, Groups.Take;
    }
  }

}
