// Whole runs of the two layers together: any interleaving of tasks, lock holders, pollers and
// the dispatch loop.
module SystemRuns {
  import opened Api
  import opened Readiness
  import opened QuicheLib
  import opened Conns
  import opened Releases
  import opened Sessions
  import Groups
  import opened ReadEvents
  import opened Futures
  import opened Systems
  import opened Accepts
  import opened Arrivals

  ghost predicate SystemInv(s: System) {
    && Groups.GroupInv(s.group) && ClosingInv(s.group) && NoReads(s.group)
    && TasksInv(s) && NothingMissed(s.hub) && ArrivalsInv(s)
  }

  lemma StepKeepsNoReads(s: System, step: Step)
    requires Groups.GroupInv(s.group) && NoReads(s.group) && Enabled(s, step)
    ensures NoReads(Take(s, step).group)
  {
    hide NoReads, Groups.GroupInv, Groups.Take;
    match step
    case InGroup(g) => StepRaisesNoRead(s.group, g);
    case TryOpen(_, _, _, _, _) => TryKeepsNoReads(s, step);
    case TryRecv(_, _) => TryKeepsNoReads(s, step);
    case DispatchEvent(e) => StepRaisesNoRead(s.group, Groups.Handle(e));
    case _ =>
  }

  lemma TryKeepsNoReads(s: System, step: Step)
    requires Groups.GroupInv(s.group) && NoReads(s.group) && Enabled(s, step) && (step.TryOpen? || step.TryRecv?)
    ensures NoReads(Take(s, step).group)
  {
    TryTakes(s, step);
    hide Take, Enabled, NoReads, Groups.Take, Groups.GroupInv;
    if step.token in s.group.sessions {
      StepRaisesNoRead(s.group, Groups.OnConn(step.token, Tried(step)));
    }
  }

  lemma StepKeepsSystem(s: System, step: Step)
    requires SystemInv(s) && Enabled(s, step)
    ensures SystemInv(Take(s, step))
  {
    StepKeepsGroup(s, step);
    StepKeepsNoReads(s, step);
    StepKeepsClosing(s, step);
    StepKeepsTasks(s, step);
    StepMissesNothing(s, step);
    StepKeepsArrivals(s, step);
    hide Take, Enabled, Groups.GroupInv, TasksInv, ClosingInv, NoReads, NothingMissed, ArrivalsInv;
  }

  lemma GroupStepLeavesHub(s: System, step: Step)
    requires Groups.GroupInv(s.group) && Enabled(s, step) && (step.InGroup? || step.TryOpen? || step.TryRecv?)
    ensures Take(s, step).hub == s.hub
  {
  }

  lemma HubStepMissesNothing(s: System, step: Step, t: Token)
    requires Groups.GroupInv(s.group) && NothingMissedBy(s.hub, t) && Enabled(s, step)
    requires !step.InGroup? && !step.TryOpen? && !step.TryRecv?
    ensures NothingMissedBy(Take(s, step).hub, t)
  {
    if step.DispatchEvent? {
      DispatchMissesNothing(s.hub, step.event, t);
      hide Dispatch;
    } else if step.Accepting? {
      TakingMissesNothing(s.hub, step.token, step.waker, t);
      hide AcceptStream;
    } else {
      WakerStepMissesNothing(s, step, t);
      hide Take;
    }
  }

  lemma WakerStepMissesNothing(s: System, step: Step, t: Token)
    requires Groups.GroupInv(s.group) && NothingMissedBy(s.hub, t) && Enabled(s, step)
    requires step.Begin? || step.Finish? || step.AcceptingConn? || step.Awaiting? || step.ShuttingStream?
    ensures NothingMissedBy(Take(s, step).hub, t)
  {
    hide Groups.Take, Groups.Enabled, Groups.GroupInv, Dispatch, AcceptStream, OpenNow, TryLock;
    hide NothingMissedBy, AcceptConn, AwaitEstablished, Register, Unregister, ShutStream;
    match step
    case AcceptingConn(w) => TakingMissesNothing(s.hub, 0, w, t);
    case Awaiting(u, w) => TakingMissesNothing(s.hub, u, w, t);
    case Begin(u, i, w) => WakersMissNothing(s.hub, u, i, w, t);
    case Finish(u, i) => WakersMissNothing(s.hub, u, i, 0, t);
    case ShuttingStream(u, id) => ShutMissesNothing(s.hub, u, id, t);
  }

  lemma StepMissesNothing(s: System, step: Step)
    requires Groups.GroupInv(s.group) && NothingMissed(s.hub) && Enabled(s, step)
    ensures NothingMissed(Take(s, step).hub)
  {
    var h' := Take(s, step).hub;
    hide Take, Enabled, Groups.GroupInv, NothingMissedBy;
    forall t: Token
      ensures NothingMissedBy(h', t)
    {
      assert NothingMissedBy(s.hub, t);
      if step.InGroup? || step.TryOpen? || step.TryRecv? {
        GroupStepLeavesHub(s, step);
      } else {
        HubStepMissesNothing(s, step, t);
      }
    }
  }

  ghost predicate Runs(s: System, steps: seq<Step>)
    requires SystemInv(s)
    decreases |steps|
  {
    steps != [] ==> Enabled(s, steps[0]) && (StepKeepsSystem(s, steps[0]); Runs(Take(s, steps[0]), steps[1..]))
  }

  ghost function After(s: System, steps: seq<Step>): (s': System)
    requires SystemInv(s) && Runs(s, steps)
    ensures SystemInv(s')
    decreases |steps|
  {
    if steps == [] then s
    else
      StepKeepsSystem(s, steps[0]);
      After(Take(s, steps[0]), steps[1..])
  }

  ghost function Start(): (s: System)
    ensures SystemInv(s)
  {
    System(Groups.GroupState(0, map[], map[], Ready({}, map[]), map[], [], map[], multiset{}, map[], multiset{}, multiset{}),
           Hub(Option.None, map[], [], {}, map[], multiset{}, 0), map[], map[], map[], Option.None)
  }

  // ---- No task is stranded ----

  // In every reachable state a task that was left waiting in `open` or `recv` has been woken
  // since its poll began, or its waker is registered, and its request is in the ledger of its
  // connection or an event that answers it, or `Closed`, is queued or about to be dispatched.
  lemma NoStrandedTask(steps: seq<Step>, t: Token, i: Interest)
    requires Runs(Start(), steps) && Claimed(i)
    requires TaskOf(After(Start(), steps), (t, i)).Waiting?
    ensures var s := After(Start(), steps);
      var task := TaskOf(s, (t, i));
      || s.hub.woken[Wakeup(t, i, task.waker)] > task.mark
      || (&& t in s.hub.wakers && i in s.hub.wakers[t] && s.hub.wakers[t][i] == task.waker
          && (|| (t in s.group.sessions && EntryOf(i) in s.group.sessions[t].conn.retries)
              || exists e :: (e in s.group.ready.events || e in s.group.polled) && IsFor(e, t, i)))
  {
  }

  // All locks free, nothing ready, nothing polled that would be dispatched.
  ghost predicate AtRest(s: System) {
    && (forall t :: t in s.group.sessions ==> s.group.sessions[t].conn.locker.Unlocked?)
    && s.group.ready.events == {}
    && (forall e :: e in s.group.polled ==> !Dispatchable(e.kind))
  }

  // Whenever the system is at rest, every task left waiting has been woken, but for those that
  // wait to open a stream on an open connection without credit for it.
  lemma AtRestOnlyCreditIsAwaited(steps: seq<Step>, t: Token, i: Interest)
    requires Runs(Start(), steps) && Claimed(i) && AtRest(After(Start(), steps))
    requires TaskOf(After(Start(), steps), (t, i)).Waiting?
    ensures var s := After(Start(), steps);
      var task := TaskOf(s, (t, i));
      || s.hub.woken[Wakeup(t, i, task.waker)] > task.mark
      || (&& !i.ToRecv? && t in s.group.sessions && !s.group.sessions[t].conn.wrapped.view.closed
          && s.group.sessions[t].conn.wrapped.StreamsLeft(EntryOf(i).kind) == 0)
  {
    AtRestAwaitsCredit(After(Start(), steps), t, i);
    hide Runs, After;
  }

  lemma AtRestAwaitsCredit(s: System, t: Token, i: Interest)
    requires SystemInv(s) && Claimed(i) && AtRest(s) && TaskOf(s, (t, i)).Waiting?
    ensures var task := TaskOf(s, (t, i));
      || s.hub.woken[Wakeup(t, i, task.waker)] > task.mark
      || (&& !i.ToRecv? && t in s.group.sessions && !s.group.sessions[t].conn.wrapped.view.closed
          && s.group.sessions[t].conn.wrapped.StreamsLeft(EntryOf(i).kind) == 0)
  {
    hide NoReads, ClosingInv, NothingMissed, Answered;
    assert Covered(s.group, s.hub, TaskOf(s, (t, i)), t, i);
    NothingAnswersAtRest(s, t, i);
    if InLedger(s.group, t, i) {
      OnlyCreditIsAwaited(s.group, t, i);
    }
  }

  lemma NothingAnswersAtRest(s: System, t: Token, i: Interest)
    requires AtRest(s) && Claimed(i)
    ensures !Answered(s.group, t, i)
  {
  }

  lemma OnlyCreditIsAwaited(g: Groups.GroupState, t: Token, i: Interest)
    requires Groups.GroupInv(g) && Claimed(i) && InLedger(g, t, i) && g.sessions[t].conn.locker.Unlocked?
    ensures !i.ToRecv? && !g.sessions[t].conn.wrapped.view.closed
    ensures g.sessions[t].conn.wrapped.StreamsLeft(EntryOf(i).kind) == 0
  {
    assert OnlyStarvedOpens(g.sessions[t].conn);
  }

  // The way from the ledger to the waker: the next release of the connection raises the event
  // of a waiting receiver, and that of a waiting opener if it leaves credit for its kind;
  // if the connection closes it raises `Closed` ..
  lemma ReleaseAnswers(g: Groups.GroupState, t: Token, a: Action, i: Interest)
    requires Groups.GroupInv(g) && Groups.Enabled(g, Groups.OnConn(t, a)) && a.Release?
    requires Claimed(i) && EntryOf(i) in g.sessions[t].conn.retries
    ensures var s' := Act(g.sessions[t], g.ready, a).0;
      || (exists e :: e in Groups.Take(g, Groups.OnConn(t, a)).ready.events && IsFor(e, t, i))
      || (EntryOf(i).StreamOpen? && s'.conn.wrapped.StreamsLeft(EntryOf(i).kind) == 0 && !s'.conn.wrapped.view.closed)
  {
    var (s', ready') := Act(g.sessions[t], g.ready, a);
    assert Groups.ActedOn(g, t, a, s', ready').ready == ready';
    ReleaseDischarges(g.sessions[t], g.ready, a, EntryOf(i));
    hide Act, Groups.ActedOn;
    if s'.conn.wrapped.view.closed {
      assert IsFor(EventOf(s'.conn, EventKind.Closed, false, 0), t, i);
    }
    DischargedAnswersNow(Site(s'.conn, ready'), |g.sessions[t].conn.wrapped.calls|, i);
  }

  lemma ReleaseDischarges(s: Session, ready: Ready, a: Action, k: LocKind)
    requires SessionInv(s) && Allowed(s, a) && a.Release? && k in s.conn.retries
    ensures var (s', ready') := Act(s, ready, a);
      && s'.conn.token == s.conn.token
      && Discharged(Site(s'.conn, ready'), |s.conn.wrapped.calls|, k)
      && (s'.conn.wrapped.view.closed ==> Raised(Site(s'.conn, ready'), EventKind.Closed, false, 0))
  {
    UnlockReleases(Site(s.conn, ready), a.guard.sendDone, a.order, a.now);
    assert k in Elements(a.order);
    hide Unlock;
  }

  lemma DischargedAnswersNow(s: Site, from: nat, i: Interest)
    requires Claimed(i) && Discharged(s, from, EntryOf(i))
    ensures (exists e :: e in s.ready.events && IsFor(e, s.conn.token, i))
      || (EntryOf(i).StreamOpen? && s.conn.wrapped.StreamsLeft(EntryOf(i).kind) == 0)
  {
  }

  // .. the next poll hands the event out ..
  lemma PollHandsOut(g: Groups.GroupState, now: Time, e: Event)
    requires Groups.GroupInv(g) && e in g.ready.events
    ensures e in Groups.Take(g, Groups.PollAll(now)).polled
  {
  }

  // .. and its dispatch wakes the task.
  lemma DispatchWakes(s: System, e: Event, t: Token, i: Interest)
    requires SystemInv(s) && Enabled(s, DispatchEvent(e)) && Claimed(i) && IsFor(e, t, i)
    requires TaskOf(s, (t, i)).Waiting?
    ensures var task := TaskOf(s, (t, i));
      Take(s, DispatchEvent(e)).hub.woken[Wakeup(t, i, task.waker)] > task.mark
  {
    var task := TaskOf(s, (t, i));
    assert Covered(s.group, s.hub, task, t, i);
    DispatchHub(s.hub, e, Wakeup(t, i, task.waker));
  }

  // Whoever was left waiting for an establishment, a stream or a connection was woken since, or
  // is registered and there is nothing to take.
  lemma NoArrivalIsMissed(steps: seq<Step>, t: Token)
    requires Runs(Start(), steps)
    ensures var s := After(Start(), steps);
      && (forall i: Interest :: (i.ToConnect? || i.ToAccept?) && TaskOf(s, (t, i)).Waiting? ==>
            var task := TaskOf(s, (t, i));
            || s.hub.woken[Wakeup(t, i, task.waker)] > task.mark
            || (HasWaker(s.hub, t, i, task.waker)
                && if i.ToConnect? then t !in s.hub.established else IncomingOf(s.hub, t) == []))
      && (s.listener.Some? ==>
            || s.hub.acceptsWoken > s.listener.value
            || (s.hub.accept.Some? && s.hub.incomingConns == []))
    ensures var h := After(Start(), steps).hub;
      && (ToConnect in WakersOf(h, t) ==> t !in h.established)
      && (ToAccept in WakersOf(h, t) ==> IncomingOf(h, t) == [])
      && (h.accept.Some? ==> h.incomingConns == [])
  {
    var s := After(Start(), steps);
    assert NothingMissed(s.hub) && NothingMissedBy(s.hub, t) && ArrivalsInv(s);
    hide SystemInv, Runs, After;
    forall i: Interest | (i.ToConnect? || i.ToAccept?) && TaskOf(s, (t, i)).Waiting?
      ensures Expecting(s.hub, TaskOf(s, (t, i)), t, i)
    {
      assert Arrives(i);
    }
  }

  // ---- The dispatch loop meets no event that it cannot handle ----

  // Whatever is polled is a `Send` or `Recv`, which the I/O layer keeps, or can be dispatched.
  lemma PolledCanBeDispatched(steps: seq<Step>, e: Event)
    requires Runs(Start(), steps) && e in After(Start(), steps).group.polled
    ensures e.kind.Send? || e.kind.Recv? || Enabled(After(Start(), steps), DispatchEvent(e))
  {
    var s := After(Start(), steps);
    assert NoReads(s.group);
    hide SystemInv, Runs, After, Groups.GroupInv, TasksInv;
  }

  // ---- Accepted streams ----

  ghost predicate FreshTokens(s: System, steps: seq<Step>)
    requires SystemInv(s) && Runs(s, steps)
    decreases |steps|
  {
    steps != [] ==>
      FreshToken(s, steps[0]) && (StepKeepsSystem(s, steps[0]); FreshTokens(Take(s, steps[0]), steps[1..]))
  }

  lemma {:induction false} RunConserves(s: System, steps: seq<Step>)
    requires SystemInv(s) && AcceptInv(s) && Runs(s, steps) && FreshTokens(s, steps)
    ensures AcceptInv(After(s, steps))
    decreases |steps|
  {
    hide AcceptInv, Take;
    if steps != [] {
      StepKeepsSystem(s, steps[0]);
      StepConserves(s, steps[0]);
      RunConserves(Take(s, steps[0]), steps[1..]);
    }
  }

  lemma StartConserves()
    ensures AcceptInv(Start())
  {
  }

  // Every stream announced is in exactly one place: queued as an event, in a polled batch, in
  // the incoming queue, handed out by `accept`, or discarded by a close. A stream never
  // announced is in none of them.
  lemma AcceptsAreConserved(steps: seq<Step>, t: Token, id: nat)
    requires Runs(Start(), steps) && FreshTokens(Start(), steps)
    requires Known(After(Start(), steps).group, t)
    ensures var s := After(Start(), steps);
      var e := AcceptEvent(t, ConnOf(s.group, t).wrapped.isServer, id);
      Bit(e in s.group.ready.events) + s.group.polled[e] + multiset(IncomingOf(s.hub, t))[id]
        + CountOf(s.handed, t)[id] + CountOf(s.discarded, t)[id]
      == Bit(Announced(ConnOf(s.group, t), id))
  {
    StartConserves();
    RunConserves(Start(), steps);
    assert Conserved(After(Start(), steps), t, id);
  }

  // So no stream is handed out twice, and only announced remote streams are handed out.
  lemma NoStreamIsHandedOutTwice(steps: seq<Step>, t: Token, id: nat)
    requires Runs(Start(), steps) && FreshTokens(Start(), steps)
    ensures var s := After(Start(), steps);
      var n := CountOf(s.handed, t)[id];
      && n <= 1
      && (n == 1 ==> Known(s.group, t) && Announced(ConnOf(s.group, t), id))
      && (n == 1 ==> !IsLocal(id, ConnOf(s.group, t).wrapped.isServer))
  {
    StartConserves();
    RunConserves(Start(), steps);
    var s := After(Start(), steps);
    assert Conserved(s, t, id);
  }
}
