// Who waits for an establishment, for a stream or for a connection is woken when it arrives.
module Arrivals {
  import opened Api
  import opened Conns
  import Groups
  import opened Futures
  import opened Systems

  predicate Arrives(i: Interest) {
    i.ToConnect? || i.ToAccept?
  }

  predicate NothingToTake(h: Hub, t: Token, i: Interest) {
    if i.ToConnect? then t !in h.established else IncomingOf(h, t) == []
  }

  // A task left waiting was woken since, or is registered and has nothing to take.
  ghost predicate Expecting(h: Hub, task: Task, t: Token, i: Interest) {
    match task
    case Idle => true
    case Trying(_, _) => false
    case Waiting(w, mark) =>
      && mark <= h.woken[Wakeup(t, i, w)]
      && (WokenSince(h, t, i, w, mark) || (HasWaker(h, t, i, w) && NothingToTake(h, t, i)))
  }

  ghost predicate ListenerExpects(h: Hub, listener: Option<nat>) {
    listener.Some? ==>
      && listener.value <= h.acceptsWoken
      && (listener.value < h.acceptsWoken || (h.accept.Some? && h.incomingConns == []))
  }

  ghost predicate ArrivalsInv(s: System) {
    && ListenerExpects(s.hub, s.listener)
    && forall t: Token, i: Interest :: Arrives(i) ==> Expecting(s.hub, TaskOf(s, (t, i)), t, i)
  }

  // ---- One slot under each step of the hub ----

  // The hub kept the registration of a waiting task and brought it nothing, or woke it.
  ghost predicate Undisturbed(h: Hub, h': Hub, t: Token, i: Interest, w: Waker) {
    var u := Wakeup(t, i, w);
    && h.woken[u] <= h'.woken[u]
    && (HasWaker(h, t, i, w) && NothingToTake(h, t, i) ==>
          h.woken[u] < h'.woken[u] || (HasWaker(h', t, i, w) && NothingToTake(h', t, i)))
  }

  lemma UndisturbedExpects(h: Hub, h': Hub, task: Task, t: Token, i: Interest)
    requires Expecting(h, task, t, i) && (task.Waiting? ==> Undisturbed(h, h', t, i, task.waker))
    ensures Expecting(h', task, t, i)
  {
  }

  lemma DispatchUndisturbed(h: Hub, e: Event, t: Token, i: Interest, w: Waker)
    requires Dispatchable(e.kind) && Arrives(i)
    ensures Undisturbed(h, Dispatch(h, e), t, i, w)
  {
    DispatchWakesExactly(h, e, Wakeup(t, i, w));
    DispatchQueuesExactly(h, e);
    DispatchIncoming(h, e, t);
    hide Dispatch;
  }

  lemma AcceptUndisturbed(h: Hub, u: Token, w1: Waker, t: Token, i: Interest, w: Waker)
    requires Arrives(i) && !(t == u && i == ToAccept)
    ensures Undisturbed(h, AcceptStream(h, u, w1).0, t, i, w)
  {
  }

  lemma AwaitUndisturbed(h: Hub, u: Token, w1: Waker, t: Token, i: Interest, w: Waker)
    requires Arrives(i) && !(t == u && i == ToConnect)
    ensures Undisturbed(h, AwaitEstablished(h, u, w1).0, t, i, w)
  {
  }

  lemma OthersUndisturbed(h: Hub, u: Token, i1: Interest, w1: Waker, id: nat, t: Token, i: Interest, w: Waker)
    requires Arrives(i)
    ensures Undisturbed(h, AcceptConn(h, w1).0, t, i, w)
    ensures u != t || i1 != i ==> Undisturbed(h, Register(h, u, i1, w1), t, i, w) && Undisturbed(h, Unregister(h, u, i1), t, i, w)
  {
  }

  lemma ShutUndisturbed(h: Hub, u: Token, id: nat, t: Token, i: Interest, w: Waker)
    requires Arrives(i)
    ensures Undisturbed(h, ShutStream(h, u, id), t, i, w)
  {
    ShutWakesExactly(h, u, id, Wakeup(t, i, w));
  }

  // ---- Every step ----

  lemma GroupStepKeepsArrivals(s: System, step: Step)
    requires Groups.ConnsOk(s.group) && ArrivalsInv(s) && Enabled(s, step)
    requires step.InGroup? || step.TryOpen? || step.TryRecv?
    ensures ArrivalsInv(Take(s, step))
  {
    hide Groups.Take, Groups.Enabled, Groups.ConnsOk, Groups.Possible, TryLock, OpenNow, Expecting, ListenerExpects;
    if !step.InGroup? {
      TryTakes(s, step);
      TryKeepsOtherTasks(s, step);
      hide Take, Enabled;
    }
    var s' := Take(s, step);
    forall t: Token, i: Interest | Arrives(i)
      ensures Expecting(s'.hub, TaskOf(s', (t, i)), t, i)
    {
      assert TaskOf(s', (t, i)) == TaskOf(s, (t, i));
    }
  }

  lemma TryKeepsOtherTasks(s: System, step: Step)
    requires Groups.ConnsOk(s.group) && Enabled(s, step) && (step.TryOpen? || step.TryRecv?)
    ensures Take(s, step).listener == s.listener
    ensures forall t: Token, i: Interest :: Arrives(i) ==> TaskOf(Take(s, step), (t, i)) == TaskOf(s, (t, i))
  {
    hide Groups.Take, Groups.Enabled, Groups.ConnsOk, TryLock, OpenNow;
  }

  lemma DispatchKeepsArrivals(s: System, e: Event)
    requires Groups.ConnsOk(s.group) && ArrivalsInv(s) && Enabled(s, DispatchEvent(e))
    ensures ArrivalsInv(Take(s, DispatchEvent(e)))
  {
    hide Take, Dispatch, Expecting, Undisturbed;
    var s' := Take(s, DispatchEvent(e));
    DispatchTakes(s, e);
    DispatchQueuesExactly(s.hub, e);
    forall t: Token, i: Interest | Arrives(i)
      ensures Expecting(s'.hub, TaskOf(s', (t, i)), t, i)
    {
      var task := TaskOf(s, (t, i));
      if task.Waiting? {
        DispatchUndisturbed(s.hub, e, t, i, task.waker);
      }
      UndisturbedExpects(s.hub, s'.hub, task, t, i);
    }
  }

  lemma AcceptTakes(s: System, u: Token, w: Waker)
    requires Groups.ConnsOk(s.group)
    ensures var s', (hub, r) := Take(s, Accepting(u, w)), AcceptStream(s.hub, u, w);
      && s'.hub == hub && s'.listener == s.listener
      && s'.tasks == s.tasks[(u, ToAccept) := Left(s.hub, u, ToAccept, w, r.Some?)]
  {
    hide AcceptStream, Groups.ConnsOk;
  }

  lemma AcceptKeepsArrivals(s: System, u: Token, w: Waker)
    requires Groups.ConnsOk(s.group) && ArrivalsInv(s)
    ensures ArrivalsInv(Take(s, Accepting(u, w)))
  {
    hide Take, AcceptStream;
    var s' := Take(s, Accepting(u, w));
    AcceptTakes(s, u, w);
    TakenInOrder(s.hub, u, w);
    var done := AcceptStream(s.hub, u, w).1.Some?;
    assert s'.tasks == s.tasks[(u, ToAccept) := Left(s.hub, u, ToAccept, w, done)];
    assert !done ==> IncomingOf(s'.hub, u) == [] && HasWaker(s'.hub, u, ToAccept, w);
    forall t: Token, i: Interest | Arrives(i)
      ensures Expecting(s'.hub, TaskOf(s', (t, i)), t, i)
    {
      var task := TaskOf(s, (t, i));
      if t == u && i == ToAccept {
        assert TaskOf(s', (t, i)) == Left(s.hub, u, ToAccept, w, done);
      } else {
        assert TaskOf(s', (t, i)) == task;
        if task.Waiting? {
          AcceptUndisturbed(s.hub, u, w, t, i, task.waker);
        }
        UndisturbedExpects(s.hub, s'.hub, task, t, i);
      }
    }
  }

  lemma AwaitKeepsArrivals(s: System, u: Token, w: Waker)
    requires Groups.ConnsOk(s.group) && ArrivalsInv(s)
    ensures ArrivalsInv(Take(s, Awaiting(u, w)))
  {
    var s' := Take(s, Awaiting(u, w));
    assert s'.hub == AwaitEstablished(s.hub, u, w).0 && s'.listener == s.listener;
    TakenInOrder(s.hub, u, w);
    forall t: Token, i: Interest | Arrives(i)
      ensures Expecting(s'.hub, TaskOf(s', (t, i)), t, i)
    {
      var task := TaskOf(s, (t, i));
      if t == u && i == ToConnect {
      } else {
        if task.Waiting? {
          AwaitUndisturbed(s.hub, u, w, t, i, task.waker);
        }
        UndisturbedExpects(s.hub, s'.hub, task, t, i);
      }
    }
  }

  lemma WakerStepKeepsArrivals(s: System, step: Step)
    requires Groups.ConnsOk(s.group) && ArrivalsInv(s) && Enabled(s, step)
    requires step.Begin? || step.Finish? || step.AcceptingConn? || step.ShuttingStream?
    ensures ArrivalsInv(Take(s, step))
  {
    var s' := Take(s, step);
    hide Groups.Take, Groups.Enabled, Groups.ConnsOk, Dispatch, AcceptStream, OpenNow, TryLock;
    forall t: Token, i: Interest | Arrives(i)
      ensures Expecting(s'.hub, TaskOf(s', (t, i)), t, i)
    {
      var task := TaskOf(s, (t, i));
      assert Expecting(s.hub, task, t, i);
      if task.Waiting? {
        match step
        case Begin(u, i1, w) => OthersUndisturbed(s.hub, u, i1, w, 0, t, i, task.waker);
        case Finish(u, i1) => OthersUndisturbed(s.hub, u, i1, 0, 0, t, i, task.waker);
        case AcceptingConn(w) => OthersUndisturbed(s.hub, 0, ToSend(0), w, 0, t, i, task.waker);
        case ShuttingStream(u, id) => ShutUndisturbed(s.hub, u, id, t, i, task.waker);
      }
      hide Undisturbed, Expecting;
      UndisturbedExpects(s.hub, s'.hub, task, t, i);
    }
  }

  lemma StepKeepsArrivals(s: System, step: Step)
    requires Groups.ConnsOk(s.group) && ArrivalsInv(s) && Enabled(s, step)
    ensures ArrivalsInv(Take(s, step))
  {
    hide Take, Enabled, ArrivalsInv, Groups.ConnsOk;
    match step
    case InGroup(_) => GroupStepKeepsArrivals(s, step);
    case TryOpen(_, _, _, _, _) => GroupStepKeepsArrivals(s, step);
    case TryRecv(_, _) => GroupStepKeepsArrivals(s, step);
    case DispatchEvent(e) => DispatchKeepsArrivals(s, e);
    case Accepting(t, w) => AcceptKeepsArrivals(s, t, w);
    case Awaiting(t, w) => AwaitKeepsArrivals(s, t, w);
    case _ => WakerStepKeepsArrivals(s, step);
  }
}
