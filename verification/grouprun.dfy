// Whole runs of a group: every interleaving of callers, guard holders, receivers and pollers.
module GroupRuns {
  import opened Api
  import opened Readiness
  import opened QuicheLib
  import opened Conns
  import opened Releases
  import opened Replays
  import opened Sessions
  import opened Groups

  ghost predicate Runs(g: GroupState, steps: seq<Step>)
    requires GroupInv(g)
    decreases |steps|
  {
    steps != [] ==> Enabled(g, steps[0]) && (StepKeepsInv(g, steps[0]); Runs(Take(g, steps[0]), steps[1..]))
  }

  ghost function After(g: GroupState, steps: seq<Step>): (g': GroupState)
    requires GroupInv(g) && Runs(g, steps)
    ensures GroupInv(g')
    decreases |steps|
  {
    if steps == [] then g
    else
      StepKeepsInv(g, steps[0]);
      After(Take(g, steps[0]), steps[1..])
  }

  ghost function Empty(): (g: GroupState)
    ensures GroupInv(g)
  {
    GroupState(0, map[], map[], Ready({}, map[]), map[], [], map[], multiset{}, map[], multiset{}, multiset{})
  }

  // No lost send: in every reachable state each connection is locked, or its `Send` event is
  // ready, delayed or handed out and not yet tried, or its last release was a "send done"
  // with neither a timeout nor a release time.
  lemma NoLostSend(steps: seq<Step>, t: Token)
    requires Runs(Empty(), steps) && t in After(Empty(), steps).sessions
    ensures var g := After(Empty(), steps);
      var e := SendEvent(g.sessions[t].conn);
      || !g.sessions[t].conn.locker.Unlocked?
      || e in g.ready.events || e in g.ready.delayed || e in g.polled
      || g.sessions[t].quiet
  {
    assert SendCovered(After(Empty(), steps).sessions[t], After(Empty(), steps).ready, After(Empty(), steps).polled);
  }

  // A release is quiet exactly when the holder reported "done" and the connection, as the
  // release leaves it, has neither a timeout nor a release time.
  lemma QuietExactly(s: Session, ready: Ready, a: Action)
    requires SessionInv(s) && Allowed(s, a) && a.Release?
    ensures var s' := Act(s, ready, a).0;
      s'.quiet <==> a.guard.sendDone && s'.conn.wrapped.view.timeout.None?
                    && s'.conn.wrapped.view.nextRelease(a.now).None?
  {
  }

  // A poll hands out, each once, the events that are ready and those delayed by at most
  // 250 microseconds from now, and keeps the others.
  lemma PollExactly(g: GroupState, now: Time, e: Event)
    requires GroupInv(g)
    ensures var g', d := Take(g, PollAll(now)), g.ready.delayed;
      && g'.polled[e] == g.polled[e] + (if e in g.ready.events || (e in d && d[e] <= now + 250_000) then 1 else 0)
      && g'.ready.events == {}
      && (e in g'.ready.delayed <==> e in d && d[e] > now + 250_000)
  {
    hide Take;
    PollTakes(g, now);
    if e in g.ready.delayed {
      DueExactly(g.ready, e, now, 250_000);
    }
  }

  // `send` asks for the lock as a receiver: it holds it as one, or leaves a `Recv` entry behind.
  lemma SendAsksAsReceiver(g: GroupState, e: Event)
    requires GroupInv(g) && Possible(g, TrySend(e)) && e.token in g.sessions
    ensures var c, g' := g.sessions[e.token].conn, Take(g, TrySend(e));
      && e.token in g'.sessions && g'.polled == g.polled - multiset{e} && g'.ready == g.ready
      && g'.sessions[e.token].conn ==
           if c.locker.Unlocked? then c.(locker := LocKind.Recv) else c.(retries := c.retries + {LocKind.Recv})
  {
    hide Take;
    TrySendTakes(g, e);
    TryLockExactly(g.sessions[e.token].conn, LocKind.Recv);
    assert !g.sessions[e.token].conn.locker.ReadLock?;
  }

  // A connection that registers is left free, with nothing owed, and its `Send` is scheduled.
  lemma RegisteredIsScheduled(token: Token, q: Quiche, ready: Ready, now: Time)
    ensures var (s', ready') := Registered(token, q, ready, now);
      var send := Event(token, EventKind.Send, q.isServer, false, 0);
      && s'.conn.locker.Unlocked? && s'.conn.lockCount == 1 && s'.conn.retries == {} && s'.guards == multiset{}
      && (send in ready'.events || send in ready'.delayed)
  {
    var s1 := Registering(token, q);
    RegisteringFacts(token, q, ready, now);
    UnlockReleases(Site(s1.conn, ready), false, [], now);
    FlushKeepsLock(Site(s1.conn, ready), []);
    FinishFacts(Flush(Site(s1.conn, ready), []), false, now);
    hide Flush, HandleSend, HandleEstablished, HandleClosed;
  }

  // The maps agree: `scids` is the inverse of token-to-source-id, up to entries whose removal
  // is under way, and every registered source id leads back to its own connection.
  lemma ScidsAreInverse(steps: seq<Step>, t: Token, id: ConnectionId)
    requires Runs(Empty(), steps)
    ensures var g := After(Empty(), steps);
      && (t in g.sessions && SourceOf(g, t) == id ==> id in g.scids && g.scids[id] == t)
      && (id in g.scids && g.scids[id] == t ==>
            (t in g.sessions && SourceOf(g, t) == id) || (id in g.leaving && g.leaving[id] == t))
  {
  }

  // A parked receiver and the guard it waits for.
  ghost predicate WaitsForRelease(g: GroupState, t: Token, unparker: Unparker) {
    && t in g.sessions && g.sessions[t].guards != multiset{}
    && t in g.unparkers && g.unparkers[t] == unparker
  }

  ghost predicate Disturbs(s: Step, t: Token) {
    || (s.ReceiverParks? && s.token == t)
    || (s.OnConn? && s.token == t && s.action.Release?)
  }

  lemma LockedHasGuard(s: Session)
    requires SessionInv(s)
    ensures s.conn.locker.Unlocked? <==> s.guards == multiset{}
  {
  }

  lemma ActedOnUnparkers(g: GroupState, t: Token, a: Action, s: Session, ready: Ready)
    ensures var g' := ActedOn(g, t, a, s, ready);
      if a.Release? && t in g.unparkers
      then g'.unparkers == g.unparkers - {t} && g'.unparked == g.unparked + [g.unparkers[t]]
      else g'.unparkers == g.unparkers && g'.unparked == g.unparked
  {
  }

  ghost predicate UnparkersTurn(g: GroupState, s: Step, g': GroupState) {
    match s
    case ReceiverParks(t, unparker) => g'.unparkers == g.unparkers[t := unparker] && g'.unparked == g.unparked
    case OnConn(t, a) =>
      if a.Release? && t in g.unparkers
      then g'.unparkers == g.unparkers - {t} && g'.unparked == g.unparked + [g.unparkers[t]]
      else g'.unparkers == g.unparkers && g'.unparked == g.unparked
    case _ => g'.unparkers == g.unparkers && g'.unparked == g.unparked
  }

  // Only parking adds an unparker, only a release of the same connection removes one.
  lemma UnparkersChange(g: GroupState, s: Step)
    requires GroupInv(g) && Enabled(g, s)
    ensures UnparkersTurn(g, s, Take(g, s))
  {
    if s.OnConn? {
      var (s', ready') := Act(g.sessions[s.token], g.ready, s.action);
      ActedOnUnparkers(g, s.token, s.action, s', ready');
    } else {
      OtherStepsLeaveUnparkers(g, s);
    }
    hide Act, Registered, ActedOn;
  }

  lemma OtherStepsLeaveUnparkers(g: GroupState, s: Step)
    requires GroupInv(g) && Enabled(g, s) && !s.OnConn?
    ensures var g' := Take(g, s);
      && g'.unparkers == (if s.ReceiverParks? then g.unparkers[s.token := s.unparker] else g.unparkers)
      && g'.unparked == g.unparked
  {
    assert ConnsOk(g);
    hide Take, GroupInv, ConnsOk, Possible, Orderly;
    if s.TakeOut? || s.Expire? {
      RemovalLeavesUnparkers(g, s);
    } else if s.TrySend? {
      TrySendLeavesUnparkers(g, s);
    } else if s.ReceiverParks? {
      ParkingSetsUnparker(g, s);
    } else if s.Register? {
      RegisterLeavesUnparkers(g, s);
    } else {
      QueueStepLeavesUnparkers(g, s);
    }
  }

  lemma RegisterLeavesUnparkers(g: GroupState, s: Step)
    requires ConnsOk(g) && Possible(g, s) && s.Register?
    ensures Take(g, s).unparkers == g.unparkers && Take(g, s).unparked == g.unparked
  {
    hide Registered, ConnsOk;
  }

  lemma TrySendLeavesUnparkers(g: GroupState, s: Step)
    requires ConnsOk(g) && Possible(g, s) && s.TrySend?
    ensures Take(g, s).unparkers == g.unparkers && Take(g, s).unparked == g.unparked
  {
    hide Take, ConnsOk, Prepare;
    TrySendTakes(g, s.event);
  }

  lemma ParkingSetsUnparker(g: GroupState, s: Step)
    requires ConnsOk(g) && Possible(g, s) && s.ReceiverParks?
    ensures Take(g, s).unparkers == g.unparkers[s.token := s.unparker] && Take(g, s).unparked == g.unparked
  {
    hide Take, ConnsOk, Prepare;
    ParksTakes(g, s.token, s.unparker);
  }

  lemma QueueStepLeavesUnparkers(g: GroupState, s: Step)
    requires GroupInv(g) && Possible(g, s) && (s.DropScid? || s.PollAll? || s.Handle?)
    ensures Take(g, s).unparkers == g.unparkers && Take(g, s).unparked == g.unparked
  {
    hide Act, Registered, Removed;
  }

  lemma RemovalLeavesUnparkers(g: GroupState, s: Step)
    requires GroupInv(g) && Possible(g, s) && (s.TakeOut? || s.Expire?)
    ensures Take(g, s).unparkers == g.unparkers && Take(g, s).unparked == g.unparked
  {
    if s.Expire? {
      ExpireTakes(g, s.token);
    } else {
      TakeOutTakes(g, s.token);
    }
    hide Take;
  }

  lemma UnparkerHasGuard(g: GroupState, t: Token)
    requires GroupInv(g) && t in g.unparkers
    ensures t in g.sessions && g.sessions[t].guards != multiset{}
  {
    LockedHasGuard(g.sessions[t]);
  }

  lemma StillParked(g: GroupState, s: Step, g': GroupState, t: Token, unparker: Unparker)
    requires UnparkersTurn(g, s, g') && !Disturbs(s, t)
    requires t in g.unparkers && g.unparkers[t] == unparker
    ensures t in g'.unparkers && g'.unparkers[t] == unparker
  {
  }

  lemma WaitingStays(g: GroupState, s: Step, t: Token, unparker: Unparker)
    requires GroupInv(g) && Enabled(g, s) && WaitsForRelease(g, t, unparker) && !Disturbs(s, t)
    ensures GroupInv(Take(g, s)) && WaitsForRelease(Take(g, s), t, unparker)
  {
    var g' := Take(g, s);
    hide Take, Enabled, GroupInv, Disturbs, UnparkersTurn;
    StepKeepsInv(g, s);
    UnparkersChange(g, s);
    StillParked(g, s, g', t, unparker);
    UnparkerHasGuard(g', t);
  }

  // A receiver that was refused and parked keeps its connection registered and its unparker
  // in place until the next release of that connection, whatever else happens ..
  lemma {:induction false} ReceiverStaysParked(g: GroupState, steps: seq<Step>, t: Token, unparker: Unparker)
    requires GroupInv(g) && Runs(g, steps) && WaitsForRelease(g, t, unparker)
    requires forall i :: 0 <= i < |steps| ==> !Disturbs(steps[i], t)
    ensures WaitsForRelease(After(g, steps), t, unparker)
    decreases |steps|
  {
    if steps != [] {
      WaitingStays(g, steps[0], t, unparker);
      ReceiverStaysParked(Take(g, steps[0]), steps[1..], t, unparker);
    }
  }

  // .. and that release unparks it.
  lemma ReleaseUnparks(g: GroupState, t: Token, unparker: Unparker, a: Action)
    requires GroupInv(g) && WaitsForRelease(g, t, unparker)
    requires a.Release? && Enabled(g, OnConn(t, a))
    ensures var g' := Take(g, OnConn(t, a)); g'.unparked == g.unparked + [unparker] && t !in g'.unparkers
  {
    UnparkersChange(g, OnConn(t, a));
  }

  lemma ParkingWaits(g: GroupState, t: Token, unparker: Unparker)
    requires GroupInv(g) && Enabled(g, ReceiverParks(t, unparker))
    ensures WaitsForRelease(Take(g, ReceiverParks(t, unparker)), t, unparker)
  {
  }

  // In a group every release, by a guard's drop or at the end of a call, meets an idle
  // connection: its deferred calls are made with no guard outstanding, and every close that
  // returned Ok before was carried out since.
  lemma DeferredCallsMeetNoGuard(g: GroupState, t: Token, a: Action)
    requires GroupInv(g) && Enabled(g, OnConn(t, a)) && Prepare(g.sessions[t], a).leaving.Some?
    ensures var (s', _) := Act(g.sessions[t], g.ready, a);
      && s'.guards == multiset{} && s'.conn.locker.Unlocked?
      && forall k :: k in s'.closes ==> CarriedOut(s'.conn.wrapped, k)
  {
    ActIsConnStep(g, t, a);
    ActLeavesExclusive(g.sessions[t], g.ready, a);
    hide Act, Prepare;
  }

  // A connection is taken out, by a user or automatically, only after every close that
  // returned Ok was carried out since.
  lemma TakenOutOwesNothing(g: GroupState, s: Step, k: OkClose)
    requires GroupInv(g) && (s.TakeOut? || s.Expire?) && Enabled(g, s)
    requires s.token in g.sessions && k in g.sessions[s.token].closes
    ensures CarriedOut(g.sessions[s.token].conn.wrapped, k)
  {
  }

  // ---- Guards and the connections they name ----

  ghost predicate Outstanding(g: GroupState, guard: LockContext) {
    guard in g.orphans || exists t :: t in g.sessions && guard in g.sessions[t].guards
  }

  // The drop of a guard finds its connection in the group, locked by it.
  ghost predicate FindsConnection(g: GroupState, guard: LockContext) {
    && guard.token in g.sessions
    && !g.sessions[guard.token].conn.locker.Unlocked? && g.sessions[guard.token].conn.lockCount == guard.lockCount
  }

  // Over all runs the drop of any guard finds its connection, so neither the `expect` nor the
  // assertions of `unlock` fire.
  lemma EveryGuardFindsItsConnection(steps: seq<Step>, guard: LockContext)
    requires Runs(Empty(), steps) && Outstanding(After(Empty(), steps), guard)
    ensures FindsConnection(After(Empty(), steps), guard)
  {
    GuardsFindConnections(After(Empty(), steps), guard);
  }

  lemma GuardsFindConnections(g: GroupState, guard: LockContext)
    requires GroupInv(g) && Outstanding(g, guard)
    ensures FindsConnection(g, guard)
  {
    var t :| t in g.sessions && guard in g.sessions[t].guards;
    assert LockInv(g.sessions[t]);
  }

  // The runs leave out nothing else: a step keeps this exactly if it does not take a
  // connection out from under a guard.
  lemma GuardsLostExactly(g: GroupState, s: Step)
    requires GroupInv(g) && Possible(g, s)
    ensures (forall guard :: Outstanding(Take(g, s), guard) ==> FindsConnection(Take(g, s), guard)) <==> Orderly(g, s)
  {
    var g' := Take(g, s);
    if Orderly(g, s) {
      StepKeepsInv(g, s);
      forall guard | Outstanding(g', guard)
        ensures FindsConnection(g', guard)
      {
        GuardsFindConnections(g', guard);
      }
    } else {
      TakenFromUnderGuard(g, s);
    }
  }

  lemma TakenFromUnderGuard(g: GroupState, s: Step)
    requires GroupInv(g) && Possible(g, s) && !Orderly(g, s)
    ensures exists guard :: Outstanding(Take(g, s), guard) && !FindsConnection(Take(g, s), guard)
  {
    var t, g' := s.token, Take(g, s);
    if s.Expire? {
      ExpireTakes(g, t);
    } else {
      TakeOutTakes(g, t);
    }
    hide Take;
    var guard :| guard in g.sessions[t].guards;
    assert LockInv(g.sessions[t]);
    assert guard.token == t && guard in g'.orphans && t !in g'.sessions;
    assert Outstanding(g', guard) && !FindsConnection(g', guard);
  }
}
