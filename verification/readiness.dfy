// The readiness queue: events that are ready, and events that become ready at a deadline.
module Readiness {
  import opened Api

  // DEFAULT_RELEASE_TIMER_THRESHOLD: 250 microseconds.
  const RELEASE_TIMER_THRESHOLD: nat := 250_000

  // What was asked for an event by its last insertion.
  datatype When = Now | At(deadline: Time)

  predicate IsDue(when: When, now: Time, threshold: nat) {
    match when
    case Now => true
    case At(deadline) => !(Remaining(deadline, now) > threshold)
  }

  // `deadline.checked_duration_since(now).unwrap_or_default()`
  function Remaining(deadline: Time, now: Time): nat {
    if deadline >= now then deadline - now else 0
  }

  datatype Ready = Ready(events: set<Event>, delayed: map<Event, Time>) {
    ghost predicate Valid() {
      events !! delayed.Keys
    }

    function Insert(event: Event, delayTo: Option<Time>): Ready {
      match delayTo
      case Some(t) => Ready(events - {event}, delayed[event := t])
      case None => Ready(events + {event}, delayed - {event})
    }

    function Remove(event: Event): Ready {
      Ready(events - {event}, delayed - {event})
    }

    function Lookup(event: Event): Option<When> {
      if event in events then Some(Now)
      else if event in delayed then Some(At(delayed[event]))
      else None
    }

    // The events a poll at `now` outputs, and the queue it leaves.
    function Due(now: Time, threshold: nat): set<Event> {
      events + set e | e in delayed && IsDue(At(delayed[e]), now, threshold)
    }

    function Rest(now: Time, threshold: nat): Ready {
      Ready({}, map e | e in delayed && !IsDue(At(delayed[e]), now, threshold) :: delayed[e])
    }
  }

  // The optional deadline is the least one of the map.
  ghost predicate IsLeastDeadline(deadline: Option<Time>, delayed: map<Event, Time>) {
    match deadline
    case None => delayed == map[]
    case Some(d) => (exists e :: e in delayed && delayed[e] == d) && forall e :: e in delayed ==> d <= delayed[e]
  }

  ghost predicate NoDuplicates<T>(s: seq<T>) {
    forall i, j :: 0 <= i < j < |s| ==> s[i] != s[j]
  }

  ghost function Elements<T>(s: seq<T>): set<T> {
    set x | x in s
  }

  lemma AppendNew<T>(s: seq<T>, x: T)
    requires NoDuplicates(s) && x !in Elements(s)
    ensures NoDuplicates(s + [x]) && Elements(s + [x]) == Elements(s) + {x}
  {
  }

  lemma LeastExists(delayed: map<Event, Time>)
    requires delayed != map[]
    ensures exists e :: e in delayed && forall f :: f in delayed ==> delayed[e] <= delayed[f]
    decreases |delayed|
  {
    var e :| e in delayed;
    var rest := delayed - {e};
    assert delayed.Keys == rest.Keys + {e};
    if rest == map[] {
      assert forall f :: f in delayed ==> f == e || f in rest;
    } else {
      assert |rest.Keys| < |delayed.Keys|;
      LeastExists(rest);
      var f :| f in rest && forall g :: g in rest ==> rest[f] <= rest[g];
      var least := if delayed[e] <= delayed[f] then e else f;
      assert least in delayed && forall g :: g in delayed ==> delayed[least] <= delayed[g];
    }
  }

  // A poll takes out an event delayed to d exactly if d is at most the threshold ahead.
  lemma DueExactly(ready: Ready, e: Event, now: Time, threshold: nat)
    requires ready.Valid() && e in ready.delayed
    ensures e in ready.Due(now, threshold) <==> ready.delayed[e] <= now + threshold
    ensures e in ready.Rest(now, threshold).delayed <==> ready.delayed[e] > now + threshold
    ensures e in ready.Rest(now, threshold).delayed ==> ready.Rest(now, threshold).delayed[e] == ready.delayed[e]
  {
  }

  // What was popped and what is left, once nothing left is due.
  ghost predicate Popped(ready: Ready, delayed: map<Event, Time>, now: Time, threshold: nat) {
    && delayed.Keys <= ready.delayed.Keys
    && (forall e :: e in delayed ==> delayed[e] == ready.delayed[e])
    && (forall e :: e in ready.delayed && e !in delayed ==> IsDue(At(ready.delayed[e]), now, threshold))
  }

  lemma PoppedAllDue(ready: Ready, delayed: map<Event, Time>, least: Option<Time>, now: Time, threshold: nat)
    requires Popped(ready, delayed, now, threshold)
    requires IsLeastDeadline(least, delayed)
    requires least.Some? ==> !IsDue(At(least.value), now, threshold)
    ensures ready.events + (ready.delayed.Keys - delayed.Keys) == ready.Due(now, threshold)
    ensures Ready({}, delayed) == ready.Rest(now, threshold)
  {
  }

  lemma PopOne(ready: Ready, delayed: map<Event, Time>, event: Event, now: Time, threshold: nat)
    requires ready.Valid() && Popped(ready, delayed, now, threshold)
    requires event in delayed && IsDue(At(delayed[event]), now, threshold)
    ensures Popped(ready, delayed - {event}, now, threshold)
    ensures var out := ready.events + (ready.delayed.Keys - delayed.Keys);
      && event !in out
      && ready.events + (ready.delayed.Keys - (delayed - {event}).Keys) == out + {event}
  {
  }

  class Queue {
    var events: set<Event>
    var delayed: map<Event, Time>

    ghost function State(): Ready
      reads this
    {
      Ready(events, delayed)
    }

    constructor ()
      ensures State() == Ready({}, map[])
    {
      events, delayed := {}, map[];
    }

    method Insert(event: Event, delayTo: Option<Time>)
      modifies this
      ensures State() == old(State()).Insert(event, delayTo)
    {
      match delayTo {
        case Some(t) =>
          events := events - {event};
          delayed := delayed[event := t];
        case None =>
          delayed := delayed - {event};
          events := events + {event};
      }
    }

    method Remove(event: Event)
      modifies this
      ensures State() == old(State()).Remove(event)
    {
      events := events - {event};
      delayed := delayed - {event};
    }

    // Drains the ready set in whatever order the hash set yields.
    method Drain() returns (batch: seq<Event>)
      modifies this`events
      ensures events == {} && Elements(batch) == old(events) && NoDuplicates(batch)
    {
      batch := [];
      while events != {}
        invariant Elements(batch) !! events && Elements(batch) + events == old(events)
        invariant NoDuplicates(batch)
        decreases |events|
      {
        var e :| e in events;
        events := events - {e};
        AppendNew(batch, e);
        batch := batch + [e];
      }
    }

    // Takes out the event with the least deadline, if that is due within the threshold.
    method PopDue(now: Time, threshold: nat) returns (event: Option<Event>, deadline: Time)
      requires delayed != map[]
      modifies this`delayed
      ensures event.Some? ==>
        && event.value in old(delayed) && delayed == old(delayed) - {event.value}
        && |delayed| < |old(delayed)|
        && IsDue(At(old(delayed)[event.value]), now, threshold)
        && deadline == old(delayed)[event.value] && forall e :: e in old(delayed) ==> deadline <= old(delayed)[e]
      ensures event.None? ==>
        && delayed == old(delayed) && IsLeastDeadline(Some(deadline), delayed)
        && !IsDue(At(deadline), now, threshold)
    {
      LeastExists(delayed);
      var least :| least in delayed && forall f :: f in delayed ==> delayed[least] <= delayed[f];
      deadline := delayed[least];
      if !(Remaining(deadline, now) > threshold) {
        ghost var keys := delayed.Keys;
        delayed := delayed - {least};
        assert keys == delayed.Keys + {least};
        return Some(least), deadline;
      }
      return None, deadline;
    }

    // Outputs, each once, the ready events and those due within the threshold; reports the
    // least deadline of what stays.
    method Poll(now: Time, threshold: nat) returns (batch: seq<Event>, deadline: Option<Time>)
      requires State().Valid()
      modifies this
      ensures Elements(batch) == old(State()).Due(now, threshold) && NoDuplicates(batch)
      ensures State() == old(State()).Rest(now, threshold) && State().Valid()
      ensures IsLeastDeadline(deadline, delayed)
    {
      ghost var ready := State();
      batch := Drain();
      if delayed == map[] {
        PoppedAllDue(ready, delayed, None, now, threshold);
        return batch, None;
      }
      while delayed != map[]
        invariant events == {} && Popped(ready, delayed, now, threshold)
        invariant Elements(batch) == ready.events + (ready.delayed.Keys - delayed.Keys)
        invariant NoDuplicates(batch)
        decreases |delayed|
      {
        ghost var before := delayed;
        var event, least := PopDue(now, threshold);
        if event.None? {
          PoppedAllDue(ready, delayed, Some(least), now, threshold);
          return batch, Some(least);
        }
        PopOne(ready, before, event.value, now, threshold);
        AppendNew(batch, event.value);
        batch := batch + [event.value];
      }
      PoppedAllDue(ready, delayed, None, now, threshold);
      return batch, None;
    }
  }

  // A history of calls on the queue.
  datatype Op = InsertOp(event: Event, when: When) | RemoveOp(event: Event) | PollOp(now: Time)

  function Delay(when: When): Option<Time> {
    match when
    case Now => None
    case At(deadline) => Some(deadline)
  }

  function Execute(ops: seq<Op>, threshold: nat): Ready {
    if ops == [] then Ready({}, map[])
    else
      var r := Execute(ops[..|ops| - 1], threshold);
      match ops[|ops| - 1]
      case InsertOp(event, when) => r.Insert(event, Delay(when))
      case RemoveOp(event) => r.Remove(event)
      case PollOp(now) => r.Rest(now, threshold)
  }

  // The reference: one last-write-wins entry per event, taken out by the poll that finds it due.
  function LastWrite(ops: seq<Op>, event: Event, threshold: nat): Option<When> {
    if ops == [] then None
    else
      var before := LastWrite(ops[..|ops| - 1], event, threshold);
      match ops[|ops| - 1]
      case InsertOp(e, when) => if e == event then Some(when) else before
      case RemoveOp(e) => if e == event then None else before
      case PollOp(now) => if before.Some? && IsDue(before.value, now, threshold) then None else before
  }

  lemma {:induction false} QueueIsLastWriteMap(ops: seq<Op>, event: Event, threshold: nat)
    ensures Execute(ops, threshold).Valid()
    ensures Execute(ops, threshold).Lookup(event) == LastWrite(ops, event, threshold)
  {
    if ops != [] {
      QueueIsLastWriteMap(ops[..|ops| - 1], event, threshold);
    }
  }

  predicate Writes(op: Op, event: Event) {
    (op.InsertOp? || op.RemoveOp?) && op.event == event
  }

  // Insertion i of `event` is still standing before call k: not overwritten, and not due at
  // any poll in between.
  ghost predicate Standing(ops: seq<Op>, i: nat, k: nat, event: Event, threshold: nat)
    requires i < k <= |ops|
  {
    && ops[i].InsertOp? && ops[i].event == event
    && forall j :: i < j < k ==>
         && !Writes(ops[j], event)
         && (ops[j].PollOp? ==> !IsDue(ops[i].when, ops[j].now, threshold))
  }

  lemma {:induction false} StandingInsertion(ops: seq<Op>, k: nat, event: Event, when: When, threshold: nat)
    requires k <= |ops|
    ensures LastWrite(ops[..k], event, threshold) == Some(when) <==>
      exists i :: 0 <= i < k && Standing(ops, i, k, event, threshold) && ops[i].when == when
  {
    if k > 0 {
      var last := ops[k - 1];
      assert ops[..k][..k - 1] == ops[..k - 1];
      StandingInsertion(ops, k - 1, event, when, threshold);
      if LastWrite(ops[..k], event, threshold) == Some(when) {
        if last.InsertOp? && last.event == event {
          assert Standing(ops, k - 1, k, event, threshold);
        } else {
          var i :| 0 <= i < k - 1 && Standing(ops, i, k - 1, event, threshold) && ops[i].when == when;
          assert Standing(ops, i, k, event, threshold);
        }
      }
      forall i | 0 <= i < k && Standing(ops, i, k, event, threshold) && ops[i].when == when
        ensures LastWrite(ops[..k], event, threshold) == Some(when)
      {
        if i < k - 1 {
          assert Standing(ops, i, k - 1, event, threshold);
        }
      }
    }
  }

  // Over any run, a poll outputs an event exactly when an insertion of it is due, was not
  // overwritten or removed since, and was due at no poll since: no event comes out more than
  // the threshold early, none is kept past the first poll at which it is due, none comes twice.
  lemma PollOutputsExactly(ops: seq<Op>, k: nat, event: Event, threshold: nat)
    requires k < |ops| && ops[k].PollOp?
    ensures event in Execute(ops[..k], threshold).Due(ops[k].now, threshold) <==>
      exists i :: 0 <= i < k && Standing(ops, i, k, event, threshold)
                  && IsDue(ops[i].when, ops[k].now, threshold)
  {
    QueueIsLastWriteMap(ops[..k], event, threshold);
    var pending := LastWrite(ops[..k], event, threshold);
    if pending.Some? {
      StandingInsertion(ops, k, event, pending.value, threshold);
    }
    forall i | 0 <= i < k && Standing(ops, i, k, event, threshold)
      ensures pending == Some(ops[i].when)
    {
      StandingInsertion(ops, k, event, ops[i].when, threshold);
    }
  }
}
