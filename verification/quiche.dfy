// The wrapped QUIC connection, seen from outside: what can be read from it, the calls made on
// it, and an arbitrary schedule of replies. Every statement about it is for all schedules.
module QuicheLib {
  import opened Api

  type ConnectionId = seq<byte>

  datatype Call =
    | CloseCall(app: bool, err: nat, reason: seq<byte>)
    | FinishedCall(id: nat)
    | ShutdownReadCall(id: nat, err: nat)
    | SendFinCall(id: nat)
    | WritableCall(id: nat, len: nat)
    | PriorityCall(id: nat)
    | OnTimeoutCall
    | SendCall

  // Done is the library's "nothing to do" error.
  datatype Outcome = Fine | Done | Failed

  datatype View = View(
    uniLeft: nat,
    bidiLeft: nat,
    writable: seq<nat>,
    readable: seq<nat>,
    established: bool,
    closed: bool,
    timeout: Option<Time>,
    nextRelease: Time -> Option<Time>)

  datatype Reply = Reply(outcome: Outcome, flag: bool, view: View)

  // `calls` are the calls made so far, `drained` the ids that `stream_readable_next` yielded
  // since the connection was wrapped; call number i is answered by `replies(i)`.
  datatype Quiche = Quiche(
    isServer: bool,
    sourceId: ConnectionId,
    view: View,
    calls: seq<Call>,
    drained: seq<nat>,
    replies: nat -> Reply)
  {
    function Outcome(): Outcome {
      replies(|calls|).outcome
    }

    function Flag(): bool {
      replies(|calls|).flag
    }

    // A call may change anything that can be read, but stream credits grow only when
    // packets are received, and a closed connection stays closed.
    function Invoke(call: Call): Quiche {
      var v := replies(|calls|).view;
      this.(
        view := v.(uniLeft := Min(view.uniLeft, v.uniLeft), bidiLeft := Min(view.bidiLeft, v.bidiLeft),
                   closed := view.closed || v.closed),
        calls := calls + [call])
    }

    function PopWritable(): Quiche
      requires view.writable != []
    {
      this.(view := view.(writable := view.writable[1..]))
    }

    function PopReadable(): Quiche
      requires view.readable != []
    {
      this.(view := view.(readable := view.readable[1..]), drained := drained + [view.readable[0]])
    }

    function StreamsLeft(kind: StreamKind): nat {
      if kind.Uni? then view.uniLeft else view.bidiLeft
    }
  }

  // What later states of one connection keep.
  ghost predicate Continues(q: Quiche, q': Quiche) {
    && q'.isServer == q.isServer && q'.sourceId == q.sourceId && q'.replies == q.replies
    && q.calls <= q'.calls
    && (q.view.closed ==> q'.view.closed)
  }

  ghost predicate Evolves(q: Quiche, q': Quiche) {
    Continues(q, q') && q'.view.uniLeft <= q.view.uniLeft && q'.view.bidiLeft <= q.view.bidiLeft
  }

  function MinOfSome(v1: Option<Time>, v2: Option<Time>): (r: Option<Time>)
    ensures r.None? <==> v1.None? && v2.None?
    ensures r.Some? ==> r == v1 || r == v2
    ensures v1.Some? ==> r.value <= v1.value
    ensures v2.Some? ==> r.value <= v2.value
  {
    match (v1, v2)
    case (Some(a), Some(b)) => Some(if a <= b then a else b)
    case (Some(v), None) => Some(v)
    case (None, Some(v)) => Some(v)
    case (None, None) => None
  }

  // The instant to which a `Send` event is delayed after a release.
  function DelaySend(q: Quiche, now: Time, sendDone: bool): (r: Option<Time>)
    ensures r.None? <==> q.view.nextRelease(now).None? && (sendDone ==> q.view.timeout.None?)
    ensures r.Some? ==> r == q.view.timeout || r == q.view.nextRelease(now)
    ensures r.Some? && q.view.timeout.Some? ==> r.value <= q.view.timeout.value
    ensures r.Some? && q.view.nextRelease(now).Some? ==> r.value <= q.view.nextRelease(now).value
  {
    var release := q.view.nextRelease(now);
    if sendDone then MinOfSome(q.view.timeout, release)
    else if release.Some? then MinOfSome(q.view.timeout, release)
    else None
  }

  function ReleaseTime(q: Quiche, now: Time, threshold: nat): Option<Time> {
    match q.view.nextRelease(now)
    case Some(t) => if t - now > threshold then Some(t) else None
    case None => None
  }
}
