// The in-memory pipe over the ring buffer: one waker slot a side, all calls under a spin lock.
module Pipes {
  import opened Api
  import opened RingBuffer

  // A waker is identified by the task it wakes; waking is recorded in `woken`.
  type Waker = nat

  datatype Pipe = Pipe(
    queue: seq<byte>,
    capacity: nat,
    reader: Option<Waker>,
    writer: Option<Waker>,
    closed: bool,
    woken: seq<Waker>)

  datatype Request =
    | Close
    | Read(len: nat)
    | Write(data: seq<byte>)
    | PollRead(waker: Waker, len: nat)
    | PollWrite(waker: Waker, data: seq<byte>)

  // Bytes(n) stands for Ok(n) and for Ready(Ok(n)).
  datatype Reply = Bytes(n: nat) | BrokenPipe | Pending

  datatype Served = Served(pipe: Pipe, reply: Reply, delivered: seq<byte>, accepted: seq<byte>)

  function WakeReader(p: Pipe): Pipe {
    match p.reader
    case Some(w) => p.(reader := None, woken := p.woken + [w])
    case None => p
  }

  function WakeWriter(p: Pipe): Pipe {
    match p.writer
    case Some(w) => p.(writer := None, woken := p.woken + [w])
    case None => p
  }

  function Serve(p: Pipe, req: Request): Served
    requires |p.queue| <= p.capacity
  {
    match req
    case Close =>
      Served(WakeReader(WakeWriter(p.(closed := true))), Bytes(0), [], [])
    case Read(len) =>
      var n := Min(|p.queue|, len);
      var p1 := WakeWriter(p.(queue := p.queue[n..]));
      Served(p1, if n == 0 && p.closed then BrokenPipe else Bytes(n), p.queue[..n], [])
    case Write(data) =>
      if p.closed then Served(p, BrokenPipe, [], []) else
      var n := Min(p.capacity - |p.queue|, |data|);
      Served(WakeReader(p.(queue := p.queue + data[..n])), Bytes(n), [], data[..n])
    case PollRead(waker, len) =>
      var n := Min(|p.queue|, len);
      var p1 := WakeWriter(p.(queue := p.queue[n..]));
      if n > 0 then Served(p1, Bytes(n), p.queue[..n], [])
      else if p.closed then Served(p1, Bytes(0), [], [])
      else Served(p1.(reader := Some(waker)), Pending, [], [])
    case PollWrite(waker, data) =>
      if p.closed then Served(p, Bytes(0), [], []) else
      var n := Min(p.capacity - |p.queue|, |data|);
      var p1 := WakeReader(p.(queue := p.queue + data[..n]));
      if n > 0 then Served(p1, Bytes(n), [], data[..n])
      else Served(p1.(writer := Some(waker)), Pending, [], [])
  }

  // A side is parked only while it cannot make progress.
  ghost predicate Sound(p: Pipe) {
    && 0 < p.capacity && |p.queue| <= p.capacity
    && (p.reader.Some? ==> p.queue == [] && !p.closed)
    && (p.writer.Some? ==> |p.queue| == p.capacity && !p.closed)
  }

  ghost predicate ParksWithProgress(p: Pipe, req: Request) {
    || (req.PollRead? && req.len == 0 && p.queue != [] && !p.closed)
    || (req.PollWrite? && req.data == [] && |p.queue| < p.capacity && !p.closed)
  }

  // The parking discipline survives a call exactly when the call is not a poll with an
  // empty buffer on an open pipe that could make progress.
  lemma SoundUnlessEmptyPoll(p: Pipe, req: Request)
    requires Sound(p)
    ensures Sound(Serve(p, req).pipe) <==> !ParksWithProgress(p, req)
  {
  }

  lemma NeverBothParked(p: Pipe)
    requires Sound(p)
    ensures p.reader.None? || p.writer.None?
  {
  }

  predicate EmptyBuffer(req: Request) {
    match req
    case Close => false
    case Read(len) => len == 0
    case Write(data) => data == []
    case PollRead(_, len) => len == 0
    case PollWrite(_, data) => data == []
  }

  // A call that lets a parked side make progress wakes it; but for calls with an empty buffer,
  // no other call wakes anybody.
  lemma WakesExactlyOnProgress(p: Pipe, req: Request)
    requires Sound(p)
    ensures var p' := Serve(p, req).pipe;
      && (p.reader.Some? && (p'.queue != [] || p'.closed) ==>
            p'.reader.None? && p'.woken == p.woken + [p.reader.value])
      && (p.writer.Some? && (|p'.queue| < p'.capacity || p'.closed) ==>
            p'.writer.None? && p'.woken == p.woken + [p.writer.value])
      && (p'.woken != p.woken && !EmptyBuffer(req) ==>
            || (p.reader.Some? && (p'.queue != [] || p'.closed))
            || (p.writer.Some? && (|p'.queue| < p'.capacity || p'.closed)))
  {
  }

  ghost predicate EndOfStream(req: Request, reply: Reply) {
    || (req.Read? && reply == BrokenPipe)
    || (req.PollRead? && reply == Bytes(0))
  }

  // End of stream is reported exactly when the pipe is closed and nothing is left for the
  // caller: all is drained, or the caller's buffer is empty.
  lemma EndOfStreamExactly(p: Pipe, req: Request)
    requires Sound(p) && (req.Read? || req.PollRead?)
    ensures EndOfStream(req, Serve(p, req).reply) <==> p.closed && (p.queue == [] || req.len == 0)
  {
  }

  // The pipe object; `woken` records the wakers invoked.
  class RawRingBufPipe {
    const ringBuf: RingBuf
    var reader: Option<Waker>
    var writer: Option<Waker>
    var closed: bool
    var woken: seq<Waker>

    ghost predicate Valid()
      reads this, ringBuf, ringBuf.block
    {
      ringBuf.Valid()
    }

    ghost function Model(): Pipe
      requires Valid()
      reads this, ringBuf, ringBuf.block
    {
      Pipe(ringBuf.Model().Contents(), ringBuf.block.Length, reader, writer, closed, woken)
    }

    constructor (buffered: nat)
      requires buffered > 0
      ensures Valid() && fresh(ringBuf) && fresh(ringBuf.block)
      ensures Model() == Pipe([], buffered, None, None, false, [])
    {
      ringBuf := new RingBuf.WithCapacity(buffered);
      reader, writer, closed, woken := None, None, false, [];
    }

    method TakeWriter()
      modifies this`writer, this`woken
      ensures writer == None
      ensures woken == old(woken) + if old(writer).Some? then [old(writer).value] else []
    {
      match writer {
        case Some(w) => writer, woken := None, woken + [w];
        case None =>
      }
    }

    method TakeReader()
      modifies this`reader, this`woken
      ensures reader == None
      ensures woken == old(woken) + if old(reader).Some? then [old(reader).value] else []
    {
      match reader {
        case Some(w) => reader, woken := None, woken + [w];
        case None =>
      }
    }

    method Close()
      requires Valid()
      modifies this
      ensures Valid() && Model() == Serve(old(Model()), Request.Close).pipe
    {
      closed := true;
      TakeWriter();
      TakeReader();
    }

    method Read(buf: array<byte>) returns (r: Reply)
      requires Valid() && buf != ringBuf.block
      modifies this, ringBuf`readPos, buf
      ensures Valid()
      ensures var s := Serve(old(Model()), Request.Read(buf.Length));
        && Model() == s.pipe && r == s.reply && buf[..] == s.delivered + old(buf[..])[|s.delivered|..]
    {
      ReadRemoves(ringBuf.Model(), buf.Length);
      var readSize := ringBuf.Read(buf);
      TakeWriter();
      if readSize == 0 {
        if closed {
          return BrokenPipe;
        }
        return Bytes(0);
      }
      r := Bytes(readSize);
    }

    method Write(buf: array<byte>) returns (r: Reply)
      requires Valid() && buf != ringBuf.block
      requires ringBuf.readPos + ringBuf.block.Length < TWO_TO_THE_64
      modifies this, ringBuf`writePos, ringBuf.block
      ensures Valid()
      ensures var s := Serve(old(Model()), Request.Write(buf[..])); Model() == s.pipe && r == s.reply
    {
      if closed {
        return BrokenPipe;
      }
      WriteAppends(ringBuf.Model(), buf[..]);
      var writeSize := ringBuf.Write(buf);
      TakeReader();
      if writeSize == 0 {
        return Bytes(0);
      }
      r := Bytes(writeSize);
    }

    method PollRead(waker: Waker, buf: array<byte>) returns (r: Reply)
      requires Valid() && buf != ringBuf.block
      modifies this, ringBuf`readPos, buf
      ensures Valid()
      ensures var s := Serve(old(Model()), Request.PollRead(waker, buf.Length));
        && Model() == s.pipe && r == s.reply && buf[..] == s.delivered + old(buf[..])[|s.delivered|..]
    {
      ReadRemoves(ringBuf.Model(), buf.Length);
      var readSize := ringBuf.Read(buf);
      TakeWriter();
      if readSize == 0 {
        if closed {
          return Bytes(0);
        }
        reader := Some(waker);
        return Pending;
      }
      r := Bytes(readSize);
    }

    method PollWrite(waker: Waker, buf: array<byte>) returns (r: Reply)
      requires Valid() && buf != ringBuf.block
      requires ringBuf.readPos + ringBuf.block.Length < TWO_TO_THE_64
      modifies this, ringBuf`writePos, ringBuf.block
      ensures Valid()
      ensures var s := Serve(old(Model()), Request.PollWrite(waker, buf[..]));
        Model() == s.pipe && r == s.reply
    {
      if closed {
        return Bytes(0);
      }
      WriteAppends(ringBuf.Model(), buf[..]);
      var writeSize := ringBuf.Write(buf);
      TakeReader();
      if writeSize == 0 {
        writer := Some(waker);
        return Pending;
      }
      r := Bytes(writeSize);
    }
  }

  // Threads around the spin lock: a call spins on the compare-exchange, runs the body, and
  // stores `false` back.
  datatype Pc = Idle | Spinning(req: Request) | Inside(req: Request) | Leaving(req: Request, reply: Reply)

  // `emptyPolls` tells whether any call so far was a poll with an empty buffer.
  datatype World = World(
    locker: bool,
    threads: map<nat, Pc>,
    pipe: Pipe,
    accepted: seq<byte>,
    delivered: seq<byte>,
    emptyPolls: bool)

  datatype Step =
    | Call(thread: nat, req: Request)
    | ExchangeFails(thread: nat)
    | ExchangeSucceeds(thread: nat)
    | Body(thread: nat)
    | Unlock(thread: nat)

  predicate InLock(pc: Pc) {
    pc.Inside? || pc.Leaving?
  }

  // A weak compare-exchange may fail on a free lock, but never succeeds on a taken one.
  ghost predicate Enabled(w: World, s: Step) {
    && s.thread in w.threads
    && match s
       case Call(t, req) => w.threads[t] == Idle
       case ExchangeFails(t) => w.threads[t].Spinning?
       case ExchangeSucceeds(t) => w.threads[t].Spinning? && !w.locker
       case Body(t) => w.threads[t].Inside?
       case Unlock(t) => w.threads[t].Leaving?
  }

  function Take(w: World, s: Step): World
    requires s.thread in w.threads && |w.pipe.queue| <= w.pipe.capacity
  {
    match s
    case Call(t, req) => w.(threads := w.threads[t := Spinning(req)], emptyPolls := w.emptyPolls || EmptyPoll(req))
    case ExchangeFails(t) => w
    case ExchangeSucceeds(t) =>
      if w.threads[t].Spinning? then
        w.(locker := true, threads := w.threads[t := Inside(w.threads[t].req)])
      else w
    case Body(t) =>
      if w.threads[t].Inside? then
        var served := Serve(w.pipe, w.threads[t].req);
        w.(pipe := served.pipe,
           accepted := w.accepted + served.accepted,
           delivered := w.delivered + served.delivered,
           threads := w.threads[t := Leaving(w.threads[t].req, served.reply)])
      else w
    case Unlock(t) => w.(locker := false, threads := w.threads[t := Idle])
  }

  predicate EmptyPoll(req: Request) {
    (req.PollRead? || req.PollWrite?) && EmptyBuffer(req)
  }

  // A thread about to leave with "end of stream" has seen the pipe closed and drained.
  ghost predicate ReplyJustified(w: World, req: Request, reply: Reply) {
    EndOfStream(req, reply) && req.len > 0 ==> w.pipe.closed && w.delivered == w.accepted
  }

  ghost predicate ThreadInv(w: World, pc: Pc) {
    && (!pc.Idle? && EmptyPoll(pc.req) ==> w.emptyPolls)
    && (InLock(pc) ==> w.locker)
    && (pc.Leaving? ==> ReplyJustified(w, pc.req, pc.reply))
  }

  ghost predicate MutualExclusion(w: World) {
    forall t, u :: t in w.threads && u in w.threads && InLock(w.threads[t]) && InLock(w.threads[u]) ==> t == u
  }

  // What holds even if polls park with an empty buffer.
  ghost predicate Bounded(p: Pipe) {
    0 < p.capacity && |p.queue| <= p.capacity && (p.closed ==> p.reader.None? && p.writer.None?)
  }

  ghost predicate WorldInv(w: World) {
    && Bounded(w.pipe) && (!w.emptyPolls ==> Sound(w.pipe))
    && w.delivered + w.pipe.queue == w.accepted
    && MutualExclusion(w)
    && forall t :: t in w.threads ==> ThreadInv(w, w.threads[t])
  }

  lemma ServeKeepsBounds(p: Pipe, req: Request)
    requires Bounded(p)
    ensures var p' := Serve(p, req).pipe;
      Bounded(p') && (p.closed ==> p'.closed) && (Sound(p) && !EmptyPoll(req) ==> Sound(p'))
  {
    if Sound(p) {
      SoundUnlessEmptyPoll(p, req);
    }
  }

  lemma ServeIsFifo(p: Pipe, req: Request)
    requires Bounded(p)
    ensures var s := Serve(p, req);
      && s.delivered + s.pipe.queue == p.queue + s.accepted
      && (p.closed ==> s.accepted == [])
      && (EndOfStream(req, s.reply) && req.len > 0 ==> s.pipe.closed && s.pipe.queue == [])
  {
  }

  // What a call answers, and what it moves: as much as fits; the count in the answer is the
  // number of bytes moved.
  lemma ServeAnswers(p: Pipe, req: Request)
    requires Bounded(p)
    ensures var s := Serve(p, req);
      && (s.reply.Bytes? ==> s.reply.n == |s.delivered| + |s.accepted|)
      && s.pipe.capacity == p.capacity && (s.pipe.closed <==> p.closed || req.Close?)
      && (match req
          case Close => s.delivered == [] && s.accepted == [] && s.reply.Bytes?
          case Read(len) =>
            && s.accepted == [] && s.delivered == p.queue[..Min(|p.queue|, len)]
            && (s.reply.BrokenPipe? <==> p.closed && s.delivered == []) && !s.reply.Pending?
          case PollRead(waker, len) =>
            && s.accepted == [] && s.delivered == p.queue[..Min(|p.queue|, len)]
            && (s.reply.Pending? <==> !p.closed && s.delivered == []) && !s.reply.BrokenPipe?
            && (s.reply.Pending? ==> s.pipe.reader == Some(waker))
          case Write(data) =>
            && s.delivered == []
            && s.accepted == (if p.closed then [] else data[..Min(p.capacity - |p.queue|, |data|)])
            && (s.reply.BrokenPipe? <==> p.closed) && !s.reply.Pending?
          case PollWrite(waker, data) =>
            && s.delivered == []
            && s.accepted == (if p.closed then [] else data[..Min(p.capacity - |p.queue|, |data|)])
            && (s.reply.Pending? <==> !p.closed && s.accepted == []) && !s.reply.BrokenPipe?
            && (s.reply.Pending? ==> s.pipe.writer == Some(waker)))
  {
  }

  function Listed(w: Option<Waker>): seq<Waker> {
    if w.Some? then [w.value] else []
  }

  // Whom a call wakes and whom it leaves parked: reading frees the writer, writing on an open
  // pipe the reader, closing both; only a poll that is pending parks its own side.
  lemma ServeWakes(p: Pipe, req: Request)
    requires Bounded(p)
    ensures var s := Serve(p, req); var p' := s.pipe;
      match req
      case Close =>
        p'.reader.None? && p'.writer.None? && p'.woken == p.woken + Listed(p.writer) + Listed(p.reader)
      case Read(_) => p'.writer.None? && p'.reader == p.reader && p'.woken == p.woken + Listed(p.writer)
      case PollRead(waker, _) =>
        && p'.writer.None? && p'.woken == p.woken + Listed(p.writer)
        && p'.reader == if s.reply.Pending? then Some(waker) else p.reader
      case Write(_) =>
        && p'.writer == p.writer && p'.reader == (if p.closed then p.reader else None)
        && p'.woken == p.woken + if p.closed then [] else Listed(p.reader)
      case PollWrite(waker, _) =>
        && p'.writer == (if s.reply.Pending? then Some(waker) else p.writer)
        && p'.reader == (if p.closed then p.reader else None)
        && p'.woken == p.woken + if p.closed then [] else Listed(p.reader)
  {
  }

  lemma ServeConserves(w: World, req: Request)
    requires Bounded(w.pipe) && w.delivered + w.pipe.queue == w.accepted
    ensures var s := Serve(w.pipe, req);
      && Bounded(s.pipe) && (Sound(w.pipe) && !EmptyPoll(req) ==> Sound(s.pipe))
      && (w.delivered + s.delivered) + s.pipe.queue == w.accepted + s.accepted
      && (w.pipe.closed ==> s.pipe.closed && s.accepted == [])
      && (EndOfStream(req, s.reply) && req.len > 0 ==> s.pipe.closed && s.pipe.queue == [])
  {
    var s := Serve(w.pipe, req);
    ServeKeepsBounds(w.pipe, req);
    ServeIsFifo(w.pipe, req);
    hide Serve, Bounded, Sound;
    FifoStepsCompose(w.delivered, w.pipe.queue, [], w.accepted, s.delivered, s.pipe.queue, s.accepted);
  }

  lemma BodyKeepsInv(w: World, t: nat)
    requires WorldInv(w) && Enabled(w, Body(t))
    ensures WorldInv(Take(w, Body(t)))
  {
    var req := w.threads[t].req;
    assert ThreadInv(w, w.threads[t]);
    ServeConserves(w, req);
    var s := Serve(w.pipe, req);
    var w' := Take(w, Body(t));
    assert w'.delivered + w'.pipe.queue == w'.accepted;
    forall u | u in w'.threads
      ensures ThreadInv(w', w'.threads[u])
    {
      if u == t {
        assert EndOfStream(req, s.reply) && req.len > 0 ==> w'.delivered + [] == w'.accepted;
      } else {
        assert ThreadInv(w, w.threads[u]) && !InLock(w.threads[u]);
      }
    }
  }

  lemma StepKeepsInv(w: World, s: Step)
    requires WorldInv(w) && Enabled(w, s)
    ensures WorldInv(Take(w, s))
    ensures w.pipe.closed ==> Take(w, s).pipe.closed && Take(w, s).accepted == w.accepted
  {
    if s.Body? {
      BodyKeepsInv(w, s.thread);
      assert ThreadInv(w, w.threads[s.thread]);
      ServeConserves(w, w.threads[s.thread].req);
    } else {
      assert ThreadInv(w, w.threads[s.thread]);
      var w' := Take(w, s);
      forall u | u in w'.threads
        ensures ThreadInv(w', w'.threads[u])
      {
        assert ThreadInv(w, w.threads[u]);
      }
    }
  }

  ghost predicate Runs(w: World, steps: seq<Step>)
    requires WorldInv(w)
    decreases |steps|
  {
    steps != [] ==> Enabled(w, steps[0]) && (StepKeepsInv(w, steps[0]); Runs(Take(w, steps[0]), steps[1..]))
  }

  ghost function After(w: World, steps: seq<Step>): (w': World)
    requires WorldInv(w) && Runs(w, steps)
    ensures WorldInv(w')
    decreases |steps|
  {
    if steps == [] then w else
      StepKeepsInv(w, steps[0]);
      After(Take(w, steps[0]), steps[1..])
  }

  ghost function Start(capacity: nat, threads: set<nat>): (w: World)
    requires capacity > 0
    ensures WorldInv(w)
  {
    World(false, map t | t in threads :: Idle, Pipe([], capacity, None, None, false, []), [], [], false)
  }

  ghost predicate PollsEmpty(s: Step) {
    s.Call? && EmptyPoll(s.req)
  }

  lemma {:induction false} EmptyPollsAreSeen(w: World, steps: seq<Step>)
    requires WorldInv(w) && Runs(w, steps)
    ensures After(w, steps).emptyPolls <==> w.emptyPolls || exists i :: 0 <= i < |steps| && PollsEmpty(steps[i])
    decreases |steps|
  {
    if steps != [] {
      StepKeepsInv(w, steps[0]);
      EmptyPollsAreSeen(Take(w, steps[0]), steps[1..]);
      assert Take(w, steps[0]).emptyPolls <==> w.emptyPolls || PollsEmpty(steps[0]);
      assert forall i :: 0 < i < |steps| ==> steps[i] == steps[1..][i - 1];
    }
  }

  // In every interleaving: at most one thread is in the body, what was delivered followed by
  // what is buffered is what was accepted, and a thread told "end of stream" missed nothing.
  // Unless some poll had an empty buffer, the two sides are never parked together nor parked
  // with progress possible.
  lemma PipeSafety(capacity: nat, threads: set<nat>, steps: seq<Step>)
    requires capacity > 0 && Runs(Start(capacity, threads), steps)
    ensures var w := After(Start(capacity, threads), steps);
      && MutualExclusion(w)
      && w.delivered + w.pipe.queue == w.accepted && |w.pipe.queue| <= w.pipe.capacity
      && (w.pipe.closed ==> w.pipe.reader.None? && w.pipe.writer.None?)
      && (forall t :: t in w.threads && w.threads[t].Leaving? ==>
            ReplyJustified(w, w.threads[t].req, w.threads[t].reply))
      && ((forall i :: 0 <= i < |steps| ==> !PollsEmpty(steps[i])) ==>
            && (w.pipe.reader.None? || w.pipe.writer.None?)
            && (w.pipe.reader.Some? ==> w.pipe.queue == [] && !w.pipe.closed)
            && (w.pipe.writer.Some? ==> |w.pipe.queue| == w.pipe.capacity && !w.pipe.closed))
  {
    var w := After(Start(capacity, threads), steps);
    EmptyPollsAreSeen(Start(capacity, threads), steps);
    forall t | t in w.threads && w.threads[t].Leaving?
      ensures ReplyJustified(w, w.threads[t].req, w.threads[t].reply)
    {
      assert ThreadInv(w, w.threads[t]);
    }
  }

  ghost predicate NoPollRead(w: World) {
    forall t :: t in w.threads && (w.threads[t].Spinning? || w.threads[t].Inside?) ==> !w.threads[t].req.PollRead?
  }

  ghost predicate NoPollWrite(w: World) {
    forall t :: t in w.threads && (w.threads[t].Spinning? || w.threads[t].Inside?) ==> !w.threads[t].req.PollWrite?
  }

  ghost predicate WokenSince(p: Pipe, p': Pipe, waker: Waker) {
    p.woken <= p'.woken && waker in p'.woken[|p.woken|..]
  }

  // One step keeps a parked side parked, or wakes it.
  lemma StepKeepsParked(w: World, s: Step)
    requires WorldInv(w) && Enabled(w, s)
    ensures var p, p' := w.pipe, Take(w, s).pipe;
      && p.woken <= p'.woken
      && (p.reader.Some? && NoPollRead(w) ==> p'.reader == p.reader || WokenSince(p, p', p.reader.value))
      && (p.writer.Some? && NoPollWrite(w) ==> p'.writer == p.writer || WokenSince(p, p', p.writer.value))
  {
    if s.Body? {
      ServeKeepsParked(w.pipe, w.threads[s.thread].req);
    }
  }

  lemma ServeKeepsParked(p: Pipe, req: Request)
    requires |p.queue| <= p.capacity
    ensures var p' := Serve(p, req).pipe;
      && p.woken <= p'.woken
      && (p.reader.Some? && !req.PollRead? ==> p'.reader == p.reader || WokenSince(p, p', p.reader.value))
      && (p.writer.Some? && !req.PollWrite? ==> p'.writer == p.writer || WokenSince(p, p', p.writer.value))
  {
    var p' := Serve(p, req).pipe;
    if p.reader.Some? && p'.reader.None? {
      assert p'.woken[|p'.woken| - 1] == p.reader.value;
    }
    if p.writer.Some? && p'.writer.None? {
      assert p'.woken[|p.woken|] == p.writer.value;
    }
  }

  lemma WokenStays(p: Pipe, p1: Pipe, p2: Pipe, waker: Waker)
    requires p.woken <= p1.woken <= p2.woken
    requires WokenSince(p, p1, waker) || WokenSince(p1, p2, waker)
    ensures WokenSince(p, p2, waker)
  {
    if WokenSince(p, p1, waker) {
      var i :| 0 <= i < |p1.woken[|p.woken|..]| && p1.woken[|p.woken|..][i] == waker;
      assert p2.woken[|p.woken|..][i] == waker;
    } else {
      var i :| 0 <= i < |p2.woken[|p1.woken|..]| && p2.woken[|p1.woken|..][i] == waker;
      assert p2.woken[|p.woken|..][|p1.woken| - |p.woken| + i] == waker;
    }
  }

  // No lost wakeup, reader side: while no other task polls for reading, a parked reader was
  // woken or is still parked, on an open pipe, and an empty one unless some poll had an empty
  // buffer.
  lemma {:induction false} ParkedReaderIsWoken(w: World, steps: seq<Step>, waker: Waker)
    requires WorldInv(w) && Runs(w, steps) && NoPollRead(w)
    requires forall i :: 0 <= i < |steps| && steps[i].Call? ==> !steps[i].req.PollRead?
    requires w.pipe.reader == Some(waker)
    ensures var w' := After(w, steps);
      || WokenSince(w.pipe, w'.pipe, waker)
      || (w'.pipe.reader == Some(waker) && !w'.pipe.closed && (w'.emptyPolls || w'.pipe.queue == []))
    decreases |steps|
  {
    if steps != [] {
      StepKeepsInv(w, steps[0]);
      StepKeepsParked(w, steps[0]);
      var w1 := Take(w, steps[0]);
      WokenGrows(w1, steps[1..]);
      if w1.pipe.reader == Some(waker) {
        ParkedReaderIsWoken(w1, steps[1..], waker);
      }
      if WokenSince(w.pipe, w1.pipe, waker) || WokenSince(w1.pipe, After(w, steps).pipe, waker) {
        WokenStays(w.pipe, w1.pipe, After(w, steps).pipe, waker);
      }
    }
  }

  lemma {:induction false} ParkedWriterIsWoken(w: World, steps: seq<Step>, waker: Waker)
    requires WorldInv(w) && Runs(w, steps) && NoPollWrite(w)
    requires forall i :: 0 <= i < |steps| && steps[i].Call? ==> !steps[i].req.PollWrite?
    requires w.pipe.writer == Some(waker)
    ensures var w' := After(w, steps);
      || WokenSince(w.pipe, w'.pipe, waker)
      || (w'.pipe.writer == Some(waker) && !w'.pipe.closed
          && (w'.emptyPolls || |w'.pipe.queue| == w'.pipe.capacity))
    decreases |steps|
  {
    if steps != [] {
      StepKeepsInv(w, steps[0]);
      StepKeepsParked(w, steps[0]);
      var w1 := Take(w, steps[0]);
      WokenGrows(w1, steps[1..]);
      if w1.pipe.writer == Some(waker) {
        ParkedWriterIsWoken(w1, steps[1..], waker);
      }
      if WokenSince(w.pipe, w1.pipe, waker) || WokenSince(w1.pipe, After(w, steps).pipe, waker) {
        WokenStays(w.pipe, w1.pipe, After(w, steps).pipe, waker);
      }
    }
  }

  lemma {:induction false} WokenGrows(w: World, steps: seq<Step>)
    requires WorldInv(w) && Runs(w, steps)
    ensures w.pipe.woken <= After(w, steps).pipe.woken
    decreases |steps|
  {
    if steps != [] {
      StepKeepsInv(w, steps[0]);
      StepKeepsParked(w, steps[0]);
      WokenGrows(Take(w, steps[0]), steps[1..]);
    }
  }

  // Nothing is accepted after close.
  lemma {:induction false} ClosedAcceptsNothing(w: World, steps: seq<Step>)
    requires WorldInv(w) && Runs(w, steps) && w.pipe.closed
    ensures After(w, steps).pipe.closed && After(w, steps).accepted == w.accepted
    decreases |steps|
  {
    if steps != [] {
      StepKeepsInv(w, steps[0]);
      ClosedAcceptsNothing(Take(w, steps[0]), steps[1..]);
    }
  }
}
