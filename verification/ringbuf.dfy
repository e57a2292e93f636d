// The in-memory ring buffer: monotone cursors, indices taken modulo the capacity.
module RingBuffer {
  import opened Api

  // The cell a cursor falls on: `pos % capacity`, by laps so that proofs stay linear.
  function Cell(pos: nat, capacity: nat): (c: nat)
    requires capacity > 0
    ensures c < capacity
  {
    if pos < capacity then pos else Cell(pos - capacity, capacity)
  }

  lemma ProductAtLeast(k: int, cap: nat)
    ensures k >= 1 ==> k * cap >= cap
    ensures k <= -1 ==> k * cap + cap <= 0
  {
  }

  lemma RemainderUnique(x: int, q: int, d: nat, cap: nat)
    requires d < cap && x == q * cap + d
    ensures x % cap == d
  {
    var k := q - x / cap;
    assert k * cap == q * cap - (x / cap) * cap == x % cap - d;
    ProductAtLeast(k, cap);
  }

  lemma {:induction false} CellIsRemainder(pos: nat, capacity: nat)
    requires capacity > 0
    ensures Cell(pos, capacity) == pos % capacity
  {
    if pos >= capacity {
      CellIsRemainder(pos - capacity, capacity);
      var q := (pos - capacity) / capacity;
      assert (q + 1) * capacity == q * capacity + capacity;
      RemainderUnique(pos, q + 1, Cell(pos - capacity, capacity), capacity);
    } else {
      RemainderUnique(pos, 0, pos, capacity);
    }
  }

  // Moving a cursor by at most one lap moves its cell by as much, or wraps once.
  lemma {:induction false} CellAdd(pos: nat, i: nat, cap: nat)
    requires 0 < cap && i <= cap
    ensures var c := Cell(pos, cap); Cell(pos + i, cap) == if c + i < cap then c + i else c + i - cap
  {
    if pos >= cap {
      CellAdd(pos - cap, i, cap);
    } else if pos + i >= cap {
      assert pos + i - cap < cap;
    }
  }

  // How far cell `k` lies ahead of the cell of cursor `pos`.
  function Ahead(pos: nat, k: nat, cap: nat): nat
    requires k < cap
  {
    var c := Cell(pos, cap);
    if c <= k then k - c else k + cap - c
  }

  lemma AheadIsInverse(pos: nat, k: nat, cap: nat)
    requires k < cap
    ensures Ahead(pos, k, cap) < cap && Cell(pos + Ahead(pos, k, cap), cap) == k
  {
    CellAdd(pos, Ahead(pos, k, cap), cap);
  }

  lemma AheadOfCell(pos: nat, i: nat, cap: nat)
    requires i < cap
    ensures Ahead(pos, Cell(pos + i, cap), cap) == i
  {
    CellAdd(pos, i, cap);
  }

  // The `n` bytes of `block` that start at cursor `pos`, wrapping around its end.
  function Window(block: seq<byte>, pos: nat, n: nat): seq<byte>
    requires |block| > 0
  {
    seq(n, i requires 0 <= i < n => block[Cell(pos + i, |block|)])
  }

  // `block` with `data` laid over it from cursor `pos` on, wrapping around its end.
  function Overlay(block: seq<byte>, pos: nat, data: seq<byte>): seq<byte>
    requires |block| > 0
  {
    seq(|block|, k requires 0 <= k < |block| =>
      if Ahead(pos, k, |block|) < |data| then data[Ahead(pos, k, |block|)] else block[k])
  }

  // The pair (Range, Option<RangeTo>) by which a wrapping region is handed out.
  datatype Spans = Spans(start: nat, end: nat, second: Option<nat>)

  function Split(pos: nat, size: nat, capacity: nat): Spans
    requires capacity > 0
  {
    var start, end := Cell(pos, capacity), Cell(pos + size, capacity);
    if size == 0 then Spans(start, end, None)
    else if start < end then Spans(start, end, None)
    else Spans(start, capacity, Some(end))
  }

  function Run(lo: nat, hi: nat): seq<nat>
    requires lo <= hi
  {
    seq(hi - lo, i requires 0 <= i => lo + i)
  }

  function Indices(s: Spans): seq<nat>
    requires s.start <= s.end
  {
    Run(s.start, s.end) + if s.second.Some? then Run(0, s.second.value) else []
  }

  // The spans list exactly the cells of cursors pos, pos + 1, .., pos + size - 1, in order.
  lemma SplitExact(pos: nat, size: nat, cap: nat)
    requires 0 < cap && size <= cap
    ensures var s := Split(pos, size, cap);
      && s.start <= s.end <= cap
      && (s.second.Some? ==> s.end == cap && s.second.value <= s.start)
      && |Indices(s)| == size
      && forall i :: 0 <= i < size ==> Indices(s)[i] == Cell(pos + i, cap)
  {
    CellAdd(pos, size, cap);
    forall i | 0 <= i < size
      ensures |Indices(Split(pos, size, cap))| == size
      ensures Indices(Split(pos, size, cap))[i] == Cell(pos + i, cap)
    {
      CellAdd(pos, i, cap);
    }
  }

  // Copying the spans one after the other copies the window.
  lemma WindowIsSpans(block: seq<byte>, pos: nat, size: nat)
    requires 0 < |block| && size <= |block|
    ensures var s := Split(pos, size, |block|);
      && s.start <= s.end <= |block| && (s.second.Some? ==> s.second.value <= |block|)
      && Window(block, pos, size)
         == block[s.start..s.end] + if s.second.Some? then block[..s.second.value] else []
  {
    SplitExact(pos, size, |block|);
    forall i | 0 <= i < size
      ensures var s := Split(pos, size, |block|);
        Window(block, pos, size)[i]
        == (block[s.start..s.end] + if s.second.Some? then block[..s.second.value] else [])[i]
    {
      CellAdd(pos, i, |block|);
    }
  }

  // Writing data to the spans one after the other overlays it.
  lemma OverlayIsSpans(block: seq<byte>, pos: nat, data: seq<byte>)
    requires 0 < |block| && |data| <= |block|
    ensures var s := Split(pos, |data|, |block|);
      && s.start <= s.end <= |block| && s.end - s.start <= |data|
      && (s.second.Some? ==> s.second.value == |data| - (s.end - s.start) <= s.start && s.end == |block|)
      && Overlay(block, pos, data)
         == (if s.second.Some?
             then data[s.end - s.start..] + block[s.second.value..s.start] + data[..s.end - s.start]
             else block[..s.start] + data + block[s.end..])
  {
    CellAdd(pos, |data|, |block|);
  }

  lemma SpansFit(pos: nat, n: nat, cap: nat)
    requires n <= cap && 0 < cap
    ensures var s := Split(pos, n, cap);
      && s.start <= s.end <= cap && s.end - s.start <= n
      && (s.second.Some? ==> s.second.value == n - (s.end - s.start) <= s.start && s.end == cap)
      && (s.second.None? ==> n == s.end - s.start)
  {
    CellAdd(pos, n, cap);
  }

  lemma OverlayCells(block: seq<byte>, pos: nat, data: seq<byte>, i: nat)
    requires |data| <= |block| && i < |block|
    ensures Overlay(block, pos, data)[Cell(pos + i, |block|)]
         == if i < |data| then data[i] else block[Cell(pos + i, |block|)]
  {
    AheadOfCell(pos, i, |block|);
  }

  datatype Ring = Ring(block: seq<byte>, readPos: nat, writePos: nat) {
    ghost predicate Valid() {
      |block| > 0 && readPos <= writePos <= readPos + |block|
    }

    function Readable(): nat
      requires Valid()
    {
      writePos - readPos
    }

    function Writable(): nat
      requires Valid()
    {
      readPos + |block| - writePos
    }

    function Contents(): seq<byte>
      requires Valid()
    {
      Window(block, readPos, Readable())
    }

    function Write(data: seq<byte>): Ring
      requires Valid()
    {
      var n := Min(Writable(), |data|);
      Ring(Overlay(block, writePos, data[..n]), readPos, writePos + n)
    }

    function Read(n: nat): Ring
      requires Valid()
    {
      this.(readPos := readPos + Min(Readable(), n))
    }

    // Length of the slice returned by `readable_buf`.
    function ReadSlice(): nat
      requires Valid()
    {
      var s := Split(readPos, Readable(), |block|);
      if s.start <= s.end then s.end - s.start else 0
    }

    // Length of the slice returned by `writable_buf`.
    function WriteSlice(): nat
      requires Valid()
    {
      var s := Split(writePos, Writable(), |block|);
      if s.start <= s.end then s.end - s.start else 0
    }

    // The block once `data` has been copied to the head of the `writable_buf` slice.
    function Fill(data: seq<byte>): Ring
      requires Valid() && |data| <= WriteSlice()
    {
      var lo := Cell(writePos, |block|);
      this.(block := seq(|block|, k requires 0 <= k < |block| =>
        if lo <= k < lo + |data| then data[k - lo] else block[k]))
    }

    function Commit(amt: nat): Ring
      requires Valid() && amt <= Writable()
    {
      this.(writePos := writePos + amt)
    }

    function Consume(amt: nat): Ring
      requires Valid() && amt <= Readable()
    {
      this.(readPos := readPos + amt)
    }
  }

  lemma OverlayWindow(block: seq<byte>, pos: nat, data: seq<byte>)
    requires |block| > 0 && |data| <= |block|
    ensures Window(Overlay(block, pos, data), pos, |data|) == data
  {
    forall i | 0 <= i < |data|
      ensures Window(Overlay(block, pos, data), pos, |data|)[i] == data[i]
    {
      OverlayCells(block, pos, data, i);
    }
  }

  // `write` appends the longest prefix of the data that fits; the accepted bytes
  // leave the unread ones untouched across every wrap.
  lemma WriteAppends(r: Ring, data: seq<byte>)
    requires r.Valid()
    ensures var r' := r.Write(data); var n := |r'.Contents()| - |r.Contents()|;
      && r'.Valid()
      && n == Min(|r.block| - |r.Contents()|, |data|)
      && r'.Contents() == r.Contents() + data[..n]
  {
    var n := Min(r.Writable(), |data|);
    var r' := r.Write(data);
    var cap := |r.block|;
    OverlayWindow(r.block, r.writePos, data[..n]);
    forall i | 0 <= i < r.Readable() + n
      ensures r'.Contents()[i] == (r.Contents() + data[..n])[i]
    {
      if i < r.Readable() {
        // The cell of an unread byte is the cell of writePos + (i + Writable()).
        var j := i + r.Writable();
        assert r.writePos + j == r.readPos + i + cap;
        CellAdd(r.readPos + i, cap, cap);
        OverlayCells(r.block, r.writePos, data[..n], j);
      } else {
        var j := i - r.Readable();
        assert r.readPos + i == r.writePos + j;
        OverlayCells(r.block, r.writePos, data[..n], j);
      }
    }
  }

  // `read` removes exactly the oldest bytes.
  lemma ReadRemoves(r: Ring, n: nat)
    requires r.Valid()
    ensures var m := Min(|r.Contents()|, n);
      r.Read(n).Valid() && r.Read(n).Contents() == r.Contents()[m..]
  {
  }

  lemma SplitMembers(pos: nat, size: nat, cap: nat, k: nat)
    requires 0 < cap && size <= cap && k < cap
    ensures Split(pos, size, cap).start <= Split(pos, size, cap).end
    ensures k in Indices(Split(pos, size, cap)) <==> Ahead(pos, k, cap) < size
  {
    SplitExact(pos, size, cap);
    var s := Indices(Split(pos, size, cap));
    if Ahead(pos, k, cap) < size {
      AheadIsInverse(pos, k, cap);
      assert s[Ahead(pos, k, cap)] == k;
    }
    if k in s {
      var i :| 0 <= i < |s| && s[i] == k;
      AheadOfCell(pos, i, cap);
    }
  }

  // The cells handed out for reading and those handed out for writing partition the block.
  lemma ReadableAndWritablePartition(r: Ring, k: nat)
    requires r.Valid() && k < |r.block|
    ensures var rd := Split(r.readPos, r.Readable(), |r.block|);
      var wr := Split(r.writePos, r.Writable(), |r.block|);
      && rd.start <= rd.end && wr.start <= wr.end
      && |Indices(rd)| + |Indices(wr)| == |r.block|
      && (k in Indices(rd) <==> k !in Indices(wr))
  {
    var cap := |r.block|;
    SplitExact(r.readPos, r.Readable(), cap);
    SplitExact(r.writePos, r.Writable(), cap);
    SplitMembers(r.readPos, r.Readable(), cap, k);
    SplitMembers(r.writePos, r.Writable(), cap, k);
    CellAdd(r.readPos, r.Readable(), cap);
  }

  lemma ReadSliceLength(r: Ring)
    requires r.Valid()
    ensures r.ReadSlice() == Min(r.Readable(), |r.block| - Cell(r.readPos, |r.block|))
  {
    SplitExact(r.readPos, r.Readable(), |r.block|);
    CellAdd(r.readPos, r.Readable(), |r.block|);
  }

  lemma WriteSliceLength(r: Ring)
    requires r.Valid()
    ensures r.WriteSlice() == Min(r.Writable(), |r.block| - Cell(r.writePos, |r.block|))
  {
    SplitExact(r.writePos, r.Writable(), |r.block|);
    CellAdd(r.writePos, r.Writable(), |r.block|);
  }

  // Filling the head of the writable slice and committing it is the same state change
  // as a copying write of the same bytes.
  lemma FillThenCommitIsWrite(r: Ring, data: seq<byte>)
    requires r.Valid() && |data| <= r.WriteSlice()
    ensures |data| <= r.Writable()
    ensures r.Fill(data).Valid() && r.Fill(data).Contents() == r.Contents()
    ensures r.Fill(data).Commit(|data|) == r.Write(data)
  {
    WriteSliceLength(r);
    var cap, lo := |r.block|, Cell(r.writePos, |r.block|);
    var over := Overlay(r.block, r.writePos, data);
    assert data[..|data|] == data;
    forall k | 0 <= k < cap
      ensures r.Fill(data).block[k] == over[k]
    {
      AheadIsInverse(r.writePos, k, cap);
      CellAdd(r.writePos, Ahead(r.writePos, k, cap), cap);
    }
    assert r.Fill(data).block == over;
    WriteAppends(r, data);
    var w := r.Write(data);
    assert r.Fill(data).Contents() == w.Contents()[..r.Readable()];
  }

  // The readable slice is a prefix of the contents, and consuming part of it reads it.
  lemma SliceThenConsumeIsRead(r: Ring, amt: nat)
    requires r.Valid() && amt <= r.ReadSlice()
    ensures var lo := Cell(r.readPos, |r.block|);
      && amt <= r.ReadSlice() <= r.Readable() && lo + r.ReadSlice() <= |r.block|
      && r.block[lo..lo + r.ReadSlice()] == r.Contents()[..r.ReadSlice()]
      && r.Consume(amt) == r.Read(amt)
  {
    ReadSliceLength(r);
    var lo := Cell(r.readPos, |r.block|);
    forall i | 0 <= i < r.ReadSlice()
      ensures r.block[lo..lo + r.ReadSlice()][i] == r.Contents()[i]
    {
      CellAdd(r.readPos, i, |r.block|);
    }
  }

  // Fetching a slice and consuming all of it empties the ring in at most two rounds.
  lemma TwoRoundsEmpty(r: Ring)
    requires r.Valid()
    ensures r.ReadSlice() <= r.Readable()
    ensures var r1 := r.Consume(r.ReadSlice());
      && r1.Valid() && r1.ReadSlice() == r1.Readable()
      && r1.Consume(r1.ReadSlice()).Contents() == []
      && r.Contents() == r.Contents()[..r.ReadSlice()] + r1.Contents()
  {
    ReadSliceLength(r);
    SliceThenConsumeIsRead(r, r.ReadSlice());
    ReadRemoves(r, r.ReadSlice());
    var r1 := r.Consume(r.ReadSlice());
    ReadSliceLength(r1);
    if r.ReadSlice() < r.Readable() {
      CellAdd(r.readPos, r.ReadSlice(), |r.block|);
    }
  }

  // Filling and committing the whole slice fills the ring in at most two rounds.
  lemma TwoRoundsFill(r: Ring, a: seq<byte>, b: seq<byte>)
    requires r.Valid() && |a| == r.WriteSlice() && |b| == r.Writable() - |a|
    ensures |a| <= r.Writable()
    ensures var r1 := r.Fill(a).Commit(|a|);
      && r1.Valid() && |b| == r1.WriteSlice()
      && var r2 := r1.Fill(b).Commit(|b|);
      r2.Valid() && r2.Writable() == 0 && r2.Contents() == r.Contents() + a + b
  {
    WriteSliceLength(r);
    FillThenCommitIsWrite(r, a);
    WriteAppends(r, a);
    assert a[..|a|] == a;
    var r1 := r.Fill(a).Commit(|a|);
    WriteSliceLength(r1);
    if r.WriteSlice() < r.Writable() {
      CellAdd(r.writePos, r.WriteSlice(), |r.block|);
    }
    FillThenCommitIsWrite(r1, b);
    WriteAppends(r1, b);
    assert b[..|b|] == b;
  }

  // One call on the ring; the zero-copy calls clip to the slice that was handed out.
  datatype Op =
    | WriteOp(data: seq<byte>)
    | ReadOp(n: nat)
    | FillOp(data: seq<byte>)
    | ConsumeOp(n: nat)

  function Apply(r: Ring, op: Op): Ring
    requires r.Valid()
  {
    match op
    case WriteOp(data) => r.Write(data)
    case ReadOp(n) => r.Read(n)
    case FillOp(data) =>
      WriteSliceLength(r);
      var d := data[..Min(|data|, r.WriteSlice())];
      r.Fill(d).Commit(|d|)
    case ConsumeOp(n) =>
      ReadSliceLength(r);
      r.Consume(Min(n, r.ReadSlice()))
  }

  // What the caller handed in, and what it got out, by one call.
  function Accepted(r: Ring, op: Op): seq<byte>
    requires r.Valid()
  {
    match op
    case WriteOp(data) => data[..Min(r.Writable(), |data|)]
    case FillOp(data) => data[..Min(|data|, r.WriteSlice())]
    case _ => []
  }

  function Delivered(r: Ring, op: Op): seq<byte>
    requires r.Valid()
  {
    match op
    case ReadOp(n) => r.Contents()[..Min(r.Readable(), n)]
    case ConsumeOp(n) =>
      SliceThenConsumeIsRead(r, 0);
      var lo := Cell(r.readPos, |r.block|);
      r.block[lo..lo + Min(n, r.ReadSlice())]
    case _ => []
  }

  // What goes in comes out, in order; what is readable and what is writable fill the block.
  ghost predicate IsFifoStep(r: Ring, op: Op)
    requires r.Valid()
  {
    var r' := Apply(r, op);
    && r'.Valid() && |r'.block| == |r.block|
    && Delivered(r, op) + r'.Contents() == r.Contents() + Accepted(r, op)
    && |r'.Contents()| + r'.Writable() == |r.block|
  }

  lemma FillIsFifo(r: Ring, data: seq<byte>)
    requires r.Valid()
    ensures IsFifoStep(r, FillOp(data))
  {
    var d := data[..Min(|data|, r.WriteSlice())];
    FillThenCommitIsWrite(r, d);
    WriteAppends(r, d);
    assert d[..|d|] == d;
  }

  lemma PrefixOfSlice(block: seq<byte>, lo: nat, hi: nat, m: nat)
    requires lo <= hi <= |block| && m <= hi - lo
    ensures block[lo..hi][..m] == block[lo..lo + m]
  {
  }

  lemma ConsumeIsFifo(r: Ring, n: nat)
    requires r.Valid()
    ensures IsFifoStep(r, ConsumeOp(n))
  {
    var m := Min(n, r.ReadSlice());
    SliceThenConsumeIsRead(r, m);
    ReadRemoves(r, m);
    var lo := Cell(r.readPos, |r.block|);
    PrefixOfSlice(r.block, lo, lo + r.ReadSlice(), m);
  }

  lemma ApplyIsFifo(r: Ring, op: Op)
    requires r.Valid()
    ensures IsFifoStep(r, op)
  {
    match op
    case WriteOp(data) => WriteAppends(r, data);
    case ReadOp(n) => ReadRemoves(r, n);
    case FillOp(data) => FillIsFifo(r, data);
    case ConsumeOp(n) => ConsumeIsFifo(r, n);
  }

  function ApplyAll(r: Ring, ops: seq<Op>): (r': Ring)
    requires r.Valid()
    ensures r'.Valid()
    decreases |ops|
  {
    if ops == [] then r
    else
      ApplyIsFifo(r, ops[0]);
      ApplyAll(Apply(r, ops[0]), ops[1..])
  }

  function AcceptedAll(r: Ring, ops: seq<Op>): seq<byte>
    requires r.Valid()
    decreases |ops|
  {
    if ops == [] then []
    else
      ApplyIsFifo(r, ops[0]);
      Accepted(r, ops[0]) + AcceptedAll(Apply(r, ops[0]), ops[1..])
  }

  function DeliveredAll(r: Ring, ops: seq<Op>): seq<byte>
    requires r.Valid()
    decreases |ops|
  {
    if ops == [] then []
    else
      ApplyIsFifo(r, ops[0]);
      Delivered(r, ops[0]) + DeliveredAll(Apply(r, ops[0]), ops[1..])
  }

  // Two steps of a queue that keep "delivered, then buffered" make one.
  lemma FifoStepsCompose(d1: seq<byte>, c1: seq<byte>, c0: seq<byte>, a1: seq<byte>,
                         d2: seq<byte>, c2: seq<byte>, a2: seq<byte>)
    requires d1 + c1 == c0 + a1 && d2 + c2 == c1 + a2
    ensures (d1 + d2) + c2 == c0 + (a1 + a2)
  {
    assert (d1 + d2) + c2 == d1 + (d2 + c2);
    assert (d1 + c1) + a2 == d1 + (c1 + a2);
    assert (c0 + a1) + a2 == c0 + (a1 + a2);
  }

  // Over any interleaving of copying and zero-copy calls the ring is one bounded FIFO:
  // bytes delivered, then bytes buffered, are the initial bytes, then the bytes accepted.
  lemma {:induction false} RunIsFifo(r: Ring, ops: seq<Op>)
    requires r.Valid()
    ensures DeliveredAll(r, ops) + ApplyAll(r, ops).Contents() == r.Contents() + AcceptedAll(r, ops)
    ensures |ApplyAll(r, ops).block| == |r.block|
    decreases |ops|
  {
    if ops == [] {
      assert [] + r.Contents() == r.Contents() + [];
    } else {
      var op, rest := ops[0], ops[1..];
      var r' := Apply(r, op);
      ApplyIsFifo(r, op);
      RunIsFifo(r', rest);
      FifoStepsCompose(Delivered(r, op), r'.Contents(), r.Contents(), Accepted(r, op),
        DeliveredAll(r', rest), ApplyAll(r', rest).Contents(), AcceptedAll(r', rest));
    }
  }

  // The block as CopyIn leaves it is the overlay of the specification.
  lemma CopiedIsOverlay(was: seq<byte>, pos: nat, data: seq<byte>, n: nat, s: Spans, block: seq<byte>)
    requires 0 < n <= |data| && n <= |was| && s == Split(pos, n, |was|)
    requires s.start <= s.end <= |was| && s.end - s.start <= n
    requires s.second.Some? ==> s.second.value == n - (s.end - s.start) <= s.start && s.end == |was|
    requires s.second.None? ==> n == s.end - s.start
    requires block ==
      if s.second.Some? then data[s.end - s.start..n] + was[s.second.value..s.start] + data[..s.end - s.start]
      else was[..s.start] + data[..n] + was[s.end..]
    ensures block == Overlay(was, pos, data[..n])
  {
    OverlayIsSpans(was, pos, data[..n]);
  }

  // The ring buffer object. Its cursors are u64; an operation that adds the capacity to a
  // cursor needs the sum to stay below 2^64, as the original arithmetic does.
  class RingBuf {
    const block: array<byte>
    var readPos: nat
    var writePos: nat

    ghost function Model(): Ring
      reads this, block
    {
      Ring(block[..], readPos, writePos)
    }

    ghost predicate Valid()
      reads this, block
    {
      Model().Valid() && writePos < TWO_TO_THE_64
    }

    constructor WithCapacity(len: nat)
      requires len > 0
      ensures Valid() && fresh(block) && block.Length == len
      ensures Model().Contents() == [] && readPos == 0
    {
      block := new byte[len](_ => 0);
      readPos, writePos := 0, 0;
    }

    function Readable(): nat
      requires readPos <= writePos
      reads this
    {
      writePos - readPos
    }

    function Writable(): nat
      requires writePos <= readPos + block.Length
      reads this
    {
      readPos + block.Length - writePos
    }

    // The region of `size` cells from the read cursor on; the assertion of the original
    // that `size` does not exceed the readable length is the precondition.
    method ReadableRanges(size: nat) returns (s: Spans)
      requires Valid() && size <= Readable()
      ensures s == Split(readPos, size, block.Length)
    {
      s := Ranges(readPos, size, block.Length);
    }

    method WritableRanges(size: nat) returns (s: Spans)
      requires Valid() && size <= Writable() && readPos + block.Length < TWO_TO_THE_64
      ensures s == Split(writePos, size, block.Length)
    {
      s := Ranges(writePos, size, block.Length);
    }

    static method Ranges(pos: nat, size: nat, len: nat) returns (s: Spans)
      requires 0 < len
      ensures s == Split(pos, size, len)
    {
      var start, end := pos % len, (pos + size) % len;
      CellIsRemainder(pos, len);
      CellIsRemainder(pos + size, len);
      if size == 0 {
        return Spans(start, end, None);
      }
      if start < end {
        return Spans(start, end, None);
      }
      s := Spans(start, len, Some(end));
    }

    // Copies `src[lo..hi]` to `dst` from index `at` on.
    static method CopyFromSlice(dst: array<byte>, at: nat, src: array<byte>, lo: nat, hi: nat)
      requires dst != src && lo <= hi <= src.Length && at + (hi - lo) <= dst.Length
      modifies dst
      ensures dst[..] == old(dst[..at]) + src[lo..hi] + old(dst[at + (hi - lo)..])
    {
      forall i | 0 <= i < hi - lo {
        dst[at + i] := src[lo + i];
      }
    }

    method CopyOut(s: Spans, buf: array<byte>)
      requires buf != block && s.start <= s.end <= block.Length
      requires s.second.Some? ==> s.second.value <= block.Length
      requires s.end - s.start + s.second.GetOr(0) <= buf.Length
      modifies buf
      ensures buf[..] == block[s.start..s.end] + block[..s.second.GetOr(0)]
                         + old(buf[s.end - s.start + s.second.GetOr(0)..])
    {
      ghost var was, n := buf[..], s.end - s.start;
      CopyFromSlice(buf, 0, block, s.start, s.end);
      assert buf[..] == block[s.start..s.end] + was[n..];
      match s.second {
        case Some(end) =>
          CopyFromSlice(buf, s.end - s.start, block, 0, end);
        case None =>
      }
    }

    method CopyIn(s: Spans, buf: array<byte>, size: nat)
      requires buf != block && s.start <= s.end <= block.Length && s.end - s.start <= size <= buf.Length
      requires s.second.Some? ==> s.second.value == size - (s.end - s.start) <= s.start && s.end == block.Length
      requires s.second.None? ==> size == s.end - s.start
      modifies block
      ensures block[..] ==
        if s.second.Some?
        then buf[s.end - s.start..size] + old(block[s.second.value..s.start]) + buf[..s.end - s.start]
        else old(block[..s.start]) + buf[..size] + old(block[s.end..])
    {
      CopyFromSlice(block, s.start, buf, 0, s.end - s.start);
      match s.second {
        case Some(end) =>
          CopyFromSlice(block, 0, buf, s.end - s.start, size);
        case None =>
      }
    }

    method Read(buf: array<byte>) returns (readSize: nat)
      requires Valid() && buf != block
      modifies this`readPos, buf
      ensures Valid() && Model() == old(Model()).Read(buf.Length)
      ensures readSize == Min(|old(Model().Contents())|, buf.Length)
      ensures buf[..] == old(Model().Contents())[..readSize] + old(buf[readSize..])
    {
      readSize := Min(Readable(), buf.Length);
      if readSize == 0 {
        return;
      }
      var s := ReadableRanges(readSize);
      WindowIsSpans(block[..], readPos, readSize);
      CopyOut(s, buf);
      assert Window(block[..], readPos, readSize) == Model().Contents()[..readSize];
      readPos := readPos + readSize;
    }

    method Write(buf: array<byte>) returns (writeSize: nat)
      requires Valid() && buf != block && readPos + block.Length < TWO_TO_THE_64
      modifies this`writePos, block
      ensures Valid() && Model() == old(Model()).Write(buf[..])
      ensures writeSize == writePos - old(writePos)
    {
      writeSize := Min(Writable(), buf.Length);
      ghost var was := block[..];
      if writeSize == 0 {
        assert block[..] == Overlay(was, writePos, buf[..][..0]);
        return;
      }
      var s := WritableRanges(writeSize);
      SpansFit(writePos, writeSize, block.Length);
      CopyIn(s, buf, writeSize);
      CopiedIsOverlay(was, writePos, buf[..], writeSize, s, block[..]);
      hide Overlay, Cell, Split;
      writePos := writePos + writeSize;
    }

    // Returns the bounds of the slice of `block` that `writable_buf` lends out.
    method WritableBuf() returns (lo: nat, hi: nat)
      requires Valid() && readPos + block.Length < TWO_TO_THE_64
      ensures lo == Cell(writePos, block.Length) && hi - lo == Model().WriteSlice()
      ensures lo <= hi <= block.Length && hi - lo <= Writable()
      ensures lo == hi <==> Writable() == 0
    {
      var s := WritableRanges(Writable());
      SplitExact(writePos, Writable(), block.Length);
      WriteSliceLength(Model());
      lo, hi := s.start, s.end;
    }

    // Returns the bounds of the slice of `block` that `readable_buf` lends out.
    method ReadableBuf() returns (lo: nat, hi: nat)
      requires Valid()
      ensures lo == Cell(readPos, block.Length) && hi - lo == Model().ReadSlice()
      ensures lo <= hi <= block.Length && block[lo..hi] <= Model().Contents()
      ensures lo == hi <==> Readable() == 0
    {
      var s := ReadableRanges(Readable());
      SplitExact(readPos, Readable(), block.Length);
      ReadSliceLength(Model());
      SliceThenConsumeIsRead(Model(), 0);
      lo, hi := s.start, s.end;
      assert block[lo..hi] == block[..][lo..hi];
    }

    method ReadableConsume(amt: nat)
      requires Valid() && amt <= Readable()
      modifies this`readPos
      ensures Valid() && Model() == old(Model()).Consume(amt)
    {
      readPos := readPos + amt;
    }

    method WritableConsume(amt: nat)
      requires Valid() && amt <= Writable() && readPos + block.Length < TWO_TO_THE_64
      modifies this`writePos
      ensures Valid() && Model() == old(Model()).Commit(amt)
    {
      writePos := writePos + amt;
    }
  }
}
