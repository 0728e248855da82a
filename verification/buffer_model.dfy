/**
 * The value-level specification of the growable I/O buffer: a byte vector
 * with a reserved 8-byte prepend area, a read cursor and a write cursor.
 * Each operation of the buffer class is specified by a function here, and
 * the properties the buffer promises are proved about these functions.
 */
module BufferModel {
  import opened Sys

  const CheapPrepend: nat := 8
  const InitialSize: nat := 1024
  /** Size of the stack scratch area used by the scatter read. */
  const ExtraBufSize: nat := 65536

  /** The three fields of a buffer: the vector, readIndex_ and writeIndex_. */
  datatype BufferState = BufferState(storage: seq<byte>, readIndex: nat, writeIndex: nat)
  {
    /** The cursor invariant every operation keeps. */
    predicate Valid()
    {
      CheapPrepend <= readIndex <= writeIndex <= |storage|
    }

    /** The bytes between the cursors: what a reader sees through peek(). */
    function Readable(): seq<byte>
      requires Valid()
    {
      storage[readIndex..writeIndex]
    }

    function ReadableBytes(): (n: nat)
      requires Valid()
      ensures n == |Readable()|
    {
      writeIndex - readIndex
    }

    function WriteableBytes(): (n: nat)
      requires Valid()
      ensures writeIndex + n == |storage|
    {
      |storage| - writeIndex
    }

    function PrependableBytes(): (n: nat)
      requires Valid()
      ensures CheapPrepend <= n <= writeIndex
    {
      readIndex
    }
  }

  function Zeros(n: nat): (z: seq<byte>)
    ensures |z| == n
  {
    seq(n, _ => 0)
  }

  /** std::vector::resize: keeps the first n elements, pads with zero bytes. */
  function Resize(s: seq<byte>, n: nat): (r: seq<byte>)
    ensures |r| == n
    ensures forall i :: 0 <= i < n && i < |s| ==> r[i] == s[i]
  {
    if n <= |s| then s[..n] else s + Zeros(n - |s|)
  }

  /** Copies d into s starting at offset at, leaving every other element alone. */
  function Overwrite(s: seq<byte>, at: nat, d: seq<byte>): (r: seq<byte>)
    requires at + |d| <= |s|
    ensures |r| == |s|
    ensures r[at..at + |d|] == d
    ensures r[..at] == s[..at]
    ensures r[at + |d|..] == s[at + |d|..]
  {
    s[..at] + d + s[at + |d|..]
  }

  /** A freshly constructed buffer. */
  function Initial(): (b: BufferState)
    ensures b.Valid()
    ensures |b.storage| == CheapPrepend + InitialSize
    ensures b.PrependableBytes() == CheapPrepend
    ensures b.ReadableBytes() == 0 && b.Readable() == []
    ensures b.WriteableBytes() == InitialSize
  {
    BufferState(Zeros(CheapPrepend + InitialSize), CheapPrepend, CheapPrepend)
  }

  /** The test makeSpace uses to choose compaction over reallocation. */
  predicate CanCompact(b: BufferState, len: nat)
    requires b.Valid()
  {
    b.PrependableBytes() + b.WriteableBytes() - CheapPrepend >= len
  }

  /**
   * makeSpace: either slide the readable bytes down to the end of the
   * reserved area (capacity unchanged), or grow the vector to writeIndex + len.
   */
  function MakeSpace(b: BufferState, len: nat): (r: BufferState)
    requires b.Valid()
    ensures r.Valid()
    ensures r.Readable() == b.Readable()
    ensures r.WriteableBytes() >= len
    ensures CanCompact(b, len) ==>
              |r.storage| == |b.storage| && r.readIndex == CheapPrepend
    ensures !CanCompact(b, len) ==>
              |r.storage| == b.writeIndex + len && r.readIndex == b.readIndex && r.writeIndex == b.writeIndex
  {
    if CanCompact(b, len) then
      var readable := b.ReadableBytes();
      var moved := Overwrite(b.storage, CheapPrepend, b.Readable());
      BufferState(moved, CheapPrepend, CheapPrepend + readable)
    else
      var grown := Resize(b.storage, b.writeIndex + len);
      assert grown[b.readIndex..b.writeIndex] == b.storage[b.readIndex..b.writeIndex];
      BufferState(grown, b.readIndex, b.writeIndex)
  }

  /** append(data, len): make room if needed, copy at the write cursor, advance it. */
  function Append(b: BufferState, data: seq<byte>): (r: BufferState)
    requires b.Valid()
    ensures r.Valid()
    ensures r.Readable() == b.Readable() + data
    ensures b.WriteableBytes() >= |data| ==>
              r.readIndex == b.readIndex && r.writeIndex == b.writeIndex + |data| && |r.storage| == |b.storage|
    ensures b.WriteableBytes() < |data| && CanCompact(b, |data|) ==>
              r.readIndex == CheapPrepend && |r.storage| == |b.storage|
    ensures b.WriteableBytes() < |data| && !CanCompact(b, |data|) ==>
              r.readIndex == b.readIndex && |r.storage| == b.writeIndex + |data|
  {
    var c := if b.WriteableBytes() < |data| then MakeSpace(b, |data|) else b;
    var r := BufferState(Overwrite(c.storage, c.writeIndex, data), c.readIndex, c.writeIndex + |data|);
    assert r.Readable() == c.Readable() + data by {
      assert r.storage[..c.writeIndex] == c.storage[..c.writeIndex];
      assert r.storage[c.readIndex..c.writeIndex] == c.storage[..c.writeIndex][c.readIndex..];
    }
    r
  }

  /** retrieveAll: both cursors back to the end of the reserved area. */
  function RetrieveAll(b: BufferState): (r: BufferState)
    requires b.Valid()
    ensures r.Valid() && r.storage == b.storage
    ensures r.readIndex == CheapPrepend && r.writeIndex == CheapPrepend
    ensures r.Readable() == []
  {
    BufferState(b.storage, CheapPrepend, CheapPrepend)
  }

  /** retrieve(len): drop the first len readable bytes, or empty the buffer. */
  function Retrieve(b: BufferState, len: nat): (r: BufferState)
    requires b.Valid()
    ensures r.Valid() && r.storage == b.storage
    ensures len < b.ReadableBytes() ==>
              r.Readable() == b.Readable()[len..] && r.readIndex == b.readIndex + len && r.writeIndex == b.writeIndex
    ensures len >= b.ReadableBytes() ==>
              r.Readable() == [] && r.readIndex == CheapPrepend && r.writeIndex == CheapPrepend
  {
    if len < b.ReadableBytes() then b.(readIndex := b.readIndex + len) else RetrieveAll(b)
  }

  /** A string taken out of a buffer, and the buffer left behind. */
  datatype Taken = Taken(bytes: seq<byte>, rest: BufferState)

  /** retrieveAsString(len): copy the first len readable bytes, then retrieve them. */
  function RetrieveAsString(b: BufferState, len: nat): (r: Taken)
    requires b.Valid() && len <= b.ReadableBytes()
    ensures r.rest.Valid()
    ensures r.bytes == b.Readable()[..len]
    ensures r.bytes + r.rest.Readable() == b.Readable()
  {
    Taken(b.Readable()[..len], Retrieve(b, len))
  }

  /** retrieveAllAsString: the whole readable region, leaving an empty buffer. */
  function RetrieveAllAsString(b: BufferState): (r: Taken)
    requires b.Valid()
    ensures r.rest.Valid()
    ensures r.bytes == b.Readable()
    ensures r.rest.Readable() == [] && r.rest.readIndex == CheapPrepend && r.rest.writeIndex == CheapPrepend
  {
    RetrieveAsString(b, b.ReadableBytes())
  }

  /**
   * The iovec array readFd hands to readv: the writable tail, and the scratch
   * area only while the tail is smaller than it.
   */
  function ScatterSegments(writeable: nat): (v: seq<nat>)
    ensures |v| == (if writeable < ExtraBufSize then 2 else 1) && v[0] == writeable
  {
    if writeable < ExtraBufSize then [writeable, ExtraBufSize] else [writeable]
  }

  /** The most bytes one scatter read can deliver: the sum of the segments. */
  function ReadCapacity(writeable: nat): (n: nat)
    ensures n == writeable + (if writeable < ExtraBufSize then ExtraBufSize else 0)
  {
    var v := ScatterSegments(writeable);
    if |v| == 2 then v[0] + v[1] else v[0]
  }

  /** Bytes that readv placed straight into the writable tail: the write cursor advances over them. */
  function FillTail(b: BufferState, d: seq<byte>): (r: BufferState)
    requires b.Valid() && |d| <= b.WriteableBytes()
    ensures r.Valid() && |r.storage| == |b.storage|
    ensures r.readIndex == b.readIndex && r.writeIndex == b.writeIndex + |d|
    ensures r.Readable() == b.Readable() + d
  {
    var r := BufferState(Overwrite(b.storage, b.writeIndex, d), b.readIndex, b.writeIndex + |d|);
    assert r.storage[..b.writeIndex] == b.storage[..b.writeIndex];
    assert r.storage[b.readIndex..b.writeIndex] == b.storage[..b.writeIndex][b.readIndex..];
    r
  }

  datatype ReadOutcome = ReadOutcome(n: int, savedErrno: int, after: BufferState)

  /**
   * readFd with the readv result as input: on failure record errno and leave
   * the cursors; otherwise the bytes land in the tail, and what overflowed
   * into the scratch area is appended.
   */
  function ReadFd(b: BufferState, input: ReadResult, savedErrno: int): (r: ReadOutcome)
    requires b.Valid()
    requires input.ReadBytes? ==> |input.data| <= ReadCapacity(b.WriteableBytes())
    ensures r.n == ReadReturn(input)
    ensures r.after.Valid()
    ensures input.ReadFailed? ==> r.savedErrno == input.errno && r.after == b
    ensures input.ReadBytes? ==> r.savedErrno == savedErrno && r.after.Readable() == b.Readable() + input.data
    ensures input.ReadBytes? && |input.data| <= b.WriteableBytes() ==>
              |r.after.storage| == |b.storage| && r.after.readIndex == b.readIndex &&
              r.after.writeIndex == b.writeIndex + |input.data|
  {
    match input
    case ReadFailed(e) => ReadOutcome(-1, e, b)
    case ReadBytes(data) =>
      var writeable := b.WriteableBytes();
      if |data| <= writeable then
        ReadOutcome(|data|, savedErrno, FillTail(b, data))
      else
        var filled := FillTail(b, data[..writeable]);
        SplitAt(b.Readable(), data, writeable);
        ReadOutcome(|data|, savedErrno, Append(filled, data[writeable..]))
  }

  /** Appending a prefix of `d` and then the rest appends `d`. */
  lemma SplitAt(a: seq<byte>, d: seq<byte>, k: nat)
    requires k <= |d|
    ensures (a + d[..k]) + d[k..] == a + d
  {
    assert d == d[..k] + d[k..];
  }

  /** What a client does with a buffer: add bytes, or take up to len bytes as a string. */
  datatype BufferOp = Put(data: seq<byte>) | Take(len: nat)

  /** One client step; a Take beyond the readable count takes everything. */
  function Step(b: BufferState, op: BufferOp): (r: Taken)
    requires b.Valid()
    ensures r.rest.Valid()
  {
    match op
    case Put(data) => Taken([], Append(b, data))
    case Take(len) =>
      if len <= b.ReadableBytes() then RetrieveAsString(b, len) else RetrieveAllAsString(b)
  }

  /** Runs a sequence of client steps; bytes holds everything taken, in order. */
  function Run(b: BufferState, ops: seq<BufferOp>): (r: Taken)
    requires b.Valid()
    ensures r.rest.Valid()
    decreases |ops|
  {
    if ops == [] then Taken([], b)
    else
      var first := Step(b, ops[0]);
      var tail := Run(first.rest, ops[1..]);
      Taken(first.bytes + tail.bytes, tail.rest)
  }

  /** Every byte a sequence of steps puts into the buffer, in order. */
  function Inputs(ops: seq<BufferOp>): seq<byte>
  {
    if ops == [] then []
    else (if ops[0].Put? then ops[0].data else []) + Inputs(ops[1..])
  }

  lemma StepIsFifo(b: BufferState, op: BufferOp)
    requires b.Valid()
    ensures Step(b, op).bytes + Step(b, op).rest.Readable() ==
            b.Readable() + (if op.Put? then op.data else [])
  {
    match op
    case Put(data) =>
      assert Step(b, op).rest.Readable() == b.Readable() + data;
      assert [] + (b.Readable() + data) == b.Readable() + data;
    case Take(len) =>
      var r := if len <= b.ReadableBytes() then RetrieveAsString(b, len) else RetrieveAllAsString(b);
      assert Step(b, op) == r;
      assert b.Readable() + [] == b.Readable();
  }

  /**
   * The buffer is a FIFO byte stream: after any sequence of appends and
   * retrievals, what was taken followed by what is still readable is exactly
   * what was readable before followed by everything appended.
   */
  lemma {:induction false} RunIsFifo(b: BufferState, ops: seq<BufferOp>)
    requires b.Valid()
    ensures Run(b, ops).bytes + Run(b, ops).rest.Readable() == b.Readable() + Inputs(ops)
    decreases |ops|
  {
    if ops != [] {
      var first := Step(b, ops[0]);
      var tail := Run(first.rest, ops[1..]);
      var put := if ops[0].Put? then ops[0].data else [];
      StepIsFifo(b, ops[0]);
      RunIsFifo(first.rest, ops[1..]);
      assert Run(b, ops) == Taken(first.bytes + tail.bytes, tail.rest);
      assert Inputs(ops) == put + Inputs(ops[1..]);
      assert tail.bytes + tail.rest.Readable() == first.rest.Readable() + Inputs(ops[1..]);
      assert first.bytes + first.rest.Readable() == b.Readable() + put;
      SeqAssoc4(first.bytes, tail.bytes, tail.rest.Readable(), first.rest.Readable(), Inputs(ops[1..]), b.Readable(), put);
    }
  }

  lemma SeqAssoc4(a: seq<byte>, t: seq<byte>, rest: seq<byte>, mid: seq<byte>, more: seq<byte>, start: seq<byte>, put: seq<byte>)
    requires t + rest == mid + more
    requires a + mid == start + put
    ensures (a + t) + rest == start + (put + more)
  {
    calc {
      (a + t) + rest;
      a + (t + rest);
      a + (mid + more);
      (a + mid) + more;
      (start + put) + more;
    }
  }

  /** Appending b to an empty buffer and then taking |b| bytes gives back b and leaves nothing readable. */
  lemma AppendRetrieveRoundTrip(e: BufferState, data: seq<byte>)
    requires e.Valid() && e.ReadableBytes() == 0
    ensures Append(e, data).ReadableBytes() == |data|
    ensures RetrieveAsString(Append(e, data), |data|).bytes == data
    ensures RetrieveAsString(Append(e, data), |data|).rest.ReadableBytes() == 0
  {
    assert e.Readable() == [];
  }
}
