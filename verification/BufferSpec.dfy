/** The contents of a Buffer as a value: the whole vector and its two indices. */
module BufferSpec {

  newtype byte = x: int | 0 <= x < 256

  const CHEAP_PREPEND: nat := 8
  const INITIAL_SIZE: nat := 1024

  /** The stack space readFd hands to readv as second segment. */
  const EXTRA_SIZE: nat := 65536

  /** Buffer::writeFd offers writableBytes() bytes from peek(); readableBytes() is what its caller needs. */
  datatype Extent = AsWritten | Meant

  datatype Image = Image(store: seq<byte>, reader: nat, writer: nat) {
    predicate Valid() {
      CHEAP_PREPEND <= reader <= writer <= |store|
    }

    function Readable(): seq<byte>
      requires Valid()
    {
      store[reader..writer]
    }

    function ReadableBytes(): nat
      requires Valid()
    {
      writer - reader
    }

    function WritableBytes(): nat
      requires Valid()
    {
      |store| - writer
    }

    function Size(): nat { |store| }
  }

  function Zeros(n: nat): seq<byte> {
    seq(n, _ => 0)
  }

  const EMPTY: Image := Image(Zeros(CHEAP_PREPEND + INITIAL_SIZE), CHEAP_PREPEND, CHEAP_PREPEND)

  function RetrieveAll(b: Image): Image {
    b.(reader := CHEAP_PREPEND, writer := CHEAP_PREPEND)
  }

  function Retrieve(b: Image, len: nat): Image
    requires b.Valid()
  {
    if len < b.ReadableBytes() then b.(reader := b.reader + len) else RetrieveAll(b)
  }

  /** Grow at the end, or move the readable bytes back to the front, over themselves. */
  function MakeSpace(b: Image, len: nat): Image
    requires b.Valid()
  {
    if b.WritableBytes() + b.reader < len + CHEAP_PREPEND then
      b.(store := b.store + Zeros(len + b.writer - |b.store|))
    else
      var n := b.ReadableBytes();
      Image(b.store[..CHEAP_PREPEND] + b.Readable() + b.store[CHEAP_PREPEND + n..], CHEAP_PREPEND, CHEAP_PREPEND + n)
  }

  function EnsureWritable(b: Image, len: nat): Image
    requires b.Valid()
  {
    if b.WritableBytes() < len then MakeSpace(b, len) else b
  }

  /** Bytes stored from writeIndex_ on, which must have the room. */
  function Fill(b: Image, data: seq<byte>): Image
    requires b.Valid() && |data| <= b.WritableBytes()
  {
    Image(b.store[..b.writer] + data + b.store[b.writer + |data|..], b.reader, b.writer + |data|)
  }

  lemma EnsureWritableRoom(b: Image, len: nat)
    requires b.Valid()
    ensures var r := EnsureWritable(b, len);
            r.Valid() && r.Readable() == b.Readable() && len <= r.WritableBytes()
  {
  }

  function Append(b: Image, data: seq<byte>): Image
    requires b.Valid()
  {
    EnsureWritableRoom(b, |data|);
    Fill(EnsureWritable(b, |data|), data)
  }

  /** The most bytes one readv call of readFd can deliver. */
  function ReadCapacity(b: Image): nat
    requires b.Valid()
  {
    b.WritableBytes() + if b.WritableBytes() < EXTRA_SIZE then EXTRA_SIZE else 0
  }

  /** readFd after readv has delivered `got`: first the vector's tail, then the spill. */
  function ReadFd(b: Image, got: seq<byte>): Image
    requires b.Valid() && |got| <= ReadCapacity(b)
  {
    var n := b.WritableBytes();
    if |got| <= n then Fill(b, got) else Append(Fill(b, got[..n]), got[n..])
  }

  /** What writeFd offers the kernel. As written it runs from peek() over stale or unwritten bytes. */
  function Offered(form: Extent, b: Image): seq<byte>
    requires b.Valid()
  {
    match form
    case AsWritten => b.store[b.reader..b.reader + b.WritableBytes()]
    case Meant => b.Readable()
  }

  /** As written, writeFd offers nothing but pending bytes exactly when the free tail is no larger than them. */
  lemma OfferedPendingIff(b: Image)
    requires b.Valid()
    ensures Offered(AsWritten, b) <= b.Readable() <==> b.WritableBytes() <= b.ReadableBytes()
    ensures Offered(AsWritten, b) == [] <==> b.WritableBytes() == 0
  {
    if b.WritableBytes() <= b.ReadableBytes() {
      assert b.store[b.reader..b.writer][..b.WritableBytes()] == b.store[b.reader..b.reader + b.WritableBytes()];
    }
  }

  // ---------------------------------------------------------------- refinement to a byte queue

  datatype Op = DoAppend(data: seq<byte>) | DoRetrieve(len: nat) | DoRead(got: seq<byte>)

  predicate Possible(b: Image, op: Op)
    requires b.Valid()
  {
    op.DoRead? ==> |op.got| <= ReadCapacity(b)
  }

  function Perform(b: Image, op: Op): Image
    requires b.Valid() && Possible(b, op)
  {
    match op
    case DoAppend(data) => Append(b, data)
    case DoRetrieve(len) => Retrieve(b, len)
    case DoRead(got) => ReadFd(b, got)
  }

  /** The same operations on a plain queue of bytes. */
  function Queue(q: seq<byte>, op: Op): seq<byte> {
    match op
    case DoAppend(data) => q + data
    case DoRetrieve(len) => if len < |q| then q[len..] else []
    case DoRead(got) => q + got
  }

  lemma FillReadable(b: Image, data: seq<byte>)
    requires b.Valid() && |data| <= b.WritableBytes()
    ensures Fill(b, data).Valid() && Fill(b, data).Readable() == b.Readable() + data
  {
  }

  lemma AppendReadable(b: Image, data: seq<byte>)
    requires b.Valid()
    ensures Append(b, data).Valid() && Append(b, data).Readable() == b.Readable() + data
  {
    EnsureWritableRoom(b, |data|);
    FillReadable(EnsureWritable(b, |data|), data);
  }

  lemma PerformRefines(b: Image, op: Op)
    requires b.Valid() && Possible(b, op)
    ensures Perform(b, op).Valid() && Perform(b, op).Readable() == Queue(b.Readable(), op)
  {
    match op
    case DoAppend(data) => AppendReadable(b, data);
    case DoRetrieve(len) =>
    case DoRead(got) =>
      var n := b.WritableBytes();
      if |got| <= n {
        FillReadable(b, got);
      } else {
        FillReadable(b, got[..n]);
        AppendReadable(Fill(b, got[..n]), got[n..]);
        assert got == got[..n] + got[n..];
      }
  }

  ghost predicate PossibleRun(b: Image, ops: seq<Op>)
    decreases |ops|
  {
    b.Valid() && (ops == [] || (Possible(b, ops[0]) && PossibleRun(Perform(b, ops[0]), ops[1..])))
  }

  ghost function PerformAll(b: Image, ops: seq<Op>): Image
    requires PossibleRun(b, ops)
    decreases |ops|
  {
    if ops == [] then b else PerformAll(Perform(b, ops[0]), ops[1..])
  }

  function QueueAll(q: seq<byte>, ops: seq<Op>): seq<byte>
    decreases |ops|
  {
    if ops == [] then q else QueueAll(Queue(q, ops[0]), ops[1..])
  }

  /** Through compaction, growth and spill, the readable region is the byte queue. */
  lemma {:induction false} BufferIsQueue(b: Image, ops: seq<Op>)
    requires PossibleRun(b, ops)
    ensures PerformAll(b, ops).Valid()
    ensures PerformAll(b, ops).Readable() == QueueAll(b.Readable(), ops)
    decreases |ops|
  {
    if ops != [] {
      PerformRefines(b, ops[0]);
      BufferIsQueue(Perform(b, ops[0]), ops[1..]);
    }
  }

  // ---------------------------------------------------------------- the storage never runs away

  function Max(a: nat, b: nat): nat {
    if a < b then b else a
  }

  /** The largest number of readable bytes held at any point. */
  function Peak(q: seq<byte>, ops: seq<Op>): nat
    decreases |ops|
  {
    Max(|q|, if ops == [] then 0 else Peak(Queue(q, ops[0]), ops[1..]))
  }

  /** The first vector does for all that ever fits it; beyond that, twice the peak and six more. */
  function Bound(peak: nat): nat {
    if peak <= INITIAL_SIZE then CHEAP_PREPEND + INITIAL_SIZE else 2 * peak + 6
  }

  ghost predicate Compact(b: Image, peak: nat) {
    && b.Valid() && CHEAP_PREPEND + INITIAL_SIZE <= b.Size() <= Bound(peak)
    && b.ReadableBytes() <= peak
    && (b.ReadableBytes() == 0 ==> b.writer == CHEAP_PREPEND)
  }

  lemma AppendCompact(b: Image, data: seq<byte>, peak: nat)
    requires Compact(b, peak) && b.ReadableBytes() + |data| <= peak
    ensures Compact(Append(b, data), peak)
  {
    AppendReadable(b, data);
    assert |b.Readable()| == b.ReadableBytes();
    assert |Append(b, data).Readable()| == b.ReadableBytes() + |data|;
  }

  lemma PerformCompact(b: Image, op: Op, peak: nat)
    requires Compact(b, peak) && Possible(b, op) && |Queue(b.Readable(), op)| <= peak
    ensures Compact(Perform(b, op), peak)
  {
    match op
    case DoAppend(data) => AppendCompact(b, data, peak);
    case DoRetrieve(len) =>
    case DoRead(got) =>
      var n := b.WritableBytes();
      if |got| > n {
        var c := Fill(b, got[..n]);
        FillReadable(b, got[..n]);
        AppendCompact(c, got[n..], peak);
      }
  }

  lemma {:induction false} CompactFrom(b: Image, ops: seq<Op>, peak: nat)
    requires PossibleRun(b, ops) && Compact(b, peak) && Peak(b.Readable(), ops) <= peak
    ensures Compact(PerformAll(b, ops), peak)
    decreases |ops|
  {
    if ops != [] {
      PerformRefines(b, ops[0]);
      PerformCompact(b, ops[0], peak);
      CompactFrom(Perform(b, ops[0]), ops[1..], peak);
    }
  }

  /**
   * However much has gone through the buffer, its vector never grows while at most 1024 bytes are held
   * at a time, and otherwise stays within twice the most it ever held, plus six.
   */
  lemma CapacityBound(ops: seq<Op>)
    requires PossibleRun(EMPTY, ops)
    ensures PerformAll(EMPTY, ops).Size() <= Bound(Peak([], ops))
  {
    assert EMPTY.Readable() == [];
    CompactFrom(EMPTY, ops, Peak([], ops));
  }

  /** The vector never shrinks either, so up to a peak of 1024 bytes its size is known. */
  lemma CapacitySmall(ops: seq<Op>)
    requires PossibleRun(EMPTY, ops) && Peak([], ops) <= INITIAL_SIZE
    ensures PerformAll(EMPTY, ops).Size() == CHEAP_PREPEND + INITIAL_SIZE
  {
    assert EMPTY.Readable() == [];
    CompactFrom(EMPTY, ops, Peak([], ops));
  }

  /** Fill the vector but for one byte of the peak, leave one byte at its very end, and append as much again. */
  function Filling(peak: nat): seq<Op>
    requires peak > INITIAL_SIZE
  {
    [DoAppend(Zeros(peak - 1)), DoRetrieve(peak - 2), DoAppend(Zeros(peak - 1))]
  }

  lemma FillingSizes(peak: nat)
    requires peak > INITIAL_SIZE
    ensures var ops := Filling(peak);
            var b1 := Perform(EMPTY, ops[0]);
            && b1.Valid() && b1.Size() == peak + 7 && b1.writer == peak + 7 && b1.ReadableBytes() == peak - 1
            && var b2 := Perform(b1, ops[1]);
            && b2 == b1.(reader := peak + 6)
            && Perform(b2, ops[2]).Valid() && Perform(b2, ops[2]).Size() == 2 * peak + 6
  {
    var data := Zeros(peak - 1);
    AppendReadable(EMPTY, data);
    var b1 := Append(EMPTY, data);
    var b2 := Retrieve(b1, peak - 2);
    AppendReadable(b2, data);
  }

  lemma FillingPeak(peak: nat)
    requires peak > INITIAL_SIZE
    ensures Peak([], Filling(peak)) == peak
  {
    var ops := Filling(peak);
    assert ops[1..] == [ops[1], ops[2]] && ops[1..][1..] == [ops[2]] && ops[1..][1..][1..] == [];
    var q1 := Queue([], ops[0]);
    var q2 := Queue(q1, ops[1]);
    var q3 := Queue(q2, ops[2]);
    assert |q1| == peak - 1 && |q2| == 1 && |q3| == peak;
    assert Peak(q3, []) == peak;
    assert Peak(q2, [ops[2]]) == peak;
    assert Peak(q1, [ops[1], ops[2]]) == peak;
  }

  /** Every bound beyond the first vector is reached. */
  lemma CapacityBoundAttained(peak: nat)
    requires peak > INITIAL_SIZE
    ensures PossibleRun(EMPTY, Filling(peak)) && Peak([], Filling(peak)) == peak
    ensures PerformAll(EMPTY, Filling(peak)).Size() == Bound(peak)
  {
    hide Append, Retrieve, Peak;
    FillingSizes(peak);
    FillingPeak(peak);
    var ops := Filling(peak);
    var b1 := Perform(EMPTY, ops[0]);
    var b2 := Perform(b1, ops[1]);
    var b3 := Perform(b2, ops[2]);
    assert ops[1..] == [ops[1], ops[2]] && ops[1..][1..] == [ops[2]] && ops[1..][1..][1..] == [];
    assert PossibleRun(b3, []) && PossibleRun(b2, [ops[2]]) && PossibleRun(b1, [ops[1], ops[2]]);
    assert PerformAll(b1, [ops[1], ops[2]]) == PerformAll(b2, [ops[2]]) == b3;
  }
}
