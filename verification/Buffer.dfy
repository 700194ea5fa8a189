/** The two-index byte buffer: a growable array whose bytes between the two indices are the
    readable queue. */
module Buffers {
  import opened Kernel
  import opened Sockets

  const CHEAP_PREPEND: nat := 8
  const INITIAL_SIZE: nat := 1024
  const EXTRA_SIZE: nat := 65536

  /** Array size and the two indices: all of the buffer except its bytes. */
  datatype Shape = Shape(size: nat, reader: nat, writer: nat) {

    ghost predicate Ordered() {
      CHEAP_PREPEND <= reader <= writer <= size
    }

    function Readable(): int {
      writer - reader
    }

    function Writable(): int {
      size - writer
    }

    /** The largest count one scatter read can return: both areas, or the tail alone once the
        tail is at least as large as the overflow area. */
    function ReadCapacity(): int {
      if Writable() < EXTRA_SIZE then Writable() + EXTRA_SIZE else Writable()
    }

    function MakeSpace(len: nat): Shape
      requires Ordered()
    {
      if Writable() + reader < len + CHEAP_PREPEND
      then this.(size := writer + len)
      else this.(reader := CHEAP_PREPEND, writer := CHEAP_PREPEND + Readable())
    }

    function Append(len: nat): Shape
      requires Ordered()
    {
      var roomy := if Writable() < len then MakeSpace(len) else this;
      roomy.(writer := roomy.writer + len)
    }

    function Retrieve(len: nat): Shape
      requires Ordered()
    {
      if len < Readable()
      then this.(reader := reader + len)
      else this.(reader := CHEAP_PREPEND, writer := CHEAP_PREPEND)
    }

    function Read(n: nat): Shape
      requires Ordered()
    {
      if n <= Writable()
      then this.(writer := writer + n)
      else this.(writer := size).Append(n - Writable())
    }
  }

  const INITIAL_SHAPE: Shape := Shape(CHEAP_PREPEND + INITIAL_SIZE, CHEAP_PREPEND, CHEAP_PREPEND)

  class Buffer {
    var data: array<Byte>
    var readerIndex: nat
    var writerIndex: nat

    ghost predicate Valid()
      reads this
    {
      CHEAP_PREPEND <= readerIndex <= writerIndex <= data.Length
    }

    /** The queue the buffer stands for. */
    ghost function Contents(): (s: seq<Byte>)
      requires Valid()
      reads this, data
    {
      data[readerIndex..writerIndex]
    }

    ghost function Layout(): (l: Shape)
      requires Valid()
      reads this
      ensures l.Ordered()
    {
      Shape(data.Length, readerIndex, writerIndex)
    }

    /** The size asked for is ignored: it is met only if it is the usual one. */
    constructor (initialSize: nat)
      ensures Valid() && fresh(data)
      ensures Contents() == [] && Layout() == INITIAL_SHAPE
      ensures data.Length == CHEAP_PREPEND + initialSize <==> initialSize == INITIAL_SIZE
    {
      data := new Byte[CHEAP_PREPEND + INITIAL_SIZE];
      readerIndex, writerIndex := CHEAP_PREPEND, CHEAP_PREPEND;
    }

    function ReadableBytes(): (n: nat)
      requires Valid()
      reads this, data
      ensures n == |Contents()|
    {
      writerIndex - readerIndex
    }

    function WritableBytes(): (n: nat)
      requires Valid()
      reads this
    {
      data.Length - writerIndex
    }

    method RetrieveAll()
      requires Valid()
      modifies this
      ensures Valid() && data == old(data)
      ensures Contents() == [] && Layout() == Shape(old(data.Length), CHEAP_PREPEND, CHEAP_PREPEND)
    {
      readerIndex, writerIndex := CHEAP_PREPEND, CHEAP_PREPEND;
    }

    /** Taking more than there is empties the buffer. */
    method Retrieve(len: nat)
      requires Valid()
      modifies this
      ensures Valid() && data == old(data)
      ensures Contents() == old(Contents())[Min(len, |old(Contents())|)..]
      ensures Layout() == old(Layout()).Retrieve(len)
    {
      if len < ReadableBytes() {
        readerIndex := readerIndex + len;
      } else {
        RetrieveAll();
      }
    }

    method RetrieveAsString(len: nat) returns (result: seq<Byte>)
      requires Valid() && len <= ReadableBytes()
      modifies this
      ensures Valid() && data == old(data)
      ensures result + Contents() == old(Contents()) && |result| == len
      ensures Layout() == old(Layout()).Retrieve(len)
    {
      ghost var before := Contents();
      result := data[readerIndex..readerIndex + len];
      assert result == before[..len];
      Retrieve(len);
      assert Contents() == before[len..];
    }

    method RetrieveAllAsString() returns (result: seq<Byte>)
      requires Valid()
      modifies this
      ensures Valid() && data == old(data)
      ensures result == old(Contents()) && Contents() == []
    {
      result := RetrieveAsString(ReadableBytes());
    }

    /** Either grows the array, keeping every byte where it is, or moves the readable bytes down
        to the reserved prefix. The move copies forwards, which is right because it only runs
        when the bytes lie strictly above their destination. */
    method MakeSpace(len: nat)
      requires Valid() && WritableBytes() < len
      modifies this, data
      ensures Valid() && (data == old(data) || fresh(data))
      ensures Contents() == old(Contents())
      ensures Layout() == old(Layout()).MakeSpace(len)
      ensures len <= WritableBytes()
    {
      ghost var before := Contents();
      if WritableBytes() + readerIndex < len + CHEAP_PREPEND {
        Resize(writerIndex + len);
      } else {
        assert CHEAP_PREPEND < readerIndex;
        var readable := ReadableBytes();
        for i := 0 to readable
          invariant data == old(data) && readerIndex == old(readerIndex) && writerIndex == old(writerIndex)
          invariant forall k :: 0 <= k < i ==> data[CHEAP_PREPEND + k] == before[k]
          invariant forall k :: i <= k < readable ==> data[readerIndex + k] == before[k]
        {
          data[CHEAP_PREPEND + i] := data[readerIndex + i];
        }
        readerIndex := CHEAP_PREPEND;
        writerIndex := readerIndex + readable;
      }
    }

    /** vector::resize to a larger size: the old bytes stay, zeroes follow. */
    method Resize(size: nat)
      requires Valid() && data.Length <= size
      modifies this
      ensures Valid() && fresh(data) && data.Length == size
      ensures readerIndex == old(readerIndex) && writerIndex == old(writerIndex)
      ensures data[..old(data.Length)] == old(data[..]) && Contents() == old(Contents())
    {
      var larger := new Byte[size](_ => 0);
      for i := 0 to data.Length
        modifies larger
        invariant forall k :: 0 <= k < i ==> larger[k] == data[k]
      {
        larger[i] := data[i];
      }
      data := larger;
    }

    method EnsureWritableBytes(len: nat)
      requires Valid()
      modifies this, data
      ensures Valid() && (data == old(data) || fresh(data))
      ensures Contents() == old(Contents())
      ensures Layout() == if old(WritableBytes()) < len then old(Layout()).MakeSpace(len) else old(Layout())
      ensures len <= WritableBytes()
    {
      if WritableBytes() < len {
        MakeSpace(len);
      }
    }

    /** Copies bytes to the writable tail; the write index stays. */
    method CopyToTail(bytes: seq<Byte>)
      requires Valid() && |bytes| <= WritableBytes()
      modifies data
      ensures Valid() && data[readerIndex..writerIndex + |bytes|] == old(Contents()) + bytes
    {
      ghost var before := Contents();
      for i := 0 to |bytes|
        invariant data[readerIndex..writerIndex + i] == before + bytes[..i]
      {
        data[writerIndex + i] := bytes[i];
      }
    }

    method Append(bytes: seq<Byte>)
      requires Valid()
      modifies this, data
      ensures Valid() && (data == old(data) || fresh(data))
      ensures Contents() == old(Contents()) + bytes
      ensures Layout() == old(Layout()).Append(|bytes|)
    {
      EnsureWritableBytes(|bytes|);
      FillTail(bytes);
    }

    /** Adds bytes that fit the writable tail. */
    method FillTail(bytes: seq<Byte>)
      requires Valid() && |bytes| <= WritableBytes()
      modifies this`writerIndex, data
      ensures Valid() && Contents() == old(Contents()) + bytes
      ensures Layout() == old(Layout()).(writer := old(writerIndex) + |bytes|)
    {
      CopyToTail(bytes);
      writerIndex := writerIndex + |bytes|;
    }

    /** readv into the writable tail and a 64K overflow area, then append what overflowed. The
        kernel fills the first area before the second and never more than both hold. */
    method ReadFd(answer: ReadAnswer) returns (n: int)
      requires Valid()
      modifies this, data
      ensures Valid() && (data == old(data) || fresh(data))
      ensures answer.Fails? ==> n == -1 && Contents() == old(Contents()) && Layout() == old(Layout())
      ensures answer.Offers? ==>
                && n == Min(|answer.data|, old(Layout()).ReadCapacity())
                && Contents() == old(Contents()) + answer.data[..n]
                && Layout() == old(Layout()).Read(n)
    {
      var writable := WritableBytes();
      var capacity := if writable < EXTRA_SIZE then writable + EXTRA_SIZE else writable;
      match answer
      case Fails =>
        n := -1;
      case Offers(arrived) =>
        n := Min(|arrived|, capacity);
        TakeIn(arrived[..n]);
    }

    /** What readv left in the two areas becomes part of the queue. */
    method TakeIn(bytes: seq<Byte>)
      requires Valid()
      modifies this, data
      ensures Valid() && (data == old(data) || fresh(data))
      ensures Contents() == old(Contents()) + bytes
      ensures Layout() == old(Layout()).Read(|bytes|)
    {
      var writable := WritableBytes();
      if |bytes| <= writable {
        FillTail(bytes);
      } else {
        ghost var before := Contents();
        FillTail(bytes[..writable]);
        Append(bytes[writable..]);
        Rejoin(before, bytes, writable);
      }
    }

    lemma Rejoin(queue: seq<Byte>, bytes: seq<Byte>, k: nat)
      requires k <= |bytes|
      ensures (queue + bytes[..k]) + bytes[k..] == queue + bytes
    {
    }

    /** Offers the readable bytes to the kernel without consuming them. */
    method WriteFd(socket: Socket, answer: WriteAnswer) returns (n: int)
      requires Valid()
      modifies socket`sent
      ensures var reply := socket.Reply(answer);
              if reply.Takes?
              then n == Min(reply.room, |Contents()|) && socket.sent == old(socket.sent) + Contents()[..n]
              else n == -1 && socket.sent == old(socket.sent)
    {
      var taken, _ := socket.Write(data[readerIndex..writerIndex], answer);
      n := taken;
    }
  }

  // ---- Whole runs ----

  datatype BufferOp = Put(bytes: seq<Byte>) | Take(len: nat) | Arrive(arrived: seq<Byte>)

  /** What a run leads to: a plain byte queue, the shape of the array that holds it, and the
      largest backlog passed on the way. */
  datatype Outcome = Outcome(queue: seq<Byte>, shape: Shape, peak: nat)

  /** The queue is written without the array: put and arrive add at the end, take drops from the
      front, and only the length of an arrival depends on the room there is. */
  function Step(o: Outcome, op: BufferOp): (r: Outcome)
    requires o.shape.Ordered()
    ensures r.shape.Ordered()
  {
    var (queue, shape) :=
      match op
      case Put(bytes) => (o.queue + bytes, o.shape.Append(|bytes|))
      case Take(len) => (o.queue[Min(len, |o.queue|)..], o.shape.Retrieve(len))
      case Arrive(arrived) =>
        var n := Min(|arrived|, o.shape.ReadCapacity());
        (o.queue + arrived[..n], o.shape.Read(n));
    Outcome(queue, shape, Max(o.peak, |queue|))
  }

  const START: Outcome := Outcome([], INITIAL_SHAPE, 0)

  function Run(ops: seq<BufferOp>): (r: Outcome)
    ensures r.shape.Ordered()
  {
    if ops == [] then START else Step(Run(ops[..|ops| - 1]), ops[|ops| - 1])
  }

  lemma RunSnoc(ops: seq<BufferOp>, op: BufferOp)
    ensures Run(ops + [op]) == Step(Run(ops), op)
  {
    var all := ops + [op];
    assert all[..|all| - 1] == ops && all[|all| - 1] == op;
  }

  function SizeBound(peak: nat): nat {
    if peak <= INITIAL_SIZE then CHEAP_PREPEND + INITIAL_SIZE else 2 * peak + 6
  }

  /** The indices delimit exactly the queue, the read index leaves the reserved prefix only while
      bytes are left to read, and the array is within the bound. */
  ghost predicate Healthy(o: Outcome) {
    && o.shape.Ordered()
    && o.shape.Readable() == |o.queue| <= o.peak
    && (CHEAP_PREPEND < o.shape.reader ==> o.queue != [])
    && SizeBound(0) <= o.shape.size <= SizeBound(o.peak)
  }

  lemma StepStaysHealthy(o: Outcome, op: BufferOp)
    requires Healthy(o)
    ensures Healthy(Step(o, op)) && o.shape.size <= Step(o, op).shape.size
  {
  }

  /** Over every run the array keeps its first size until the buffer has held more than that was
      meant for, and then never outgrows twice the largest backlog plus six. */
  lemma {:induction false} SizeStaysBounded(ops: seq<BufferOp>)
    ensures Healthy(Run(ops))
    ensures CHEAP_PREPEND + INITIAL_SIZE <= Run(ops).shape.size <= SizeBound(Run(ops).peak)
    ensures SizeBound(Run(ops).peak) == if Run(ops).peak <= 1024 then 1032 else 2 * Run(ops).peak + 6
  {
    if ops != [] {
      SizeStaysBounded(ops[..|ops| - 1]);
      StepStaysHealthy(Run(ops[..|ops| - 1]), ops[|ops| - 1]);
    }
  }

  /** For no largest backlog will a smaller bound do. Above the first size it is reached by an
      append, a take that leaves one byte, and the same append again. */
  lemma BoundIsSharp(peak: nat)
    ensures exists ops :: Run(ops).peak == peak && Run(ops).shape.size == SizeBound(peak)
  {
    if peak <= INITIAL_SIZE {
      var ops := HeldOnce(seq(peak, _ => 0));
    } else {
      var ops := GrownTwice(seq(peak - 1, _ => 0));
    }
  }

  lemma HeldOnce(bytes: seq<Byte>) returns (ops: seq<BufferOp>)
    requires |bytes| <= INITIAL_SIZE
    ensures Run(ops).peak == |bytes| && Run(ops).shape.size == SizeBound(|bytes|)
  {
    ops := [] + [Put(bytes)];
    RunSnoc([], Put(bytes));
  }

  lemma GrownOnce(bytes: seq<Byte>) returns (ops: seq<BufferOp>)
    requires INITIAL_SIZE <= |bytes|
    ensures var end := CHEAP_PREPEND + |bytes|; Run(ops) == Outcome(bytes, Shape(end, CHEAP_PREPEND, end), |bytes|)
  {
    ops := [] + [Put(bytes)];
    RunSnoc([], Put(bytes));
    assert [] + bytes == bytes;
  }

  lemma AllButOne(bytes: seq<Byte>) returns (ops: seq<BufferOp>)
    requires INITIAL_SIZE <= |bytes|
    ensures var end := CHEAP_PREPEND + |bytes|;
            Run(ops) == Outcome(bytes[|bytes| - 1..], Shape(end, end - 1, end), |bytes|)
  {
    var once := GrownOnce(bytes);
    ops := once + [Take(|bytes| - 1)];
    RunSnoc(once, Take(|bytes| - 1));
  }

  lemma GrownTwice(bytes: seq<Byte>) returns (ops: seq<BufferOp>)
    requires INITIAL_SIZE <= |bytes|
    ensures Run(ops).peak == |bytes| + 1 && Run(ops).shape.size == SizeBound(|bytes| + 1)
  {
    var taken := AllButOne(bytes);
    ops := taken + [Put(bytes)];
    RunSnoc(taken, Put(bytes));
  }

  /** A scatter read can always take 64K; it returns at most the tail, or 128K less one byte. */
  lemma ReadCapacityBounds(shape: Shape)
    requires shape.Ordered()
    ensures 65536 <= shape.ReadCapacity() <= Max(shape.Writable(), 131071)
    ensures shape.ReadCapacity() - shape.Writable() == if 65536 <= shape.Writable() then 0 else 65536
  {
  }

  /** One operation of a run, on a buffer that holds what the run has led to so far. */
  method Perform(buffer: Buffer, op: BufferOp, ghost o: Outcome)
    requires buffer.Valid() && buffer.Contents() == o.queue && buffer.Layout() == o.shape
    modifies buffer, buffer.data
    ensures buffer.Valid() && (buffer.data == old(buffer.data) || fresh(buffer.data))
    ensures buffer.Contents() == Step(o, op).queue && buffer.Layout() == Step(o, op).shape
  {
    match op
    case Put(bytes) => buffer.Append(bytes);
    case Take(len) => buffer.Retrieve(len);
    case Arrive(arrived) => var _ := buffer.ReadFd(Offers(arrived));
  }

  /** A buffer put through any run of appends, takes and scatter reads holds exactly the queue of
      that run, in an array within the bound. */
  method Replay(ops: seq<BufferOp>) returns (buffer: Buffer)
    ensures fresh(buffer) && buffer.Valid()
    ensures buffer.Contents() == Run(ops).queue && buffer.Layout() == Run(ops).shape
    ensures buffer.data.Length <= SizeBound(Run(ops).peak)
  {
    buffer := new Buffer(INITIAL_SIZE);
    for i := 0 to |ops|
      invariant fresh(buffer) && fresh(buffer.data) && buffer.Valid()
      invariant buffer.Contents() == Run(ops[..i]).queue && buffer.Layout() == Run(ops[..i]).shape
    {
      assert ops[..i + 1] == ops[..i] + [ops[i]];
      RunSnoc(ops[..i], ops[i]);
      Perform(buffer, ops[i], Run(ops[..i]));
    }
    assert ops[..|ops|] == ops;
    SizeStaysBounded(ops);
  }
}
