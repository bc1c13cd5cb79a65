/** The class itself: two byte queues, updated in place. */
module OutputBuffers {
  import opened Utf8
  import opened ByteQueues
  import opened OutputViews

  const BLOCK_BYTES: nat := 16 * 1024

  class RollingOutputBuffer {
    const capacity: nat
    const limits: Limits
    const head: ByteQueue
    const tail: ByteQueue
    var prefixClosed: bool
    var omitted: nat

    ghost predicate Valid()
      reads this, head, head.Repr, tail, tail.Repr
    {
      && head.Valid() && tail.Valid()
      && head.Repr !! tail.Repr && this !in head.Repr && this !in tail.Repr
      && capacity >= 64 && limits == LimitsOf(capacity)
      && head.blockSize == Min(BLOCK_BYTES, limits.head) && tail.blockSize == Min(BLOCK_BYTES, limits.tail)
      && Value().Valid(limits)
    }

    ghost function Value(): View
      reads this, head, tail
    {
      View(head.Contents, tail.Contents, omitted, prefixClosed)
    }

    ghost function Repr(): set<object>
      reads this, head, tail
    {
      {this} + head.Repr + tail.Repr
    }

    constructor (capacity: nat)
      requires 64 <= capacity
      ensures Valid() && fresh(Repr()) && this.capacity == capacity && Value() == EmptyView
    {
      hide ByteQueue.Valid;
      this.capacity := capacity;
      limits := LimitsOf(capacity);
      head := new ByteQueue(Min(BLOCK_BYTES, LimitsOf(capacity).head));
      tail := new ByteQueue(Min(BLOCK_BYTES, LimitsOf(capacity).tail));
      prefixClosed := false;
      omitted := 0;
    }

    /** `new RollingOutputBuffer(capacity)`, with `None` for the error it throws. */
    static method Open(capacity: int) returns (r: Option<RollingOutputBuffer>)
      ensures r.None? <==> capacity < 64 || capacity > MAX_SAFE_INTEGER
      ensures r.Some? ==> r.value.Valid() && fresh(r.value.Repr()) && r.value.capacity == capacity
                          && r.value.Value() == EmptyView
    {
      if capacity < 64 || capacity > MAX_SAFE_INTEGER {
        return None;
      }
      var buffer := new RollingOutputBuffer(capacity);
      return Some(buffer);
    }

    /** The allocation stays within four blocks of the unread bytes. */
    method AllocatedBytes() returns (total: nat)
      requires Valid()
      ensures Value().Bytes() <= total <= Value().Bytes() + 4 * BLOCK_BYTES
    {
      hide ByteQueue.Valid;
      var h := head.AllocatedBytes();
      var t := tail.AllocatedBytes();
      total := h + t;
    }

    method Append(data: seq<byte>)
      requires Valid()
      modifies Repr()
      ensures Valid() && fresh(Repr() - old(Repr()))
      ensures Value() == AppendView(limits, old(Value()), data)
    {
      hide ByteQueue.Valid, FloorCut, CeilCut, LimitsOf, RollTail;
      var offset := 0;
      if !prefixClosed {
        offset := FloorLoop(data, Min(|data|, limits.head - head.bytes));
        head.Push(data[..offset]);
        if offset < |data| || head.bytes == limits.head {
          prefixClosed := true;
        }
      }
      if offset == |data| {
        assert data[..offset] == data;
        return;
      }
      assert head.Contents == old(head.Contents) + data[..offset];
      Roll(data[offset..]);
    }

    /** The tail half of `append`, for the bytes that the prefix does not take. */
    method Roll(data: seq<byte>)
      requires Valid() && prefixClosed
      modifies this`omitted, tail.Repr
      ensures Valid() && fresh(tail.Repr - old(tail.Repr))
      ensures Value() == RollTail(limits, old(Value()), data)
    {
      hide ByteQueue.Valid, FloorCut, CeilCut;
      var dropped, start := 0, 0;
      if |data| >= limits.tail {
        dropped := tail.bytes;
        tail.Clear();
        start := CeilLoop(data, |data| - limits.tail);
        dropped := dropped + start;
      } else {
        dropped := DropTail(tail.bytes + |data| - limits.tail);
      }
      omitted := Saturate(omitted + dropped);
      tail.Push(data[start..]);
      assert data[0..] == data;
    }

    /** Drop at least `excess` of the oldest tail bytes, moving forward to a character start. */
    method DropTail(excess: int) returns (count: nat)
      requires Valid()
      modifies tail
      ensures Valid() && tail.Repr == old(tail.Repr)
      ensures count == TailCut(old(tail.Contents), excess) && tail.Contents == old(tail.Contents)[count..]
    {
      hide ByteQueue.Valid;
      if excess <= 0 {
        return 0;
      }
      count := Min(excess, tail.bytes);
      while count < tail.bytes
        invariant count <= tail.bytes && tail.Valid() && unchanged(tail)
        invariant CeilCut(tail.Contents, count) == CeilCut(tail.Contents, Min(excess, tail.bytes))
      {
        var b := tail.ByteAt(count);
        if !Continuation(b.value) {
          break;
        }
        count := count + 1;
      }
      tail.Drop(count);
    }

    /** `shed`: makes room by cutting the front of the tail; the number of bytes that went. */
    method Shed(maximum: int) returns (count: nat)
      requires Valid()
      modifies this`omitted, tail
      ensures Valid() && Repr() == old(Repr())
      ensures Value() == ShedView(old(Value()), maximum)
      ensures count == |old(Value()).tail| - |Value().tail|
    {
      hide ByteQueue.Valid;
      count := DropTail(maximum);
      if count > 0 {
        omitted := Saturate(omitted + count);
      }
    }

    method Read(maximum: int, maxOutputTokens: Option<nat>) returns (batch: Option<Batch>)
      requires Valid()
      modifies this, head, tail
      ensures Valid() && Repr() == old(Repr())
      ensures maximum < 4 ==> batch == None && Value() == old(Value())
      ensures maximum >= 4 ==>
                && Value() == ReadView(old(Value()), maximum)
                && batch == Some(Render(Take(old(Value()), maximum), maxOutputTokens))
    {
      hide ByteQueue.Valid, Front, Render, LimitsOf;
      if maximum < 4 {
        return None;
      }
      var first := head.Read(maximum);
      var last: seq<byte> := [];
      var gap := 0;
      if head.bytes == 0 && (maximum > |first| || tail.bytes == 0) {
        gap := omitted;
        omitted := 0;
        last := tail.Read(maximum - |first|);
      }
      if head.bytes == 0 && tail.bytes == 0 && omitted == 0 {
        prefixClosed := false;
      }
      var rendered := RenderLoop(Taken(first, gap, last), maxOutputTokens);
      return Some(rendered);
    }

    method Clear()
      requires Valid()
      modifies this, head, tail
      ensures Valid() && Repr() == old(Repr()) && Value() == EmptyView
    {
      hide ByteQueue.Valid;
      head.Clear();
      tail.Clear();
      omitted := 0;
      prefixClosed := false;
    }
  }

  /** The end of `read`: assemble the output, clipping its middle to the token budget. */
  method RenderLoop(t: Taken, tokens: Option<nat>) returns (batch: Batch)
    ensures batch == Render(t, tokens)
  {
    hide FloorCut, CeilCut, ClippedPieces;
    var data := t.head + t.tail;
    var budget := TokenBudget(|data|, tokens);
    if |data| <= budget {
      return Batch([Text(t.head)] + GapMarker(t.omitted) + [Text(t.tail)], t.omitted > 0, t.omitted, None);
    }
    var headEnd := FloorLoop(data, CeilDiv(budget, 2));
    var tailStart := CeilLoop(data, |data| - budget / 2);
    batch := Batch(ClippedPieces(t, headEnd, tailStart), true,
                   t.omitted + tailStart - headEnd, Some(CeilDiv(|data| + t.omitted, 4)));
  }

  method FloorLoop(data: seq<byte>, from: nat) returns (cut: nat)
    requires from <= |data|
    ensures cut == FloorCut(data, from)
  {
    cut := from;
    while cut > 0 && cut < |data| && Continuation(data[cut])
      invariant cut <= |data| && FloorCut(data, cut) == FloorCut(data, from)
    {
      cut := cut - 1;
    }
  }

  method CeilLoop(data: seq<byte>, from: nat) returns (cut: nat)
    requires from <= |data|
    ensures cut == CeilCut(data, from)
  {
    cut := from;
    while cut < |data| && Continuation(data[cut])
      invariant cut <= |data| && CeilCut(data, cut) == CeilCut(data, from)
    {
      cut := cut + 1;
    }
  }
}
