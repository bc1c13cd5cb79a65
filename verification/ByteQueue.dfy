/** `ByteQueue`: bytes leave in the order in which they came. They are copied into blocks of one
    size that are filled one after the other, which is what bounds the allocation. */
module ByteQueues {
  import opened Utf8

  /** A block holds the unread bytes `data[start..end]`. */
  datatype Block = Block(data: array<byte>, start: nat, end: nat)

  datatype Option<+T> = None | Some(value: T)

  function Min(a: int, b: int): int {
    if a <= b then a else b
  }

  /** All blocks but the last are filled to their end, all but the first are unread from their
      start, no block is empty and no array is shared. */
  ghost predicate Packed(bs: seq<Block>, size: nat) {
    && (forall i :: 0 <= i < |bs| ==> bs[i].start < bs[i].end <= size && bs[i].data.Length == size)
    && (forall i :: 0 <= i < |bs| - 1 ==> bs[i].end == size)
    && (forall i :: 0 < i < |bs| ==> bs[i].start == 0)
    && (forall i, j :: 0 <= i < j < |bs| ==> bs[i].data != bs[j].data)
  }

  ghost function Arrays(bs: seq<Block>): set<object> {
    set i | 0 <= i < |bs| :: bs[i].data
  }

  /** The unread bytes of packed blocks, in order. */
  ghost function Flatten(bs: seq<Block>, size: nat): seq<byte>
    requires Packed(bs, size)
    reads Arrays(bs)
  {
    if bs == [] then [] else bs[0].data[bs[0].start..bs[0].end] + Flatten(bs[1..], size)
  }

  lemma PackedTail(bs: seq<Block>, size: nat)
    requires Packed(bs, size) && bs != []
    ensures Packed(bs[1..], size)
    ensures Arrays(bs[1..]) <= Arrays(bs) && bs[0].data in Arrays(bs)
  {
    var tail := bs[1..];
    forall i | 0 <= i < |tail|
      ensures tail[i].data in Arrays(bs)
    {
      assert tail[i] == bs[i + 1];
    }
  }

  lemma {:induction false} FlattenLast(bs: seq<Block>, last: Block, size: nat)
    requires Packed(bs + [last], size) && Packed(bs, size)
    requires 0 <= last.start <= last.end <= last.data.Length
    ensures Flatten(bs + [last], size) == Flatten(bs, size) + last.data[last.start..last.end]
  {
    if bs == [] {
      assert ([last])[1..] == [];
      assert bs + [last] == [last];
    } else {
      assert (bs + [last])[1..] == bs[1..] + [last];
      PackedTail(bs + [last], size);
      PackedTail(bs, size);
      FlattenLast(bs[1..], last, size);
    }
  }

  lemma PackedAppend(bs: seq<Block>, last: Block, size: nat)
    requires Packed(bs, size) && forall i :: 0 <= i < |bs| ==> bs[i].end == size
    requires last.data !in Arrays(bs) && last.start < last.end <= size == last.data.Length
    requires bs != [] ==> last.start == 0
    ensures Packed(bs + [last], size) && Arrays(bs + [last]) <= Arrays(bs) + {last.data}
  {
    assert forall i :: 0 <= i < |bs| ==> bs[i].data in Arrays(bs);
  }

  lemma SplitLast(bs: seq<Block>, size: nat)
    requires Packed(bs, size) && bs != []
    ensures var rest, last := bs[..|bs| - 1], bs[|bs| - 1];
            && Packed(rest, size) && (forall i :: 0 <= i < |rest| ==> rest[i].end == size)
            && Arrays(rest) <= Arrays(bs) && last.data in Arrays(bs) - Arrays(rest)
            && Flatten(bs, size) == Flatten(rest, size) + last.data[last.start..last.end]
  {
    var rest, last := bs[..|bs| - 1], bs[|bs| - 1];
    assert rest + [last] == bs;
    assert forall i :: 0 <= i < |rest| ==> rest[i] == bs[i];
    FlattenLast(rest, last, size);
  }

  lemma DropWhole(bs: seq<Block>, size: nat)
    requires Packed(bs, size) && Flatten(bs, size) != []
    ensures bs != [] && Packed(bs[1..], size) && Arrays(bs[1..]) <= Arrays(bs)
    ensures 0 < bs[0].end - bs[0].start <= |Flatten(bs, size)|
    ensures Flatten(bs[1..], size) == Flatten(bs, size)[bs[0].end - bs[0].start..]
  {
    PackedTail(bs, size);
  }

  lemma ShrinkFirst(bs: seq<Block>, length: nat, size: nat)
    requires Packed(bs, size) && bs != [] && length < bs[0].end - bs[0].start
    ensures var shrunk := [bs[0].(start := bs[0].start + length)] + bs[1..];
            Packed(shrunk, size) && Arrays(shrunk) <= Arrays(bs) && Flatten(shrunk, size) == Flatten(bs, size)[length..]
  {
    var first := bs[0].(start := bs[0].start + length);
    var shrunk := [first] + bs[1..];
    assert forall i :: 0 <= i < |shrunk| ==> shrunk[i].data == bs[i].data;
    PackedTail(bs, size);
    assert shrunk[1..] == bs[1..];
    ghost var unread, rest := bs[0].data[bs[0].start..bs[0].end], Flatten(bs[1..], size);
    assert unread[length..] == first.data[first.start..first.end];
    assert (unread + rest)[length..] == unread[length..] + rest;
  }

  /** Packing bounds the allocation: every block but the first and the last is full. */
  lemma {:induction false} PackedSize(bs: seq<Block>, size: nat)
    requires Packed(bs, size)
    ensures |Flatten(bs, size)| <= |bs| * size <= |Flatten(bs, size)| + 2 * size
    ensures bs != [] && bs[0].start == 0 ==> |bs| * size <= |Flatten(bs, size)| + size
  {
    if bs != [] {
      PackedTail(bs, size);
      PackedSize(bs[1..], size);
      assert |bs| * size == |bs[1..]| * size + size;
      if |bs| > 1 {
        assert bs[1..][0].start == 0;
      } else {
        assert |bs[1..]| * size == 0;
      }
    }
  }

  lemma FlattenNone(bs: seq<Block>, size: nat)
    requires Packed(bs, size) && |bs| == 0
    ensures Flatten(bs, size) == []
  {
  }

  lemma FirstBlock(bs: seq<Block>, size: nat)
    requires Packed(bs, size) && bs != []
    ensures bs[0].start < bs[0].end <= bs[0].data.Length && Packed(bs[1..], size)
    ensures Arrays(bs[1..]) <= Arrays(bs) && bs[0].data in Arrays(bs)
    ensures Flatten(bs, size) == bs[0].data[bs[0].start..bs[0].end] + Flatten(bs[1..], size)
  {
    PackedTail(bs, size);
  }

  lemma NextChunk(whole: seq<byte>, done: seq<byte>, unread: seq<byte>, rest: seq<byte>, length: nat)
    requires whole == done + (unread + rest) && length <= |unread|
    ensures done + unread[..length] <= whole
    ensures length == |unread| ==> whole == done + unread[..length] + rest
  {
    assert unread == unread[..length] + unread[length..];
    assert whole == done + unread[..length] + (unread[length..] + rest);
  }

  class ByteQueue {
    const blockSize: nat
    var blocks: seq<Block>
    var bytes: nat
    ghost var Contents: seq<byte>
    ghost var Repr: set<object>

    ghost predicate Valid()
      reads this, Repr
      ensures Valid() ==> this in Repr && bytes == |Contents|
    {
      && this in Repr
      && Arrays(blocks) <= Repr
      && blockSize > 0
      && Packed(blocks, blockSize)
      && Contents == Flatten(blocks, blockSize)
      && bytes == |Contents|
    }

    constructor (blockSize: nat)
      requires blockSize > 0
      ensures Valid() && Contents == [] && fresh(Repr) && this.blockSize == blockSize
    {
      this.blockSize := blockSize;
      blocks := [];
      bytes := 0;
      Contents := [];
      Repr := {this};
    }

    /** The sum of the block lengths. */
    method AllocatedBytes() returns (total: nat)
      requires Valid()
      ensures |Contents| <= total <= |Contents| + 2 * blockSize
    {
      total := 0;
      for i := 0 to |blocks|
        invariant total == i * blockSize
      {
        total := total + blocks[i].data.Length;
      }
      PackedSize(blocks, blockSize);
    }

    method ByteAt(offset: nat) returns (r: Option<byte>)
      requires Valid()
      ensures r == if offset < |Contents| then Some(Contents[offset]) else None
    {
      hide Packed, Flatten;
      var rest, left := offset, blocks;
      ghost var done: seq<byte> := [];
      while |left| > 0
        invariant Packed(left, blockSize) && Arrays(left) <= Arrays(blocks)
        invariant 0 <= rest && |done| + rest == offset
        invariant Contents == done + Flatten(left, blockSize)
        decreases |left|
      {
        FirstBlock(left, blockSize);
        var block := left[0];
        var size := block.end - block.start;
        ghost var unread := block.data[block.start..block.end];
        if rest < size {
          assert unread[rest] == Contents[offset];
          return Some(block.data[block.start + rest]);
        }
        NextChunk(Contents, done, unread, Flatten(left[1..], blockSize), size);
        rest, done := rest - size, done + unread[..size];
        left := left[1..];
      }
      FlattenNone(left, blockSize);
      return None;
    }

    method Push(input: seq<byte>)
      requires Valid()
      modifies Repr
      ensures Valid() && Contents == old(Contents) + input
      ensures fresh(Repr - old(Repr))
    {
      var offset := 0;
      while offset < |input|
        invariant offset <= |input|
        invariant Valid() && Contents == old(Contents) + input[..offset]
        invariant fresh(Repr - old(Repr))
      {
        var count := PushIntoLast(input[offset..]);
        assert input[offset..][..count] == input[offset..offset + count];
        assert input[..offset] + input[offset..offset + count] == input[..offset + count];
        offset := offset + count;
      }
      assert input[..offset] == input;
    }

    /** One turn of the `push` loop: fill the last block, or a new one when it is full. */
    method PushIntoLast(input: seq<byte>) returns (count: nat)
      requires Valid() && input != []
      modifies Repr
      ensures Valid() && 0 < count <= |input| && Contents == old(Contents) + input[..count]
      ensures fresh(Repr - old(Repr))
    {
      hide Packed, Flatten;
      var rest, block := OpenBlock();
      count := Min(|input|, block.data.Length - block.end);
      var filled := CopyInto(rest, block, input[..count], blockSize);
      blocks, bytes, Contents := rest + [filled], bytes + count, Contents + input[..count];
    }

    /** `input.copy(block.data, block.end, ...)` and the new end of the block. */
    static method CopyInto(ghost rest: seq<Block>, block: Block, input: seq<byte>, ghost size: nat)
      returns (filled: Block)
      requires Packed(rest, size) && forall i :: 0 <= i < |rest| ==> rest[i].end == size
      requires block.start <= block.end && block.end + |input| <= block.data.Length == size && input != []
      requires block.data !in Arrays(rest) && (rest != [] ==> block.start == 0)
      modifies block.data
      ensures filled == block.(end := block.end + |input|)
      ensures Packed(rest + [filled], size) && Arrays(rest + [filled]) <= Arrays(rest) + {block.data}
      ensures Flatten(rest + [filled], size)
           == old(Flatten(rest, size) + block.data[block.start..block.end]) + input
    {
      ghost var was, kept := block.data[block.start..block.end], Flatten(rest, size);
      forall k | 0 <= k < |input| {
        block.data[block.end + k] := input[k];
      }
      assert Flatten(rest, size) == kept;
      filled := block.(end := block.end + |input|);
      assert filled.data[filled.start..filled.end] == was + input;
      PackedAppend(rest, filled, size);
      FlattenLast(rest, filled, size);
      assert kept + (was + input) == kept + was + input;
    }

    /** The last block, or an empty new one, and the blocks before it. */
    method OpenBlock() returns (rest: seq<Block>, block: Block)
      requires Valid()
      modifies this`Repr
      ensures old(Repr) <= Repr && fresh(Repr - old(Repr)) && this in Repr
      ensures Arrays(rest) <= old(Repr) && block.data in Repr - Arrays(rest)
      ensures Packed(rest, blockSize) && forall i :: 0 <= i < |rest| ==> rest[i].end == blockSize
      ensures block.start <= block.end < blockSize == block.data.Length && (rest != [] ==> block.start == 0)
      ensures Contents == Flatten(rest, blockSize) + block.data[block.start..block.end]
    {
      if |blocks| == 0 || blocks[|blocks| - 1].end == blocks[|blocks| - 1].data.Length {
        var data := new byte[blockSize];
        Repr := Repr + {data};
        rest, block := blocks, Block(data, 0, 0);
      } else {
        rest, block := blocks[..|blocks| - 1], blocks[|blocks| - 1];
        SplitLast(blocks, blockSize);
      }
    }

    method Drop(count: nat)
      requires Valid() && count <= bytes
      modifies this
      ensures Valid() && Contents == old(Contents)[count..]
      ensures Repr == old(Repr)
    {
      var left := count;
      while left > 0
        invariant 0 <= left <= count && left <= bytes
        invariant count - left <= |old(Contents)|
        invariant Valid() && Contents == old(Contents)[count - left..] && Repr == old(Repr)
      {
        var length := DropFromFirst(left);
        left := left - length;
      }
    }

    /** One turn of the `drop` loop: consume from the first block and discard it when empty. */
    method DropFromFirst(left: nat) returns (length: nat)
      requires Valid() && 0 < left <= bytes
      modifies this
      ensures Valid() && 0 < length <= left && length <= |old(Contents)|
      ensures Contents == old(Contents)[length..] && Repr == old(Repr)
    {
      hide Packed, Flatten;
      DropWhole(blocks, blockSize);
      var block := blocks[0];
      length := Min(left, block.end - block.start);
      var next := blocks[1..];
      if block.start + length < block.end {
        ShrinkFirst(blocks, length, blockSize);
        next := [block.(start := block.start + length)] + blocks[1..];
      }
      blocks, bytes, Contents := next, bytes - length, Contents[length..];
    }

    /** Take up to `maximum` bytes from the front, never splitting a character. */
    method Read(maximum: nat) returns (result: seq<byte>)
      requires Valid()
      modifies this
      ensures Valid() && Repr == old(Repr)
      ensures result == Front(old(Contents), maximum) && Contents == old(Contents)[|result|..]
    {
      var count := Min(maximum, bytes);
      while count > 0 && count < bytes
        invariant Valid() && unchanged(this)
        invariant 0 <= count <= bytes
        invariant FloorCut(Contents, count) == FloorCut(Contents, Min(maximum, bytes))
      {
        var b := ByteAt(count);
        if !Continuation(b.value) {
          break;
        }
        count := count - 1;
      }
      if count == 0 {
        return [];
      }
      result := CopyFront(count);
      Drop(count);
    }

    /** The copy loop of `read`. */
    method CopyFront(count: nat) returns (result: seq<byte>)
      requires Valid() && count <= bytes
      ensures result == Contents[..count]
    {
      hide Packed, Flatten;
      result := [];
      var left := blocks;
      while |left| > 0 && |result| < count
        invariant Packed(left, blockSize) && Arrays(left) <= Arrays(blocks)
        invariant |result| <= count && result <= Contents
        invariant |result| < count ==> Contents == result + Flatten(left, blockSize)
        decreases |left|
      {
        FirstBlock(left, blockSize);
        var block := left[0];
        var length := Min(count - |result|, block.end - block.start);
        var chunk := block.data[block.start..block.start + length];
        ghost var unread, rest := block.data[block.start..block.end], Flatten(left[1..], blockSize);
        assert chunk == unread[..length];
        NextChunk(Contents, result, unread, rest, length);
        result := result + chunk;
        left := left[1..];
      }
      if |left| == 0 {
        FlattenNone(left, blockSize);
      }
    }

    method Clear()
      requires Valid()
      modifies this
      ensures Valid() && Contents == [] && Repr == old(Repr)
    {
      blocks := [];
      bytes := 0;
      Contents := [];
    }
  }
}
