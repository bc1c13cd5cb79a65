/** What `RollingOutputBuffer` computes, on values: the unread output of one terminal is an
    oldest prefix, a number of dropped bytes, and a newest tail. */
module OutputViews {
  import opened Utf8
  import opened ByteQueues

  const MAX_SAFE_INTEGER: nat := 9007199254740991

  function Max(a: int, b: int): int {
    if a >= b then a else b
  }

  function Saturate(n: nat): nat {
    Min(MAX_SAFE_INTEGER, n)
  }

  datatype Limits = Limits(head: nat, tail: nat) {
    predicate Valid() {
      head >= 4 && tail >= 4
    }
  }

  function LimitsOf(capacity: nat): (l: Limits)
    requires capacity >= 64
    ensures l.Valid() && l.head + l.tail == capacity
  {
    Limits(Max(4, capacity / 16), capacity - Max(4, capacity / 16))
  }

  datatype View = View(head: seq<byte>, tail: seq<byte>, omitted: nat, closed: bool) {
    predicate Pending() {
      head != [] || tail != [] || omitted > 0
    }

    function Bytes(): nat {
      |head| + |tail|
    }

    /** Until the prefix is closed everything unread is in it. */
    predicate Valid(l: Limits) {
      && |head| <= l.head
      && |tail| <= l.tail
      && omitted <= MAX_SAFE_INTEGER
      && (!closed ==> tail == [] && omitted == 0)
    }

    predicate TextValid() {
      WellFormed(head) && WellFormed(tail)
    }
  }

  const EmptyView := View([], [], 0, false)

  /** A read hands out text and markers; a marker prints how many bytes are missing there. */
  datatype Piece = Text(bytes: seq<byte>) | Marker(count: nat)

  datatype Batch = Batch(pieces: seq<Piece>, truncated: bool, omittedBytes: nat, originalTokens: Option<nat>)

  function PrefixCount(l: Limits, v: View, data: seq<byte>): (count: nat)
    requires v.Valid(l)
    ensures count <= |data|
  {
    if v.closed then 0 else FloorCut(data, Min(|data|, l.head - |v.head|))
  }

  function AppendView(l: Limits, v: View, data: seq<byte>): View
    requires v.Valid(l)
  {
    var count := PrefixCount(l, v, data);
    var head := v.head + data[..count];
    var first := v.(head := head, closed := v.closed || count < |data| || |head| == l.head);
    if count == |data| then first else RollTail(l, first, data[count..])
  }

  /** Bytes that do not fit the prefix push out the oldest bytes of the tail. */
  function RollTail(l: Limits, v: View, data: seq<byte>): (w: View)
    ensures w.head == v.head && w.closed == v.closed
  {
    if |data| >= l.tail then
      var start := CeilCut(data, |data| - l.tail);
      v.(tail := data[start..], omitted := Saturate(v.omitted + |v.tail| + start))
    else
      var dropped := TailCut(v.tail, |v.tail| + |data| - l.tail);
      v.(tail := v.tail[dropped..] + data, omitted := Saturate(v.omitted + dropped))
  }

  /** Characters are dropped whole, so a cut can take up to three bytes more than asked. */
  function TailCut(tail: seq<byte>, excess: int): (cut: nat)
    ensures cut <= |tail|
  {
    if excess <= 0 then 0 else CeilCut(tail, Min(excess, |tail|))
  }

  function ShedView(v: View, maximum: int): View {
    var count := TailCut(v.tail, maximum);
    v.(tail := v.tail[count..], omitted := Saturate(v.omitted + count))
  }

  datatype Taken = Taken(head: seq<byte>, omitted: nat, tail: seq<byte>)

  /** The part of the view that one read consumes. */
  function Take(v: View, maximum: nat): (t: Taken)
    ensures t.head <= v.head && t.tail <= v.tail && t.omitted <= v.omitted
    ensures (t.head == v.head && t.omitted == v.omitted) || (t.omitted == 0 && t.tail == [])
  {
    var head := Front(v.head, maximum);
    if |head| == |v.head| && (maximum > |head| || v.tail == []) then
      Taken(head, v.omitted, Front(v.tail, maximum - |head|))
    else
      Taken(head, 0, [])
  }

  function ReadView(v: View, maximum: nat): View {
    var t := Take(v, maximum);
    var rest := v.(
      head := v.head[|t.head|..],
      tail := v.tail[|t.tail|..],
      omitted := v.omitted - t.omitted);
    rest.(closed := v.closed && rest.Pending())
  }

  function GapMarker(n: nat): seq<Piece> {
    if n > 0 then [Marker(n)] else []
  }

  function CeilDiv(n: nat, d: nat): nat
    requires d > 0
  {
    (n + d - 1) / d
  }

  function TokenBudget(size: nat, tokens: Option<nat>): nat {
    if tokens.None? then size else Min(MAX_SAFE_INTEGER, tokens.value * 4)
  }

  /** `read` after the queues were consumed: render the batch, clipping its middle when the
      token budget is smaller than the text. */
  function Render(t: Taken, tokens: Option<nat>): Batch {
    var data := t.head + t.tail;
    var budget := TokenBudget(|data|, tokens);
    if |data| <= budget then
      Batch([Text(t.head)] + GapMarker(t.omitted) + [Text(t.tail)], t.omitted > 0, t.omitted, None)
    else
      var headEnd := FloorCut(data, CeilDiv(budget, 2));
      var tailStart := CeilCut(data, |data| - budget / 2);
      Batch(ClippedPieces(t, headEnd, tailStart), true, t.omitted + tailStart - headEnd,
            Some(CeilDiv(|data| + t.omitted, 4)))
  }

  function ClippedPieces(t: Taken, headEnd: nat, tailStart: nat): seq<Piece>
    requires headEnd <= tailStart <= |t.head| + |t.tail|
  {
    var data := t.head + t.tail;
    var dropped := tailStart - headEnd;
    if t.omitted > 0 && |t.head| <= headEnd then
      [Text(data[..|t.head|]), Marker(t.omitted), Text(data[|t.head|..headEnd]), Marker(dropped), Text(data[tailStart..])]
    else if t.omitted > 0 && |t.head| >= tailStart then
      [Text(data[..headEnd]), Marker(dropped), Text(data[tailStart..|t.head|]), Marker(t.omitted), Text(data[|t.head|..])]
    else
      [Text(data[..headEnd]), Marker(dropped + t.omitted), Text(data[tailStart..])]
  }
}

