/** What a reader of one terminal sees over a whole run: text and gap markers which, followed by
    the unread head, gap and tail, tell the appended stream in order. */
module OutputHistories {
  import opened Utf8
  import opened ByteQueues
  import opened OutputViews

  /** `pieces` tell `stream`: text is found where it stands and a marker stands for exactly the
      bytes it counts. */
  predicate Covers(pieces: seq<Piece>, stream: seq<byte>) {
    if pieces == [] then stream == []
    else match pieces[0]
      case Text(bytes) => bytes <= stream && Covers(pieces[1..], stream[|bytes|..])
      case Marker(count) => count <= |stream| && Covers(pieces[1..], stream[count..])
  }

  function Marked(pieces: seq<Piece>): nat {
    if pieces == [] then 0
    else (if pieces[0].Marker? then pieces[0].count else 0) + Marked(pieces[1..])
  }

  predicate TextsWellFormed(pieces: seq<Piece>) {
    forall i :: 0 <= i < |pieces| && pieces[i].Text? ==> WellFormed(pieces[i].bytes)
  }

  lemma {:induction false} CoversConcat(a: seq<Piece>, b: seq<Piece>, s: seq<byte>, t: seq<byte>)
    requires Covers(a, s) && Covers(b, t)
    ensures Covers(a + b, s + t)
  {
    if a == [] {
      assert a + b == b && s + t == t;
    } else {
      var n := if a[0].Text? then |a[0].bytes| else a[0].count;
      assert (a + b)[1..] == a[1..] + b;
      assert (s + t)[n..] == s[n..] + t;
      CoversConcat(a[1..], b, s[n..], t);
    }
  }

  lemma {:induction false} MarkedConcat(a: seq<Piece>, b: seq<Piece>)
    ensures Marked(a + b) == Marked(a) + Marked(b)
  {
    if a == [] {
      assert a + b == b;
    } else {
      assert (a + b)[1..] == a[1..] + b;
      MarkedConcat(a[1..], b);
    }
  }

  /** The unread part of the stream: head, `omitted` lost bytes, tail. */
  predicate Holds(v: View, unread: seq<byte>) {
    && |unread| == |v.head| + v.omitted + |v.tail|
    && v.head <= unread
    && unread[|v.head| + v.omitted..] == v.tail
  }

  function UnreadPieces(v: View): seq<Piece> {
    [Text(v.head), Marker(v.omitted), Text(v.tail)]
  }

  lemma TextFirst(text: seq<byte>, pieces: seq<Piece>, stream: seq<byte>)
    requires Covers(pieces, stream)
    ensures Covers([Text(text)] + pieces, text + stream)
    ensures Marked([Text(text)] + pieces) == Marked(pieces)
  {
    assert ([Text(text)] + pieces)[1..] == pieces;
    assert (text + stream)[|text|..] == stream;
  }

  lemma MarkerFirst(gap: seq<byte>, pieces: seq<Piece>, stream: seq<byte>)
    requires Covers(pieces, stream)
    ensures Covers([Marker(|gap|)] + pieces, gap + stream)
    ensures Marked([Marker(|gap|)] + pieces) == |gap| + Marked(pieces)
  {
    assert ([Marker(|gap|)] + pieces)[1..] == pieces;
    assert (gap + stream)[|gap|..] == stream;
  }

  lemma ThreePieces(a: seq<byte>, gap: seq<byte>, c: seq<byte>)
    ensures Covers([Text(a), Marker(|gap|), Text(c)], a + (gap + c))
    ensures Marked([Text(a), Marker(|gap|), Text(c)]) == |gap|
  {
    TextFirst(c, [], []);
    assert c + [] == c && [Text(c)] + [] == [Text(c)];
    MarkerFirst(gap, [Text(c)], c);
    TextFirst(a, [Marker(|gap|)] + [Text(c)], gap + c);
    assert [Text(a)] + ([Marker(|gap|)] + [Text(c)]) == [Text(a), Marker(|gap|), Text(c)];
  }

  lemma FivePieces(a: seq<byte>, g: seq<byte>, b: seq<byte>, d: seq<byte>, c: seq<byte>)
    ensures Covers([Text(a), Marker(|g|), Text(b), Marker(|d|), Text(c)], a + (g + (b + (d + c))))
    ensures Marked([Text(a), Marker(|g|), Text(b), Marker(|d|), Text(c)]) == |g| + |d|
  {
    var last := [Text(b), Marker(|d|), Text(c)];
    ThreePieces(b, d, c);
    MarkerFirst(g, last, b + (d + c));
    TextFirst(a, [Marker(|g|)] + last, g + (b + (d + c)));
    assert [Text(a)] + ([Marker(|g|)] + last) == [Text(a), Marker(|g|), Text(b), Marker(|d|), Text(c)];
  }

  /** However a batch is clipped, its pieces tell exactly the bytes that the read consumed, and
      the reported number is the sum of the printed ones. */
  lemma RenderCovers(t: Taken, gap: seq<byte>, tokens: Option<nat>)
    requires |gap| == t.omitted
    ensures var batch := Render(t, tokens);
            && Covers(batch.pieces, t.head + gap + t.tail)
            && Marked(batch.pieces) == batch.omittedBytes
            && (batch.truncated <==> batch.omittedBytes > 0)
  {
    hide Covers, Marked, ClippedPieces, FloorCut, CeilCut, CharLength;
    var data := t.head + t.tail;
    var budget := TokenBudget(|data|, tokens);
    assert t.head + gap + t.tail == t.head + (gap + t.tail);
    if |data| <= budget {
      if t.omitted == 0 {
        assert gap + t.tail == t.tail;
        TwoTexts(t.head, t.tail);
        assert [Text(t.head)] + GapMarker(0) + [Text(t.tail)] == [Text(t.head), Text(t.tail)];
      } else {
        ThreePieces(t.head, gap, t.tail);
        assert [Text(t.head)] + GapMarker(|gap|) + [Text(t.tail)] == [Text(t.head), Marker(|gap|), Text(t.tail)];
      }
    } else {
      ClippedCovers(t, gap, FloorCut(data, CeilDiv(budget, 2)), CeilCut(data, |data| - budget / 2));
    }
  }

  lemma TwoTexts(a: seq<byte>, c: seq<byte>)
    ensures Covers([Text(a), Text(c)], a + c) && Marked([Text(a), Text(c)]) == 0
  {
    TextFirst(c, [], []);
    assert c + [] == c && [Text(c)] + [] == [Text(c)];
    TextFirst(a, [Text(c)], c);
    assert [Text(a)] + [Text(c)] == [Text(a), Text(c)];
  }

  lemma ClippedCovers(t: Taken, gap: seq<byte>, headEnd: nat, tailStart: nat)
    requires |gap| == t.omitted && headEnd <= tailStart <= |t.head| + |t.tail|
    ensures Covers(ClippedPieces(t, headEnd, tailStart), t.head + (gap + t.tail))
    ensures Marked(ClippedPieces(t, headEnd, tailStart)) == t.omitted + tailStart - headEnd
  {
    hide Covers, Marked;
    if t.omitted > 0 && |t.head| <= headEnd {
      ClippedAfterGap(t, gap, headEnd, tailStart);
    } else if t.omitted > 0 && |t.head| >= tailStart {
      ClippedBeforeGap(t, gap, headEnd, tailStart);
    } else {
      ClippedAcross(t, gap, headEnd, tailStart);
    }
  }

  lemma ClippedAfterGap(t: Taken, gap: seq<byte>, headEnd: nat, tailStart: nat)
    requires 0 < |gap| == t.omitted && |t.head| <= headEnd <= tailStart <= |t.head| + |t.tail|
    ensures Covers(ClippedPieces(t, headEnd, tailStart), t.head + (gap + t.tail))
    ensures Marked(ClippedPieces(t, headEnd, tailStart)) == t.omitted + tailStart - headEnd
  {
    hide Covers, Marked;
    var data, h := t.head + t.tail, |t.head|;
    var kept, dropped, last := t.tail[..headEnd - h], t.tail[headEnd - h..tailStart - h], t.tail[tailStart - h..];
    assert data[..h] == t.head && data[h..headEnd] == kept && data[tailStart..] == last;
    assert t.tail == kept + (dropped + last);
    FivePieces(t.head, gap, kept, dropped, last);
  }

  lemma ClippedBeforeGap(t: Taken, gap: seq<byte>, headEnd: nat, tailStart: nat)
    requires 0 < |gap| == t.omitted && headEnd <= tailStart <= |t.head| && |t.head| > headEnd
    ensures Covers(ClippedPieces(t, headEnd, tailStart), t.head + (gap + t.tail))
    ensures Marked(ClippedPieces(t, headEnd, tailStart)) == t.omitted + tailStart - headEnd
  {
    hide Covers, Marked;
    var data, h := t.head + t.tail, |t.head|;
    var first, dropped, kept := t.head[..headEnd], t.head[headEnd..tailStart], t.head[tailStart..];
    assert data[..headEnd] == first && data[tailStart..h] == kept && data[h..] == t.tail;
    FivePieces(first, dropped, kept, gap, t.tail);
    assert first + (dropped + (kept + (gap + t.tail))) == first + dropped + kept + (gap + t.tail);
    assert first + dropped + kept == t.head;
  }

  /** One marker stands for the clipped middle and for the gap inside it. */
  lemma ClippedAcross(t: Taken, gap: seq<byte>, headEnd: nat, tailStart: nat)
    requires |gap| == t.omitted && headEnd <= tailStart <= |t.head| + |t.tail|
    requires t.omitted > 0 ==> headEnd < |t.head| < tailStart
    ensures var data := t.head + t.tail;
            var pieces := [Text(data[..headEnd]), Marker(tailStart - headEnd + t.omitted), Text(data[tailStart..])];
            Covers(pieces, t.head + (gap + t.tail)) && Marked(pieces) == tailStart - headEnd + t.omitted
  {
    hide Covers, Marked;
    var data, h := t.head + t.tail, |t.head|;
    var first, last := data[..headEnd], data[tailStart..];
    if t.omitted == 0 {
      ThreePieces(first, data[headEnd..tailStart], last);
      assert gap + t.tail == t.tail;
      assert first + (data[headEnd..tailStart] + last) == data;
    } else {
      var lostHead, lostTail := t.head[headEnd..], t.tail[..tailStart - h];
      AroundGap(t, headEnd, tailStart);
      ThreePieces(first, lostHead + gap + lostTail, last);
      Regroup(first, lostHead, gap, lostTail, last);
    }
  }

  lemma AroundGap(t: Taken, headEnd: nat, tailStart: nat)
    requires headEnd < |t.head| < tailStart <= |t.head| + |t.tail|
    ensures var data := t.head + t.tail;
            && data[..headEnd] + t.head[headEnd..] == t.head
            && t.tail[..tailStart - |t.head|] + data[tailStart..] == t.tail
  {
  }

  lemma Regroup(a: seq<byte>, b: seq<byte>, c: seq<byte>, d: seq<byte>, e: seq<byte>)
    ensures a + (b + c + d + e) == (a + b) + (c + (d + e))
  {
  }

  datatype Operation =
    | Append(data: seq<byte>)
    | Shed(maximum: int)
    | Read(maximum: int, tokens: Option<nat>)
    | Clear

  /** The buffer together with everything appended to it and handed out by it since it was last
      cleared. */
  datatype History = History(view: View, appended: seq<byte>, delivered: seq<Piece>, reported: nat)

  const Start := History(EmptyView, [], [], 0)

  function Step(l: Limits, h: History, op: Operation): History
    requires h.view.Valid(l)
  {
    match op
    case Append(data) => h.(view := AppendView(l, h.view, data), appended := h.appended + data)
    case Shed(maximum) => h.(view := ShedView(h.view, maximum))
    case Read(maximum, tokens) =>
      if maximum < 4 then h
      else
        var batch := Render(Take(h.view, maximum), tokens);
        h.(view := ReadView(h.view, maximum),
           delivered := h.delivered + batch.pieces,
           reported := h.reported + batch.omittedBytes)
    case Clear => Start
  }

  function Size(v: View): nat {
    |v.head| + v.omitted + |v.tail|
  }

  /** Delivered pieces and unread pieces together tell the appended stream. */
  predicate Reassembles(h: History) {
    && Size(h.view) <= |h.appended|
    && var read := |h.appended| - Size(h.view);
       && Covers(h.delivered, h.appended[..read])
       && Holds(h.view, h.appended[read..])
  }

  predicate Inv(l: Limits, h: History) {
    && h.view.Valid(l)
    && Marked(h.delivered) == h.reported
    && (|h.appended| <= MAX_SAFE_INTEGER ==> Reassembles(h))
  }

  lemma AppendHolds(l: Limits, v: View, unread: seq<byte>, data: seq<byte>)
    requires l.Valid() && v.Valid(l)
    requires Holds(v, unread) && |unread| + |data| <= MAX_SAFE_INTEGER
    ensures Holds(AppendView(l, v, data), unread + data)
  {
    hide FloorCut, CeilCut, RollTail;
    var count := PrefixCount(l, v, data);
    var chunk, rest := data[..count], data[count..];
    var first := v.(head := v.head + chunk, closed := v.closed || count < |data| || |v.head + chunk| == l.head);
    if count > 0 {
      assert unread == v.head && (unread + chunk)[|unread + chunk|..] == [];
    } else {
      assert chunk == [] && v.head + chunk == v.head && unread + chunk == unread;
    }
    assert Holds(first, unread + chunk);
    if count < |data| {
      RollHolds(l, first, unread + chunk, rest);
      assert unread + chunk + rest == unread + data;
    } else {
      assert chunk == data;
    }
  }

  lemma AppendValid(l: Limits, v: View, data: seq<byte>)
    requires l.Valid() && v.Valid(l)
    ensures AppendView(l, v, data).Valid(l)
  {
    hide FloorCut, CeilCut, RollTail;
    var count := PrefixCount(l, v, data);
    var head := v.head + data[..count];
    if count < |data| {
      RollValid(l, v.(head := head, closed := true), data[count..]);
    }
  }

  lemma RollValid(l: Limits, v: View, data: seq<byte>)
    requires l.Valid() && |v.head| <= l.head && |v.tail| <= l.tail && v.closed
    ensures RollTail(l, v, data).Valid(l)
  {
  }

  lemma RollHolds(l: Limits, v: View, unread: seq<byte>, data: seq<byte>)
    requires l.Valid() && |v.tail| <= l.tail && Holds(v, unread) && |unread| + |data| <= MAX_SAFE_INTEGER
    ensures Holds(RollTail(l, v, data), unread + data)
  {
    hide CeilCut, FloorCut, TailCut, Holds;
    if |data| >= l.tail {
      GapTakesTail(v, unread, data, CeilCut(data, |data| - l.tail));
    } else {
      TailHolds(v, unread, TailCut(v.tail, |v.tail| + |data| - l.tail), data);
    }
  }

  /** The whole tail and `start` bytes of `data` go to the gap. */
  lemma GapTakesTail(v: View, unread: seq<byte>, data: seq<byte>, start: nat)
    requires Holds(v, unread) && start <= |data|
    ensures Holds(v.(tail := data[start..], omitted := v.omitted + |v.tail| + start), unread + data)
    ensures v.omitted + |v.tail| + start <= |unread| + |data|
  {
    assert (unread + data)[|unread| + start..] == data[start..];
  }

  /** The tail loses `dropped` bytes to the gap and gains `data`. */
  lemma TailHolds(v: View, unread: seq<byte>, dropped: nat, data: seq<byte>)
    requires Holds(v, unread) && dropped <= |v.tail|
    ensures Holds(v.(tail := v.tail[dropped..] + data, omitted := v.omitted + dropped), unread + data)
    ensures v.omitted + dropped <= |unread|
  {
    var from := |v.head| + v.omitted;
    assert unread[from..][dropped..] == unread[from + dropped..];
    assert (unread + data)[from + dropped..] == unread[from + dropped..] + data;
  }

  lemma ShedHolds(v: View, unread: seq<byte>, maximum: int)
    requires Holds(v, unread) && |unread| <= MAX_SAFE_INTEGER
    ensures Holds(ShedView(v, maximum), unread)
  {
    var count := TailCut(v.tail, maximum);
    TailHolds(v, unread, count, []);
    assert unread + [] == unread && v.tail[count..] + [] == v.tail[count..];
  }

  lemma ReadHolds(v: View, unread: seq<byte>, maximum: nat)
    requires Holds(v, unread)
    ensures var t := Take(v, maximum);
            var n := |t.head| + t.omitted + |t.tail|;
            && n <= |unread|
            && unread[..n] == t.head + unread[|t.head|..|t.head| + t.omitted] + t.tail
            && Size(ReadView(v, maximum)) == |unread| - n
            && Holds(ReadView(v, maximum), unread[n..])
  {
    hide Take;
    var t, w := Take(v, maximum), ReadView(v, maximum);
    if t.head == v.head && t.omitted == v.omitted {
      PastHead(v, unread, |t.tail|, w.closed);
      assert w == View([], v.tail[|t.tail|..], 0, w.closed);
      assert v.tail[..|t.tail|] == t.tail;
    } else {
      WithinHead(v, unread, |t.head|, w.closed);
      assert w == View(v.head[|t.head|..], v.tail, v.omitted, w.closed);
      assert v.head[..|t.head|] == t.head;
      assert t.head + unread[|t.head|..|t.head|] + t.tail == t.head;
    }
  }

  /** The head is consumed up to `n`; nothing behind it moves. */
  lemma WithinHead(v: View, unread: seq<byte>, n: nat, closed: bool)
    requires Holds(v, unread) && n <= |v.head|
    ensures n <= |unread| && unread[..n] == v.head[..n]
    ensures Holds(View(v.head[n..], v.tail, v.omitted, closed), unread[n..])
  {
    var from := |v.head| + v.omitted;
    assert unread[..|v.head|] == v.head;
    assert unread[n..][..|v.head| - n] == v.head[n..];
    assert unread[n..][from - n..] == unread[from..];
  }

  /** The head and the gap are consumed, and `k` bytes of the tail. */
  lemma PastHead(v: View, unread: seq<byte>, k: nat, closed: bool)
    requires Holds(v, unread) && k <= |v.tail|
    ensures var n := |v.head| + v.omitted + k;
            && n <= |unread|
            && unread[..n] == v.head + unread[|v.head|..|v.head| + v.omitted] + v.tail[..k]
            && Holds(View([], v.tail[k..], 0, closed), unread[n..])
  {
    var from := |v.head| + v.omitted;
    assert unread[..|v.head|] == v.head;
    assert unread[from..][..k] == unread[from..from + k];
    assert unread[from + k..] == unread[from..][k..];
  }

  lemma StepKeeps(l: Limits, h: History, op: Operation)
    requires l.Valid() && Inv(l, h)
    ensures Inv(l, Step(l, h, op))
  {
    hide Inv, Covers, Marked, Render, Take, ReadView, AppendView;
    match op
    case Append(data) => AppendStep(l, h, data);
    case Shed(maximum) => ShedStep(l, h, maximum);
    case Read(maximum, tokens) =>
      if maximum >= 4 {
        ReadStep(l, h, maximum, tokens);
      }
    case Clear => StartInv(l);
  }

  lemma StartInv(l: Limits)
    ensures Inv(l, Start)
  {
  }

  lemma AppendStep(l: Limits, h: History, data: seq<byte>)
    requires l.Valid() && Inv(l, h)
    ensures Inv(l, Step(l, h, Append(data)))
  {
    hide Covers, Marked, AppendView;
    AppendValid(l, h.view, data);
    var after := h.appended + data;
    if |after| <= MAX_SAFE_INTEGER {
      var read := |h.appended| - Size(h.view);
      var unread := h.appended[read..];
      AppendHolds(l, h.view, unread, data);
      assert after[read..] == unread + data && after[..read] == h.appended[..read];
    }
  }

  lemma ShedStep(l: Limits, h: History, maximum: int)
    requires l.Valid() && Inv(l, h)
    ensures Inv(l, Step(l, h, Shed(maximum)))
  {
    hide Covers, Marked;
    if |h.appended| <= MAX_SAFE_INTEGER {
      ShedHolds(h.view, h.appended[|h.appended| - Size(h.view)..], maximum);
    }
  }

  lemma ReadStep(l: Limits, h: History, maximum: nat, tokens: Option<nat>)
    requires l.Valid() && Inv(l, h) && maximum >= 4
    ensures Inv(l, Step(l, h, Read(maximum, tokens)))
  {
    hide Covers, Marked, Render, Holds;
    var t := Take(h.view, maximum);
    MarkedConcat(h.delivered, Render(t, tokens).pieces);
    RenderCovers(t, seq(t.omitted, i => 0), tokens);
    if |h.appended| <= MAX_SAFE_INTEGER {
      ReadReassembles(l, h, maximum, tokens);
    }
  }

  lemma ReadReassembles(l: Limits, h: History, maximum: nat, tokens: Option<nat>)
    requires h.view.Valid(l) && Reassembles(h) && maximum >= 4
    ensures Reassembles(Step(l, h, Read(maximum, tokens)))
  {
    hide Covers, Render, Take, ReadView, Marked, Holds;
    var t := Take(h.view, maximum);
    var pieces := Render(t, tokens).pieces;
    var read := |h.appended| - Size(h.view);
    var unread := h.appended[read..];
    var n := |t.head| + t.omitted + |t.tail|;
    ReadHolds(h.view, unread, maximum);
    var gap := unread[|t.head|..|t.head| + t.omitted];
    RenderCovers(t, gap, tokens);
    CoversConcat(h.delivered, pieces, h.appended[..read], t.head + gap + t.tail);
    assert h.appended[..read] + unread[..n] == h.appended[..read + n];
    assert unread[n..] == h.appended[read + n..];
  }

  function Run(l: Limits, ops: seq<Operation>): (h: History)
    requires l.Valid()
    ensures Inv(l, h)
  {
    if ops == [] then
      assert Inv(l, Start);
      Start
    else
      var h := Run(l, ops[..|ops| - 1]);
      StepKeeps(l, h, ops[|ops| - 1]);
      Step(l, h, ops[|ops| - 1])
  }

  /** In every run, what was handed out followed by what is unread tells the appended stream,
      every gap at its place and with its exact length, within the capacity. */
  lemma Reassembly(capacity: nat, ops: seq<Operation>)
    requires 64 <= capacity
    ensures var h := Run(LimitsOf(capacity), ops);
            && (|h.appended| <= MAX_SAFE_INTEGER ==> Covers(h.delivered + UnreadPieces(h.view), h.appended))
            && h.reported == Marked(h.delivered)
            && h.view.Bytes() <= capacity
  {
    hide Covers, Run;
    var h := Run(LimitsOf(capacity), ops);
    if |h.appended| <= MAX_SAFE_INTEGER {
      var v, read := h.view, |h.appended| - Size(h.view);
      var unread := h.appended[read..];
      var gap := unread[|v.head|..|v.head| + v.omitted];
      ThreePieces(v.head, gap, v.tail);
      assert v.head + (gap + v.tail) == unread by {
        assert unread[..|v.head|] == v.head;
      }
      CoversConcat(h.delivered, UnreadPieces(v), h.appended[..read], unread);
      assert h.appended[..read] + unread == h.appended;
    }
  }

  predicate TextOperation(op: Operation) {
    op.Append? ==> WellFormed(op.data)
  }

  /** Appended text stays well formed in the head, in the tail and in every piece handed out,
      clipped or not. */
  lemma {:induction false} RunKeepsText(l: Limits, ops: seq<Operation>)
    requires l.Valid() && forall i :: 0 <= i < |ops| ==> TextOperation(ops[i])
    ensures Run(l, ops).view.TextValid() && TextsWellFormed(Run(l, ops).delivered)
  {
    if ops == [] {
      EmptyText();
    } else {
      var h, op := Run(l, ops[..|ops| - 1]), ops[|ops| - 1];
      RunKeepsText(l, ops[..|ops| - 1]);
      StepKeepsText(l, h, op);
    }
    hide Step, WellFormed, Covers, Marked;
  }

  lemma StepKeepsText(l: Limits, h: History, op: Operation)
    requires l.Valid() && h.view.Valid(l) && h.view.TextValid() && TextsWellFormed(h.delivered) && TextOperation(op)
    ensures Step(l, h, op).view.TextValid() && TextsWellFormed(Step(l, h, op).delivered)
  {
    match op
    case Append(data) => AppendKeepsText(l, h.view, data);
    case Shed(maximum) => TailCutText(h.view.tail, maximum);
    case Read(maximum, tokens) =>
      if maximum >= 4 {
        ReadKeepsText(h.view, maximum);
        RenderText(Take(h.view, maximum), tokens);
        hide WellFormed, Render, Take, ReadView;
      }
    case Clear => EmptyText();
  }

  lemma TailCutText(tail: seq<byte>, excess: int)
    requires WellFormed(tail)
    ensures WellFormed(tail[TailCut(tail, excess)..])
  {
    if excess > 0 {
      CutsWellFormed(tail, Min(excess, |tail|));
    } else {
      assert tail[0..] == tail;
    }
  }

  lemma AppendKeepsText(l: Limits, v: View, data: seq<byte>)
    requires l.Valid() && v.Valid(l) && v.TextValid() && WellFormed(data)
    ensures AppendView(l, v, data).TextValid()
  {
    hide WellFormed, PrefixCount, RollTail;
    PrefixText(l, v, data);
    var count := PrefixCount(l, v, data);
    if count < |data| {
      var head := v.head + data[..count];
      RollText(l, v.(head := head, closed := v.closed || count < |data| || |head| == l.head), data[count..]);
    }
  }

  lemma PrefixText(l: Limits, v: View, data: seq<byte>)
    requires l.Valid() && v.Valid(l) && v.TextValid() && WellFormed(data)
    ensures var count := PrefixCount(l, v, data);
            WellFormed(v.head + data[..count]) && WellFormed(data[count..])
  {
    hide WellFormed, FloorCut, CeilCut;
    var count := PrefixCount(l, v, data);
    if v.closed {
      assert v.head + data[..0] == v.head && data[0..] == data;
    } else {
      CutsWellFormed(data, Min(|data|, l.head - |v.head|));
      Concat(v.head, data[..count]);
    }
  }

  lemma RollText(l: Limits, v: View, data: seq<byte>)
    requires WellFormed(v.tail) && WellFormed(data)
    ensures WellFormed(RollTail(l, v, data).tail)
  {
    hide WellFormed, FloorCut, CeilCut, TailCut;
    if |data| >= l.tail {
      CutsWellFormed(data, |data| - l.tail);
    } else {
      var excess := |v.tail| + |data| - l.tail;
      TailCutText(v.tail, excess);
      Concat(v.tail[TailCut(v.tail, excess)..], data);
    }
  }

  lemma FrontText(s: seq<byte>, maximum: nat)
    requires WellFormed(s)
    ensures WellFormed(Front(s, maximum)) && WellFormed(s[|Front(s, maximum)|..])
    ensures maximum >= 4 && s != [] ==> Front(s, maximum) != []
  {
    hide WellFormed, FloorCut, CeilCut;
    CutsWellFormed(s, Min(maximum, |s|));
    CutDistance(s, Min(maximum, |s|));
  }

  lemma ReadKeepsText(v: View, maximum: nat)
    requires v.TextValid()
    ensures var t := Take(v, maximum); WellFormed(t.head) && WellFormed(t.tail)
    ensures ReadView(v, maximum).TextValid()
  {
    hide WellFormed, Front;
    FrontText(v.head, maximum);
    FrontText(v.tail, maximum - |Front(v.head, maximum)|);
    EmptyText();
    assert v.tail[0..] == v.tail;
  }

  lemma EmptyText()
    ensures WellFormed([])
  {
  }

  lemma RenderText(t: Taken, tokens: Option<nat>)
    requires WellFormed(t.head) && WellFormed(t.tail)
    ensures TextsWellFormed(Render(t, tokens).pieces)
  {
    hide WellFormed, FloorCut, CeilCut, ClippedPieces, TextsWellFormed;
    var data := t.head + t.tail;
    var budget := TokenBudget(|data|, tokens);
    if |data| > budget {
      Concat(t.head, t.tail);
      CutDistance(data, CeilDiv(budget, 2));
      ClippedText(t, FloorCut(data, CeilDiv(budget, 2)), CeilCut(data, |data| - budget / 2));
    } else {
      PlainText(t);
    }
  }

  lemma PlainText(t: Taken)
    requires WellFormed(t.head) && WellFormed(t.tail)
    ensures TextsWellFormed([Text(t.head)] + GapMarker(t.omitted) + [Text(t.tail)])
  {
    hide WellFormed;
  }

  lemma ClippedText(t: Taken, headEnd: nat, tailStart: nat)
    requires WellFormed(t.head) && WellFormed(t.tail) && WellFormed(t.head + t.tail)
    requires headEnd <= tailStart <= |t.head + t.tail|
    requires Boundary(t.head + t.tail, headEnd) && Boundary(t.head + t.tail, tailStart)
    ensures TextsWellFormed(ClippedPieces(t, headEnd, tailStart))
  {
    hide WellFormed;
    var data, h := t.head + t.tail, |t.head|;
    SplitAtBoundary(data, headEnd);
    SplitAtBoundary(data, tailStart);
    assert data[..h] == t.head && data[h..] == t.tail;
    if h <= headEnd {
      SplitAtBoundary(t.tail, headEnd - h);
      assert data[h..headEnd] == t.tail[..headEnd - h];
    }
    if h >= tailStart {
      SplitAtBoundary(t.head, tailStart);
      assert data[tailStart..h] == t.head[tailStart..];
    }
  }

  /** What a read still has to hand out: unread bytes, and one for a gap not yet reported. */
  function Backlog(v: View): nat {
    v.Bytes() + (if v.omitted > 0 then 1 else 0)
  }

  lemma ReadProgresses(v: View, maximum: nat)
    requires v.TextValid() && maximum >= 4 && v.Pending()
    ensures Backlog(ReadView(v, maximum)) < Backlog(v)
  {
    hide WellFormed, Front, Take;
    var t, w := Take(v, maximum), ReadView(v, maximum);
    assert |w.head| == |v.head| - |t.head| && |w.tail| == |v.tail| - |t.tail| && w.omitted == v.omitted - t.omitted;
    TakesSomething(v, maximum);
  }

  lemma TakesSomething(v: View, maximum: nat)
    requires v.TextValid() && maximum >= 4 && v.Pending()
    ensures var t := Take(v, maximum); t.head != [] || t.tail != [] || t.omitted == v.omitted > 0
  {
    hide WellFormed, Front;
    FrontText(v.head, maximum);
    FrontText(v.tail, maximum);
  }

  /** Repeated reads, each with its own byte limit and token budget, until nothing is pending. */
  function Drain(l: Limits, h: History, maximum: nat, tokens: Option<nat>): (final: History)
    requires l.Valid() && Inv(l, h) && h.view.TextValid() && maximum >= 4
    ensures Inv(l, final) && !final.view.Pending() && final.appended == h.appended
    decreases Backlog(h.view)
  {
    if !h.view.Pending() then h
    else
      var op := Read(maximum, tokens);
      StepKeeps(l, h, op);
      ReadProgresses(h.view, maximum);
      ReadKeepsText(h.view, maximum);
      Drain(l, Step(l, h, op), maximum, tokens)
  }

  /** Reads of at least four bytes empty any buffer that received text, and by then the pieces
      handed out tell the whole stream. */
  lemma Drained(capacity: nat, ops: seq<Operation>, maximum: nat, tokens: Option<nat>)
    requires 64 <= capacity && maximum >= 4
    requires forall i :: 0 <= i < |ops| ==> TextOperation(ops[i])
    ensures var l := LimitsOf(capacity);
            var h := Run(l, ops);
            && h.view.TextValid()
            && var final := Drain(l, h, maximum, tokens);
               && final.view.Bytes() == 0 && final.view.omitted == 0
               && (|h.appended| <= MAX_SAFE_INTEGER ==> Covers(final.delivered, h.appended))
  {
    hide Covers, Run, Drain;
    var l := LimitsOf(capacity);
    var h := Run(l, ops);
    RunKeepsText(l, ops);
    var final := Drain(l, h, maximum, tokens);
    if |h.appended| <= MAX_SAFE_INTEGER {
      assert Size(final.view) == 0;
      assert final.appended[..|final.appended|] == final.appended;
    }
  }

  /** Appending extends the prefix as far as it can while it is open, loses nothing while the
      tail has room, and otherwise keeps the tail full to within one character. */
  lemma AppendKeepsMost(l: Limits, v: View, data: seq<byte>)
    requires l.Valid() && v.Valid(l) && v.TextValid() && WellFormed(data)
    ensures var w, k := AppendView(l, v, data), PrefixCount(l, v, data);
            && w.head == v.head + data[..k]
            && (v.closed ==> k == 0)
            && (!v.closed && k < |data| ==> l.head <= |w.head| + 3)
            && (|v.tail| + |data| - k <= l.tail ==> w.tail == v.tail + data[k..] && w.omitted == v.omitted)
            && (|v.tail| + |data| - k > l.tail ==> l.tail <= |w.tail| + 3)
  {
    hide WellFormed, FloorCut, CeilCut, RollTail;
    var k := PrefixCount(l, v, data);
    if !v.closed {
      CutDistance(data, Min(|data|, l.head - |v.head|));
    }
    if k < |data| {
      PrefixText(l, v, data);
      var head := v.head + data[..k];
      RollKeepsMost(l, v.(head := head, closed := v.closed || k < |data| || |head| == l.head), data[k..]);
    } else {
      assert v.tail + data[k..] == v.tail;
    }
  }

  lemma RollKeepsMost(l: Limits, v: View, data: seq<byte>)
    requires l.Valid() && WellFormed(v.tail) && WellFormed(data) && |v.tail| <= l.tail
    requires v.omitted <= MAX_SAFE_INTEGER
    ensures var w := RollTail(l, v, data);
            && (|v.tail| + |data| <= l.tail ==> w.tail == v.tail + data && w.omitted == v.omitted)
            && (|v.tail| + |data| > l.tail ==> l.tail <= |w.tail| + 3)
  {
    hide WellFormed, FloorCut;
    if |data| >= l.tail {
      CutDistance(data, |data| - l.tail);
      if |data| == l.tail {
        StartsAtBoundary(data);
        assert data[0..] == data;
      }
    } else if |v.tail| + |data| > l.tail {
      CutDistance(v.tail, |v.tail| + |data| - l.tail);
    } else {
      assert v.tail[0..] == v.tail;
    }
  }

  lemma StartsAtBoundary(s: seq<byte>)
    requires WellFormed(s)
    ensures CeilCut(s, 0) == 0
  {
  }

  /** Shedding drops what was asked, rounded up to a whole character, or the whole tail; the
      head never moves. */
  lemma ShedAmount(v: View, maximum: int)
    requires v.TextValid()
    ensures var w := ShedView(v, maximum);
            var dropped := |v.tail| - |w.tail|;
            && w.head == v.head && w.closed == v.closed
            && (maximum <= 0 ==> dropped == 0)
            && (0 < maximum <= |v.tail| ==> maximum <= dropped <= maximum + 3)
            && (maximum > |v.tail| ==> w.tail == [])
  {
    if maximum > 0 {
      CutDistance(v.tail, Min(maximum, |v.tail|));
    }
  }
}
