/** Which bytes a read takes out of a buffer, and which of them it shows. */
module OutputClips {
  import opened Utf8
  import opened ByteQueues
  import opened OutputViews

  /** The text that the pieces show, without the markers. */
  function Shown(pieces: seq<Piece>): seq<byte> {
    if pieces == [] then []
    else (if pieces[0].Text? then pieces[0].bytes else []) + Shown(pieces[1..])
  }

  /** The numbers that the pieces print for missing bytes. */
  function Gaps(pieces: seq<Piece>): seq<nat> {
    if pieces == [] then []
    else (if pieces[0].Marker? then [pieces[0].count] else []) + Gaps(pieces[1..])
  }

  /** `h` is the last place up to `i` at which no character is cut. */
  predicate CutBefore(data: seq<byte>, i: nat, h: nat)
    requires i <= |data|
  {
    && h <= i && (h == 0 || Boundary(data, h))
    && forall k :: h < k <= i ==> !Boundary(data, k)
  }

  /** `s` is the first place from `i` on at which no character is cut. */
  predicate CutAfter(data: seq<byte>, i: nat, s: nat)
    requires i <= |data|
  {
    && i <= s <= |data| && Boundary(data, s)
    && forall k :: i <= k < s ==> !Boundary(data, k)
  }

  /** The missing bytes in order: `h..s` of the text was clipped, and `omitted` bytes are missing
      behind `head` bytes of it. A gap inside the clipped part is told in the same number. */
  function GapsAround(head: nat, omitted: nat, h: nat, s: nat): seq<nat>
    requires h <= s
  {
    if omitted == 0 then [s - h]
    else if head <= h then [omitted, s - h]
    else if head < s then [s - h + omitted]
    else [s - h, omitted]
  }

  /** The text is shown up to `h` and from `s` on. */
  predicate Clipped(t: Taken, batch: Batch, budget: nat, h: nat, s: nat) {
    && budget < |t.head + t.tail| && h <= s <= |t.head + t.tail|
    && CutBefore(t.head + t.tail, budget - budget / 2, h) && CutAfter(t.head + t.tail, |t.head + t.tail| - budget / 2, s)
    && Shown(batch.pieces) == (t.head + t.tail)[..h] + (t.head + t.tail)[s..]
    && Gaps(batch.pieces) == GapsAround(|t.head|, t.omitted, h, s)
    && batch.omittedBytes == t.omitted + s - h
  }

  /** `n` tokens of four bytes stand for this many bytes. */
  predicate Tokens(n: nat, bytes: nat) {
    4 * n - 4 < bytes <= 4 * n
  }

  lemma ShowOne(piece: Piece, rest: seq<Piece>)
    ensures Shown([piece] + rest) == (if piece.Text? then piece.bytes else []) + Shown(rest)
    ensures Gaps([piece] + rest) == (if piece.Marker? then [piece.count] else []) + Gaps(rest)
  {
    assert ([piece] + rest)[1..] == rest;
  }

  lemma ShowTwo(a: seq<byte>, c: seq<byte>)
    ensures Shown([Text(a), Text(c)]) == a + c && Gaps([Text(a), Text(c)]) == []
  {
    hide Shown, Gaps;
    ShowLast(c);
    ShowOne(Text(a), [Text(c)]);
    assert [Text(a)] + [Text(c)] == [Text(a), Text(c)];
  }

  lemma ShowLast(c: seq<byte>)
    ensures Shown([Text(c)]) == c && Gaps([Text(c)]) == []
  {
    assert [Text(c)][1..] == [];
    assert c + [] == c;
  }

  lemma ShowThree(a: seq<byte>, m: nat, c: seq<byte>)
    ensures Shown([Text(a), Marker(m), Text(c)]) == a + c && Gaps([Text(a), Marker(m), Text(c)]) == [m]
  {
    hide Shown, Gaps;
    ShowLast(c);
    ShowOne(Marker(m), [Text(c)]);
    ShowOne(Text(a), [Marker(m)] + [Text(c)]);
    assert [Text(a)] + ([Marker(m)] + [Text(c)]) == [Text(a), Marker(m), Text(c)];
  }

  lemma ShowFive(a: seq<byte>, m: nat, b: seq<byte>, n: nat, c: seq<byte>)
    ensures Shown([Text(a), Marker(m), Text(b), Marker(n), Text(c)]) == a + b + c
    ensures Gaps([Text(a), Marker(m), Text(b), Marker(n), Text(c)]) == [m, n]
  {
    hide Shown, Gaps;
    var last := [Text(b), Marker(n), Text(c)];
    ShowThree(b, n, c);
    ShowOne(Marker(m), last);
    ShowOne(Text(a), [Marker(m)] + last);
    assert [Text(a)] + ([Marker(m)] + last) == [Text(a), Marker(m), Text(b), Marker(n), Text(c)];
    assert a + (b + c) == a + b + c;
  }

  /** The clipped pieces show both ends and nothing else, and tell the gaps in order. */
  lemma ClippedShows(t: Taken, h: nat, s: nat)
    requires h <= s <= |t.head| + |t.tail|
    ensures Shown(ClippedPieces(t, h, s)) == (t.head + t.tail)[..h] + (t.head + t.tail)[s..]
    ensures s > h ==> Gaps(ClippedPieces(t, h, s)) == GapsAround(|t.head|, t.omitted, h, s)
  {
    hide Shown, Gaps;
    var data, n := t.head + t.tail, |t.head|;
    if t.omitted > 0 && n <= h {
      ShowFive(data[..n], t.omitted, data[n..h], s - h, data[s..]);
      assert data[..n] + data[n..h] == data[..h];
    } else if t.omitted > 0 && n >= s {
      ShowFive(data[..h], s - h, data[s..n], t.omitted, data[n..]);
      assert data[..h] + data[s..n] + data[n..] == data[..h] + data[s..];
    } else {
      ShowThree(data[..h], s - h + t.omitted, data[s..]);
    }
  }

  lemma WholeShows(t: Taken)
    ensures Shown([Text(t.head)] + GapMarker(t.omitted) + [Text(t.tail)]) == t.head + t.tail
    ensures Gaps([Text(t.head)] + GapMarker(t.omitted) + [Text(t.tail)]) == if t.omitted > 0 then [t.omitted] else []
  {
    hide Shown, Gaps;
    if t.omitted == 0 {
      ShowTwo(t.head, t.tail);
      assert [Text(t.head)] + GapMarker(0) + [Text(t.tail)] == [Text(t.head), Text(t.tail)];
    } else {
      ShowThree(t.head, t.omitted, t.tail);
      assert [Text(t.head)] + GapMarker(t.omitted) + [Text(t.tail)] == [Text(t.head), Marker(t.omitted), Text(t.tail)];
    }
  }

  lemma CutsAreCuts(data: seq<byte>, i: nat)
    requires i <= |data|
    ensures CutBefore(data, i, FloorCut(data, i)) && CutAfter(data, i, CeilCut(data, i))
  {
  }

  /** Four bytes for each token, up to the largest safe integer. */
  function Allowed(tokens: nat): nat {
    if 4 * tokens > MAX_SAFE_INTEGER then MAX_SAFE_INTEGER else 4 * tokens
  }

  predicate ShowsAll(t: Taken, batch: Batch) {
    && Shown(batch.pieces) == t.head + t.tail
    && Gaps(batch.pieces) == (if t.omitted > 0 then [t.omitted] else [])
    && batch.omittedBytes == t.omitted && batch.originalTokens.None?
  }

  ghost predicate ShowsEnds(t: Taken, batch: Batch, budget: nat) {
    && batch.originalTokens.Some? && Tokens(batch.originalTokens.value, |t.head + t.tail| + t.omitted)
    && exists h, s :: Clipped(t, batch, budget, h, s)
  }

  /** What a read shows of the bytes it took. Without a token limit, or when four bytes for each
      token suffice, that is all of them. Otherwise it is the longest beginning and the longest end
      that fit in half of the budget each and cut no character. */
  lemma RenderShows(t: Taken, tokens: Option<nat>)
    ensures var batch := Render(t, tokens);
      && (if tokens.None? || |t.head + t.tail| <= Allowed(tokens.value) then ShowsAll(t, batch)
          else ShowsEnds(t, batch, Allowed(tokens.value)))
      && (batch.truncated <==> batch.omittedBytes > 0)
  {
    hide Shown, Gaps, FloorCut, CeilCut, ClippedPieces, ShowsEnds;
    WholeShows(t);
    if tokens.Some? && |t.head + t.tail| > Allowed(tokens.value) { EndsShow(t, tokens.value); }
  }

  lemma EndsShow(t: Taken, tokens: nat)
    requires |t.head + t.tail| > Allowed(tokens)
    ensures ShowsEnds(t, Render(t, Some(tokens)), Allowed(tokens)) && Render(t, Some(tokens)).omittedBytes > 0
  {
    hide Shown, Gaps, FloorCut, CeilCut, ClippedPieces, CutBefore, CutAfter, GapsAround;
    var data, budget := t.head + t.tail, Allowed(tokens);
    var h, s := FloorCut(data, CeilDiv(budget, 2)), CeilCut(data, |data| - budget / 2);
    assert CeilDiv(budget, 2) == budget - budget / 2;
    CutsAreCuts(data, budget - budget / 2);
    CutsAreCuts(data, |data| - budget / 2);
    ClippedShows(t, h, s);
    assert Clipped(t, Render(t, Some(tokens)), budget, h, s);
  }

  /** Of well-formed text, the ends that a clipped read shows come within three bytes of their half
      of the budget. */
  lemma ClippedEnds(t: Taken, batch: Batch, budget: nat, h: nat, s: nat)
    requires WellFormed(t.head) && WellFormed(t.tail) && Clipped(t, batch, budget, h, s)
    ensures budget - budget / 2 - 3 <= h <= budget - budget / 2
    ensures budget / 2 - 3 <= |t.head + t.tail| - s <= budget / 2
    ensures |Shown(batch.pieces)| <= budget
  {
    hide WellFormed, Shown, Gaps;
    var data := t.head + t.tail;
    Concat(t.head, t.tail);
    var i, j := budget - budget / 2, |data| - budget / 2;
    CutDistance(data, i);
    CutDistance(data, j);
    CutsAreCuts(data, i);
    CutsAreCuts(data, j);
    SameCut(data, i, h, FloorCut(data, i));
    assert s == CeilCut(data, j);
  }

  lemma SameCut(data: seq<byte>, i: nat, h: nat, g: nat)
    requires i <= |data| && CutBefore(data, i, h) && CutBefore(data, i, g)
    ensures h == g
  {
  }

  // ---- what a read takes ----

  /** A read takes everything, or as many bytes as fit but for one character that would be cut;
      the gap goes with the first byte behind it, or with the last byte before it when no tail
      follows. */
  lemma TakesMost(v: View, maximum: nat)
    requires v.TextValid()
    ensures var t := Take(v, maximum);
      && |t.head| + |t.tail| <= maximum
      && (t == Taken(v.head, v.omitted, v.tail) || maximum <= |t.head| + |t.tail| + 3)
      && (t.head != v.head ==> t.omitted == 0 && t.tail == [])
      && (t.head == v.head && (|v.head| < maximum || v.tail == []) ==> t.omitted == v.omitted)
      && (t.head == v.head && |v.head| == maximum && v.tail != [] ==> t.omitted == 0)
  {
    hide WellFormed, FloorCut;
    var n := if maximum < |v.head| then maximum else |v.head|;
    CutDistance(v.head, n);
    var front := Front(v.head, maximum);
    assert front == v.head[..FloorCut(v.head, n)];
    if |front| == |v.head| {
      var room := maximum - |front|;
      var k := if room < |v.tail| then room else |v.tail|;
      CutDistance(v.tail, k);
      assert Front(v.tail, room) == v.tail[..FloorCut(v.tail, k)];
    }
  }

  /** What a read leaves is what it did not take, in the same order. */
  lemma ReadLeaves(v: View, maximum: nat)
    ensures var t, w := Take(v, maximum), ReadView(v, maximum);
      && t.head + w.head == v.head && t.tail + w.tail == v.tail && t.omitted + w.omitted == v.omitted
      && (w.closed <==> v.closed && w.Pending())
  {
    hide Take;
  }

  // ---- what the prefix is ----

  /** A sixteenth of the capacity is for the prefix, and the rest for the tail. */
  lemma PrefixShare(capacity: nat)
    requires capacity >= 64
    ensures var l := LimitsOf(capacity); 16 * l.head <= capacity < 16 * l.head + 16 && l.tail == capacity - l.head
  {
  }

  /** The prefix is over once a byte did not fit into it or it is full, until everything was read. */
  lemma PrefixCloses(l: Limits, v: View, data: seq<byte>)
    requires v.Valid(l)
    ensures var w := AppendView(l, v, data);
      w.closed <==> v.closed || |w.head| < |v.head| + |data| || |w.head| == l.head
    ensures v.closed ==> AppendView(l, v, data).head == v.head
  {
    hide FloorCut, CeilCut, TailCut;
  }
}
