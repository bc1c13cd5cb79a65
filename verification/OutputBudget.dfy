/** The token budget of an output: the beginning and the end of its text stay, media stay as they
    are. A text is its UTF-8 bytes. */
module OutputBudgets {
  import opened Utf8

  const MAX_SAFE_INTEGER: nat := 9007199254740991

  datatype Option<+T> = None | Some(value: T)

  datatype Item = Text(bytes: seq<byte>) | Media(id: nat)

  predicate TextItems(items: seq<Item>) {
    forall i :: 0 <= i < |items| && items[i].Text? ==> WellFormed(items[i].bytes)
  }

  function AllText(items: seq<Item>): seq<byte> {
    if items == [] then []
    else (if items[0].Text? then items[0].bytes else []) + AllText(items[1..])
  }

  function AllMedia(items: seq<Item>): seq<nat> {
    if items == [] then []
    else (if items[0].Media? then [items[0].id] else []) + AllMedia(items[1..])
  }

  function Clamp(low: int, n: int, high: nat): (r: nat)
    requires 0 <= low <= high
    ensures low <= r <= high
  {
    if n < low then low else if n > high then high else n
  }

  /** A line feed, an ellipsis, a line feed. */
  const Mark: seq<byte> := [0x0a, 0xe2, 0x80, 0xa6, 0x0a]

  /** What stays of one text that starts `head` bytes before the head ends and `tail` bytes before
      the tail starts. */
  function HeadPart(bytes: seq<byte>, head: int): seq<byte> {
    bytes[..FloorCut(bytes, Clamp(0, head, |bytes|))]
  }

  function TailPart(bytes: seq<byte>, tail: int): seq<byte> {
    bytes[CeilCut(bytes, Clamp(0, tail, |bytes|))..]
  }

  function Clip(bytes: seq<byte>, head: int, tail: int): seq<byte> {
    HeadPart(bytes, head)
    + (if HeadPart(bytes, head) != [] && TailPart(bytes, tail) != [] && |bytes| > head && tail > 0 then Mark else [])
    + TailPart(bytes, tail)
  }

  function ClipItems(items: seq<Item>, head: int, tail: int): seq<Item> {
    if items == [] then []
    else if items[0].Media? then [items[0]] + ClipItems(items[1..], head, tail)
    else
      var b := items[0].bytes;
      Pushed(b, head, tail) + ClipItems(items[1..], head - |b|, tail - |b|)
  }

  /** A text of which nothing stays leaves no item. */
  function Pushed(bytes: seq<byte>, head: int, tail: int): seq<Item> {
    if HeadPart(bytes, head) == [] && TailPart(bytes, tail) == [] then [] else [Text(Clip(bytes, head, tail))]
  }

  /** Where the kept beginning ends and where the kept end begins, as offsets in the whole text. */
  function HeadCut(items: seq<Item>, head: int): (h: nat)
    ensures h <= |AllText(items)|
    ensures head <= 0 ==> h == 0
  {
    if items == [] || head <= 0 then 0
    else if items[0].Media? then HeadCut(items[1..], head)
    else if head >= |items[0].bytes| then |items[0].bytes| + HeadCut(items[1..], head - |items[0].bytes|)
    else FloorCut(items[0].bytes, head)
  }

  function TailCut(items: seq<Item>, tail: int): (t: nat)
    ensures t <= |AllText(items)|
    ensures tail <= 0 ==> t == 0
  {
    if items == [] || tail <= 0 then 0
    else if items[0].Media? then TailCut(items[1..], tail)
    else if tail >= |items[0].bytes| then |items[0].bytes| + TailCut(items[1..], tail - |items[0].bytes|)
    else CeilCut(items[0].bytes, tail)
  }

  /** One text keeps something on both sides of the gap. */
  predicate Spans(items: seq<Item>, head: int, tail: int) {
    items != [] &&
    (if items[0].Media? then Spans(items[1..], head, tail)
     else (HeadPart(items[0].bytes, head) != [] && TailPart(items[0].bytes, tail) != [])
          || Spans(items[1..], head - |items[0].bytes|, tail - |items[0].bytes|))
  }

  // ---- cuts stay close to where they were asked ----

  lemma {:induction false} HeadNear(items: seq<Item>, head: int)
    requires TextItems(items) && 0 <= head <= |AllText(items)|
    ensures head - 3 <= HeadCut(items, head) <= head
  {
    if items != [] {
      RestText(items);
      if items[0].Media? {
        HeadNear(items[1..], head);
      } else {
        var b := items[0].bytes;
        if head >= |b| { HeadNear(items[1..], head - |b|); } else { CutDistance(b, head); }
        hide FloorCut, WellFormed;
      }
    }
  }

  lemma {:induction false} TailNear(items: seq<Item>, tail: int)
    requires TextItems(items) && 0 <= tail <= |AllText(items)|
    ensures tail <= TailCut(items, tail) <= tail + 3
  {
    if items != [] {
      RestText(items);
      if items[0].Media? {
        TailNear(items[1..], tail);
      } else {
        var b := items[0].bytes;
        if tail >= |b| { TailNear(items[1..], tail - |b|); } else { CutDistance(b, tail); }
        hide CeilCut, WellFormed;
      }
    }
  }

  // ---- the clipped text ----

  lemma TailNone(b: seq<byte>, tail: int)
    requires tail >= |b|
    ensures TailPart(b, tail) == []
  {
  }

  /** Behind the head nothing of the beginning is left, so there is no mark either. */
  lemma {:induction false} NoSpan(items: seq<Item>, head: int, tail: int)
    requires head <= 0 || tail <= 0
    requires tail <= 0 ==> head <= 0
    ensures !Spans(items, head, tail)
  {
    if items != [] {
      if items[0].Media? {
        NoSpan(items[1..], head, tail);
      } else {
        NoSpan(items[1..], head - |items[0].bytes|, tail - |items[0].bytes|);
      }
    }
  }

  lemma AppendSlices(b: seq<byte>, rest: seq<byte>, i: nat, j: nat)
    requires i <= |b| && j <= |rest|
    ensures (b + rest)[..i] == b[..i]
    ensures (b + rest)[i..] == b[i..] + rest
    ensures (b + rest)[..|b| + j] == b + rest[..j]
    ensures (b + rest)[|b| + j..] == rest[j..]
  {
  }

  function Gap(spans: bool): seq<byte> {
    if spans then Mark else []
  }

  /** In order: the beginning up to its cut, a mark when one text spans the gap, and the end. */
  predicate ClippedAs(items: seq<Item>, head: int, tail: int) {
    AllText(ClipItems(items, head, tail))
    == AllText(items)[..HeadCut(items, head)] + Gap(Spans(items, head, tail)) + AllText(items)[TailCut(items, tail)..]
  }

  lemma RestText(items: seq<Item>)
    requires TextItems(items) && items != []
    ensures TextItems(items[1..])
  {
    hide WellFormed;
  }

  lemma {:induction false} ClippedText(items: seq<Item>, head: int, tail: int)
    requires TextItems(items) && head < tail
    ensures ClippedAs(items, head, tail)
  {
    hide *;
    if items == [] {
      ClippedNone(head, tail);
    } else {
      var n := if items[0].Media? then 0 else |items[0].bytes|;
      RestText(items);
      ClippedText(items[1..], head - n, tail - n);
      if items[0].Media? {
        ClippedMedia(items, head, tail);
      } else {
        ClippedFirst(items, head, tail);
      }
    }
  }

  lemma ClippedNone(head: int, tail: int)
    ensures ClippedAs([], head, tail)
  {
  }

  lemma ClippedMedia(items: seq<Item>, head: int, tail: int)
    requires items != [] && items[0].Media? && ClippedAs(items[1..], head, tail)
    ensures ClippedAs(items, head, tail)
  {
    hide Clip, HeadPart, TailPart;
    assert AllText(items) == AllText(items[1..]);
    assert ([items[0]] + ClipItems(items[1..], head, tail))[1..] == ClipItems(items[1..], head, tail);
  }

  lemma FirstText(items: seq<Item>, head: int, tail: int)
    requires items != [] && items[0].Text?
    ensures AllText(ClipItems(items, head, tail))
         == Clip(items[0].bytes, head, tail) + AllText(ClipItems(items[1..], head - |items[0].bytes|, tail - |items[0].bytes|))
  {
    var b := items[0].bytes;
    var rest := ClipItems(items[1..], head - |b|, tail - |b|);
    if HeadPart(b, head) == [] && TailPart(b, tail) == [] {
      assert [] + rest == rest;
    } else {
      assert ([Text(Clip(b, head, tail))] + rest)[1..] == rest;
    }
  }

  lemma ClippedFirst(items: seq<Item>, head: int, tail: int)
    requires TextItems(items) && head < tail && items != [] && items[0].Text?
    requires ClippedAs(items[1..], head - |items[0].bytes|, tail - |items[0].bytes|)
    ensures ClippedAs(items, head, tail)
  {
    hide ClippedAs, ClipItems, AllText, HeadCut, TailCut, Spans, WellFormed;
    if head >= |items[0].bytes| { InBeginning(items, head, tail); }
    else if tail >= |items[0].bytes| { InGap(items, head, tail); }
    else { InEnd(items, head, tail); }
  }

  lemma ClipWhole(b: seq<byte>, head: int, tail: int)
    requires |b| <= head < tail
    ensures Clip(b, head, tail) == b && TailPart(b, tail) == []
  {
    TailNone(b, tail);
  }

  lemma ClipEnd(b: seq<byte>, head: int, tail: int)
    requires WellFormed(b) && head < tail < |b|
    ensures var h, t := FloorCut(b, Clamp(0, head, |b|)), CeilCut(b, Clamp(0, tail, |b|));
      && Clip(b, head, tail) == b[..h] + Gap(HeadPart(b, head) != [] && TailPart(b, tail) != []) + b[t..]
      && (head <= 0 ==> h == 0) && (tail <= 0 ==> t == 0)
  {
  }

  lemma GlueBeginning(b: seq<byte>, all: seq<byte>, h: nat, gap: seq<byte>, t: nat)
    requires h <= |all| && t <= |all|
    ensures b + (all[..h] + gap + all[t..]) == (b + all)[..|b| + h] + gap + (b + all)[|b| + t..]
  {
    AppendSlices(b, all, 0, h);
    AppendSlices(b, all, 0, t);
  }

  lemma GlueEnd(b: seq<byte>, all: seq<byte>, h: nat, gap: seq<byte>, t: nat)
    requires h <= |b| && t <= |b|
    ensures (b[..h] + gap + b[t..]) + (all[..0] + [] + all[0..]) == (b + all)[..h] + gap + (b + all)[t..]
  {
    AppendSlices(b, all, h, 0);
    AppendSlices(b, all, t, 0);
    assert all[..0] == [] && all[0..] == all;
  }

  /** The whole first text belongs to the beginning. */
  lemma InBeginning(items: seq<Item>, head: int, tail: int)
    requires head < tail && items != [] && items[0].Text? && head >= |items[0].bytes|
    requires ClippedAs(items[1..], head - |items[0].bytes|, tail - |items[0].bytes|)
    ensures ClippedAs(items, head, tail)
  {
    hide *;
    var b, rest := items[0].bytes, items[1..];
    ClipWhole(b, head, tail);
    BeginningCuts(items, head, tail);
    FirstText(items, head, tail);
    var h, t := HeadCut(rest, head - |b|), TailCut(rest, tail - |b|);
    GlueBeginning(b, AllText(rest), h, Gap(Spans(items, head, tail)), t);
    ClippedAsIs(rest, head - |b|, tail - |b|);
    ClippedAsIs(items, head, tail);
  }

  lemma ClippedAsIs(items: seq<Item>, head: int, tail: int)
    ensures ClippedAs(items, head, tail) <==>
      (AllText(ClipItems(items, head, tail))
       == AllText(items)[..HeadCut(items, head)] + Gap(Spans(items, head, tail)) + AllText(items)[TailCut(items, tail)..])
  {
    hide ClipItems, AllText, HeadCut, TailCut, Spans, Gap;
  }

  lemma BeginningCuts(items: seq<Item>, head: int, tail: int)
    requires head < tail && items != [] && items[0].Text? && head >= |items[0].bytes|
    ensures var n := |items[0].bytes|;
      && HeadCut(items, head) == n + HeadCut(items[1..], head - n)
      && TailCut(items, tail) == n + TailCut(items[1..], tail - n)
      && Spans(items, head, tail) == Spans(items[1..], head - n, tail - n)
      && AllText(items) == items[0].bytes + AllText(items[1..])
  {
    TailNone(items[0].bytes, tail);
    hide Clip, ClipItems, HeadPart, TailPart;
  }

  /** The beginning ends in the first text or before it, and the end starts behind it. */
  lemma InGap(items: seq<Item>, head: int, tail: int)
    requires head < tail && items != [] && items[0].Text? && head < |items[0].bytes| <= tail
    requires ClippedAs(items[1..], head - |items[0].bytes|, tail - |items[0].bytes|)
    ensures ClippedAs(items, head, tail)
  {
    hide *;
    var b, rest := items[0].bytes, items[1..];
    FirstText(items, head, tail);
    GapCuts(items, head, tail);
    var h, t := HeadCut(items, head), TailCut(rest, tail - |b|);
    AppendSlices(b, AllText(rest), h, t);
    ClippedAsIs(rest, head - |b|, tail - |b|);
    ClippedAsIs(items, head, tail);
    GlueGap(b[..h], AllText(rest), AllText(rest)[t..]);
  }

  lemma GlueGap(x: seq<byte>, all: seq<byte>, y: seq<byte>)
    ensures x + (all[..0] + [] + y) == x + [] + y
  {
  }

  lemma GapCuts(items: seq<Item>, head: int, tail: int)
    requires head < tail && items != [] && items[0].Text? && head < |items[0].bytes| <= tail
    ensures var b := items[0].bytes;
      && HeadCut(items, head) <= |b| && Clip(b, head, tail) == b[..HeadCut(items, head)]
      && TailCut(items, tail) == |b| + TailCut(items[1..], tail - |b|)
      && HeadCut(items[1..], head - |b|) == 0
      && Gap(Spans(items, head, tail)) == Gap(Spans(items[1..], head - |b|, tail - |b|)) == []
      && AllText(items) == b + AllText(items[1..])
  {
    var b := items[0].bytes;
    TailNone(b, tail);
    NoSpan(items[1..], head - |b|, tail - |b|);
    hide ClipItems;
  }

  /** The end starts in the first text or before it. */
  lemma InEnd(items: seq<Item>, head: int, tail: int)
    requires TextItems(items) && head < tail && items != [] && items[0].Text? && tail < |items[0].bytes|
    requires ClippedAs(items[1..], head - |items[0].bytes|, tail - |items[0].bytes|)
    ensures ClippedAs(items, head, tail)
  {
    hide *;
    var b, rest := items[0].bytes, items[1..];
    FirstText(items, head, tail);
    EndCuts(items, head, tail);
    ClippedAsIs(rest, head - |b|, tail - |b|);
    ClippedAsIs(items, head, tail);
    GlueEnd(b, AllText(rest), HeadCut(items, head), Gap(Spans(items, head, tail)), TailCut(items, tail));
  }

  lemma EndCuts(items: seq<Item>, head: int, tail: int)
    requires TextItems(items) && head < tail && items != [] && items[0].Text? && tail < |items[0].bytes|
    ensures var b := items[0].bytes; var h, t := HeadCut(items, head), TailCut(items, tail);
      && h <= |b| && t <= |b|
      && Clip(b, head, tail) == b[..h] + Gap(Spans(items, head, tail)) + b[t..]
      && HeadCut(items[1..], head - |b|) == 0 && TailCut(items[1..], tail - |b|) == 0
      && Gap(Spans(items[1..], head - |b|, tail - |b|)) == []
      && AllText(items) == b + AllText(items[1..])
  {
    var b := items[0].bytes;
    NoSpan(items[1..], head - |b|, tail - |b|);
    ClipEnd(b, head, tail);
    hide ClipItems, Clip, WellFormed;
  }

  // ---- the budget ----

  function Budget(maxTokens: nat): nat {
    if maxTokens * 4 < MAX_SAFE_INTEGER then maxTokens * 4 else MAX_SAFE_INTEGER
  }

  function HeadEnd(budget: nat): (h: nat)
    ensures budget <= 2 * h <= budget + 1
  {
    (budget + 1) / 2
  }

  function TailStart(items: seq<Item>, budget: nat): int {
    |AllText(items)| - budget / 2
  }

  /** `applyOutputBudget` for a valid budget: the items, and whether text was dropped. */
  function Apply(items: seq<Item>, maxTokens: Option<nat>): (seq<Item>, bool) {
    if maxTokens.None? || |AllText(items)| <= Budget(maxTokens.value) then (items, false)
    else
      var budget := Budget(maxTokens.value);
      (ClipItems(items, HeadEnd(budget), TailStart(items, budget)), true)
  }

  lemma {:induction false} MediaKept(items: seq<Item>, head: int, tail: int)
    ensures AllMedia(ClipItems(items, head, tail)) == AllMedia(items)
  {
    hide *;
    if items == [] {
      ClipNone(items, head, tail);
    } else {
      ClipFirst(items, head, tail);
      MediaFirst(items, items[0], items[1..]);
      if items[0].Media? {
        MediaKept(items[1..], head, tail);
        MediaFirst(ClipItems(items, head, tail), items[0], ClipItems(items[1..], head, tail));
      } else {
        var b := items[0].bytes;
        MediaKept(items[1..], head - |b|, tail - |b|);
        PushedNoMedia(b, head, tail, ClipItems(items[1..], head - |b|, tail - |b|));
      }
    }
  }

  lemma MediaFirst(items: seq<Item>, first: Item, rest: seq<Item>)
    requires items == [first] + rest
    ensures AllMedia(items) == (if first.Media? then [first.id] else []) + AllMedia(rest)
  {
    assert items[1..] == rest;
  }

  lemma PushedNoMedia(b: seq<byte>, head: int, tail: int, rest: seq<Item>)
    ensures AllMedia(Pushed(b, head, tail) + rest) == AllMedia(rest)
  {
    hide Clip, HeadPart, TailPart;
    assert [] + rest == rest;
    assert ([Text(Clip(b, head, tail))] + rest)[1..] == rest;
  }

  lemma ClipWellFormed(b: seq<byte>, head: int, tail: int)
    requires WellFormed(b)
    ensures WellFormed(Clip(b, head, tail))
  {
    hide *;
    PartsWellFormed(b, head, tail);
    MarkWellFormed();
    var h, t := HeadPart(b, head), TailPart(b, tail);
    Concat(h, Mark);
    Concat(h + Mark, t);
    Concat(h, t);
    ClipIs(b, head, tail);
  }

  lemma PartsWellFormed(b: seq<byte>, head: int, tail: int)
    requires WellFormed(b)
    ensures WellFormed(HeadPart(b, head)) && WellFormed(TailPart(b, tail))
  {
    CutsWellFormed(b, Clamp(0, head, |b|));
    CutsWellFormed(b, Clamp(0, tail, |b|));
    hide WellFormed, FloorCut, CeilCut;
  }

  lemma ClipIs(b: seq<byte>, head: int, tail: int)
    ensures Clip(b, head, tail) == HeadPart(b, head) + Mark + TailPart(b, tail)
         || Clip(b, head, tail) == HeadPart(b, head) + TailPart(b, tail)
  {
    hide HeadPart, TailPart;
    assert HeadPart(b, head) + [] + TailPart(b, tail) == HeadPart(b, head) + TailPart(b, tail);
  }

  lemma MarkWellFormed()
    ensures WellFormed(Mark)
  {
    assert Mark[1..] == [0xe2, 0x80, 0xa6, 0x0a] && Mark[1..][3..] == [0x0a];
    assert CharLength(Mark[1..]) == 3;
  }

  lemma {:induction false} ItemsWellFormed(items: seq<Item>, head: int, tail: int)
    requires TextItems(items)
    ensures TextItems(ClipItems(items, head, tail))
  {
    hide WellFormed, Clip, HeadPart, TailPart;
    if items != [] {
      RestText(items);
      var n := if items[0].Media? then 0 else |items[0].bytes|;
      ItemsWellFormed(items[1..], head - n, tail - n);
      if items[0].Text? { ClipWellFormed(items[0].bytes, head, tail); }
    }
  }

  lemma {:induction false} ClipConcat(a: seq<Item>, b: seq<Item>, head: int, tail: int)
    ensures ClipItems(a + b, head, tail) == ClipItems(a, head, tail) + ClipItems(b, head - |AllText(a)|, tail - |AllText(a)|)
  {
    hide Pushed;
    if a == [] {
      assert a + b == b;
    } else {
      var n := if a[0].Media? then 0 else |a[0].bytes|;
      assert (a + b)[1..] == a[1..] + b;
      ClipConcat(a[1..], b, head - n, tail - n);
      assert |AllText(a)| == n + |AllText(a[1..])|;
    }
  }

  lemma {:induction false} ClippedNonempty(items: seq<Item>, head: int, tail: int)
    ensures forall i :: 0 <= i < |ClipItems(items, head, tail)| && ClipItems(items, head, tail)[i].Text? ==>
      ClipItems(items, head, tail)[i].bytes != []
  {
    hide HeadPart, TailPart;
    if items != [] {
      var n := if items[0].Media? then 0 else |items[0].bytes|;
      ClippedNonempty(items[1..], head - n, tail - n);
    }
  }

  /** Clipping moves nothing: what came before a media item still does, what came behind it too, and no
      text is left empty. */
  lemma MediaStayBetween(before: seq<Item>, id: nat, behind: seq<Item>, maxTokens: nat)
    requires |AllText(before + [Media(id)] + behind)| > Budget(maxTokens)
    ensures var out := Apply(before + [Media(id)] + behind, Some(maxTokens)).0;
      exists a, b :: out == a + [Media(id)] + b && AllMedia(a) == AllMedia(before) && AllMedia(b) == AllMedia(behind)
        && (forall i :: 0 <= i < |out| && out[i].Text? ==> out[i].bytes != [])
  {
    var items := before + [Media(id)] + behind;
    var budget := Budget(maxTokens);
    var head, tail := HeadEnd(budget), TailStart(items, budget);
    ClippedNonempty(items, head, tail);
    ClipConcat(before + [Media(id)], behind, head, tail);
    ClipConcat(before, [Media(id)], head, tail);
    OnlyMedia(id, head - |AllText(before)|, tail - |AllText(before)|);
    var n := |AllText(before + [Media(id)])|;
    var a, b := ClipItems(before, head, tail), ClipItems(behind, head - n, tail - n);
    MediaKept(before, head, tail);
    MediaKept(behind, head - n, tail - n);
    hide ClipItems, AllMedia;
    assert Apply(items, Some(maxTokens)).0 == a + [Media(id)] + b;
  }

  lemma OnlyMedia(id: nat, head: int, tail: int)
    ensures ClipItems([Media(id)], head, tail) == [Media(id)]
  {
    assert ClipItems([], head, tail) == [];
  }

  /** Text that is dropped lies in one place; what stays is the beginning and the end, in order,
      each within three bytes of its half of the budget, with at most one mark between them. */
  lemma BudgetHolds(items: seq<Item>, maxTokens: nat)
    requires TextItems(items)
    ensures var (out, truncated) := Apply(items, Some(maxTokens));
      && truncated == (|AllText(items)| > Budget(maxTokens))
      && (!truncated ==> out == items)
      && AllMedia(out) == AllMedia(items) && TextItems(out)
      && |AllText(out)| <= 4 * maxTokens + |Mark|
    ensures |AllText(items)| > Budget(maxTokens) ==>
      var all, budget := AllText(items), Budget(maxTokens);
      var h, t := HeadCut(items, HeadEnd(budget)), TailCut(items, TailStart(items, budget));
      && HeadEnd(budget) - 3 <= h <= HeadEnd(budget)
      && TailStart(items, budget) <= t <= TailStart(items, budget) + 3
      && h <= t <= |all|
      && AllText(Apply(items, Some(maxTokens)).0) == all[..h] + Gap(Spans(items, HeadEnd(budget), TailStart(items, budget))) + all[t..]
  {
    var budget, all := Budget(maxTokens), AllText(items);
    if |all| > budget {
      var head, tail := HeadEnd(budget), TailStart(items, budget);
      hide AllText, AllMedia, ClipItems, HeadCut, TailCut, Spans, TextItems, ClippedAs;
      ClippedText(items, head, tail);
      ClippedAsIs(items, head, tail);
      HeadNear(items, head);
      TailNear(items, tail);
      MediaKept(items, head, tail);
      ItemsWellFormed(items, head, tail);
    }
  }

  // ---- the loops ----

  /** `utf8Slice`: both ends move inwards to character boundaries. */
  method Utf8Slice(bytes: seq<byte>, start: nat, end: nat) returns (r: seq<byte>)
    requires start <= end <= |bytes|
    ensures start == 0 && WellFormed(bytes) ==> r == bytes[..FloorCut(bytes, end)]
    ensures end == |bytes| ==> r == bytes[CeilCut(bytes, start)..]
  {
    var a, b := start, end;
    while a < b && Continuation(bytes[a])
      invariant start <= a <= b && CeilCut(bytes, a) == CeilCut(bytes, start)
      invariant start == 0 && WellFormed(bytes) ==> a == 0
    {
      a := a + 1;
    }
    while b > a && b < |bytes| && Continuation(bytes[b])
      invariant a <= b <= end && FloorCut(bytes, b) == FloorCut(bytes, end)
      invariant end == |bytes| ==> b == |bytes|
    {
      b := b - 1;
    }
    r := bytes[a..b];
    assert a == 0 ==> r == bytes[..b];
    assert b == |bytes| ==> r == bytes[a..];
  }

  method TotalText(items: seq<Item>) returns (total: nat)
    ensures total == |AllText(items)|
  {
    total := 0;
    var i := 0;
    assert items[0..] == items;
    while i < |items|
      invariant 0 <= i <= |items| && total + |AllText(items[i..])| == |AllText(items)|
    {
      assert items[i..][1..] == items[i + 1..];
      if items[i].Text? { total := total + |items[i].bytes|; }
      i := i + 1;
    }
  }

  method ApplyOutputBudget(items: seq<Item>, maxTokens: Option<nat>) returns (out: seq<Item>, truncated: bool)
    requires TextItems(items)
    ensures (out, truncated) == Apply(items, maxTokens)
  {
    hide AllText, ClipItems, HeadEnd, Budget;
    if maxTokens.None? { return items, false; }
    var total := TotalText(items);
    var budget := Budget(maxTokens.value);
    if total <= budget { return items, false; }
    var headEnd, tailStart := HeadEnd(budget), total - budget / 2;
    out := ClipEach(items, headEnd, tailStart);
    truncated := true;
  }

  method ClipEach(items: seq<Item>, headEnd: int, tailStart: int) returns (out: seq<Item>)
    requires TextItems(items)
    ensures out == ClipItems(items, headEnd, tailStart)
  {
    hide *;
    out := [];
    var position, left := 0, items;
    while left != []
      invariant TextItems(left)
      invariant out + ClipItems(left, headEnd - position, tailStart - position) == ClipItems(items, headEnd, tailStart)
      decreases |left|
    {
      var item := left[0];
      ClipFirst(left, headEnd - position, tailStart - position);
      RestText(left);
      TextAt(left, 0);
      left := left[1..];
      if item.Media? {
        Regroup(out, [item], ClipItems(left, headEnd - position, tailStart - position));
        out := out + [item];
      } else {
        var kept := ClipOne(item.bytes, headEnd - position, tailStart - position);
        position := position + |item.bytes|;
        Regroup(out, kept, ClipItems(left, headEnd - position, tailStart - position));
        out := out + kept;
      }
    }
    ClipNone(left, headEnd - position, tailStart - position);
    assert out + [] == out;
  }

  lemma Regroup(a: seq<Item>, b: seq<Item>, c: seq<Item>)
    ensures (a + b) + c == a + (b + c)
  {
  }

  lemma TextAt(items: seq<Item>, i: nat)
    requires TextItems(items) && i < |items|
    ensures items[i].Text? ==> WellFormed(items[i].bytes)
  {
  }

  lemma ClipNone(items: seq<Item>, head: int, tail: int)
    requires items == []
    ensures ClipItems(items, head, tail) == []
  {
  }

  lemma ClipFirst(items: seq<Item>, head: int, tail: int)
    requires items != []
    ensures items[0].Media? ==> ClipItems(items, head, tail) == [items[0]] + ClipItems(items[1..], head, tail)
    ensures items[0].Text? ==>
      var b := items[0].bytes;
      ClipItems(items, head, tail)
      == Pushed(b, head, tail) + ClipItems(items[1..], head - |b|, tail - |b|)
  {
    hide Clip, HeadPart, TailPart;
  }

  /** What the loop pushes for one text, if anything. */
  method ClipOne(b: seq<byte>, headEnd: int, tailStart: int) returns (kept: seq<Item>)
    requires WellFormed(b)
    ensures kept == Pushed(b, headEnd, tailStart)
  {
    hide WellFormed, FloorCut, CeilCut;
    var head := Utf8Slice(b, 0, Clamp(0, headEnd, |b|));
    var tail := Utf8Slice(b, Clamp(0, tailStart, |b|), |b|);
    if head == [] && tail == [] { return []; }
    if head != [] && tail != [] && |b| > headEnd && tailStart > 0 {
      kept := [Text(head + Mark + tail)];
    } else {
      assert head + tail == head + [] + tail;
      kept := [Text(head + tail)];
    }
  }
}
