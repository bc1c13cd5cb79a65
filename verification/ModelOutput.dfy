/** The transport guard for text that the model receives. Each text item counts with a separator. */
module ModelOutputs {
  import opened Utf8
  import opened OutputBudgets

  const MODEL_TEXT_BYTES: nat := 36_000

  function Bytes(s: string): (r: seq<byte>)
    ensures |r| == |s|
  {
    seq(|s|, i requires 0 <= i < |s| => if s[i] as int < 0x80 then s[i] as int else 0x3f)
  }

  /** A stand-in for the notice: only its 200 ASCII bytes matter. */
  function Notice(): (r: seq<byte>)
    ensures |r| == 200
  {
    seq(200, _ => 0x2e)
  }

  function Separated(content: seq<Item>): nat {
    if content == [] then 0
    else (if content[0].Text? then |content[0].bytes| + 2 else 0) + Separated(content[1..])
  }

  function TextsOf(content: seq<Item>): (r: seq<Item>)
    ensures forall i :: 0 <= i < |r| ==> r[i].Text?
  {
    if content == [] then []
    else (if content[0].Text? then [content[0]] else []) + TextsOf(content[1..])
  }

  function MediaOf(content: seq<Item>): (r: seq<Item>)
    ensures forall i :: 0 <= i < |r| ==> r[i].Media?
  {
    if content == [] then []
    else (if content[0].Media? then [content[0]] else []) + MediaOf(content[1..])
  }

  /** The texts joined by an empty line. */
  function Join(texts: seq<Item>): seq<byte>
    requires forall i :: 0 <= i < |texts| ==> texts[i].Text?
  {
    if texts == [] then []
    else if |texts| == 1 then texts[0].bytes
    else texts[0].bytes + [10, 10] + Join(texts[1..])
  }

  /** The first item is a short status line. */
  predicate HasStatus(content: seq<Item>) {
    && content != [] && content[0].Text?
    && (Bytes("Script ") <= content[0].bytes || Bytes("Tool ") <= content[0].bytes)
    && |content[0].bytes| < 4096
  }

  function Status(content: seq<Item>): (s: seq<byte>)
    ensures |s| < 4096
  {
    if HasStatus(content) then content[0].bytes else []
  }

  function Body(content: seq<Item>): seq<Item> {
    if HasStatus(content) then content[1..] else content
  }

  function Remaining(content: seq<Item>): (n: nat)
    ensures n == MODEL_TEXT_BYTES - |Status(content) + Notice()| - 32
  {
    MODEL_TEXT_BYTES - |Status(content) + Notice()| - 32
  }

  function Clipped(content: seq<Item>): seq<Item> {
    Apply([Text(Join(TextsOf(Body(content))))], Some(Remaining(content) / 4)).0
  }

  /** `boundModelOutput` on the content of a result. */
  function Bound(content: seq<Item>): seq<Item> {
    if Separated(content) <= MODEL_TEXT_BYTES then content
    else [Text(Status(content) + Notice() + [10])] + TextsOf(Clipped(content)) + MediaOf(Body(content))
  }

  // ---- sizes ----

  lemma {:induction false} SeparatedConcat(a: seq<Item>, b: seq<Item>)
    ensures Separated(a + b) == Separated(a) + Separated(b)
  {
    if a == [] {
      assert a + b == b;
    } else {
      assert (a + b)[1..] == a[1..] + b;
      SeparatedConcat(a[1..], b);
    }
  }

  lemma {:induction false} NoTextBytes(content: seq<Item>)
    requires forall i :: 0 <= i < |content| ==> content[i].Media?
    ensures Separated(content) == 0
  {
    if content != [] { NoTextBytes(content[1..]); }
  }

  lemma TextItem(bytes: seq<byte>)
    ensures Separated([Text(bytes)]) == |bytes| + 2
    ensures AllText([Text(bytes)]) == bytes
    ensures TextsOf([Text(bytes)]) == [Text(bytes)]
  {
    assert AllText([Text(bytes)]) == bytes + AllText([]);
    assert AllText([]) == [];
  }

  /** The fallback text stays one item, within its token budget. */
  lemma ClippedOne(bytes: seq<byte>, maxTokens: nat)
    requires WellFormed(bytes)
    ensures Separated(TextsOf(Apply([Text(bytes)], Some(maxTokens)).0)) <= 4 * maxTokens + |Mark| + 2
    ensures TextItems(TextsOf(Apply([Text(bytes)], Some(maxTokens)).0))
  {
    hide *;
    var out := Apply([Text(bytes)], Some(maxTokens)).0;
    SingleText(bytes);
    BudgetHolds([Text(bytes)], maxTokens);
    OneOrNone(bytes, maxTokens);
    if out != [] {
      TextItem(out[0].bytes);
    } else {
      NoTexts();
    }
  }

  lemma SingleText(bytes: seq<byte>)
    requires WellFormed(bytes)
    ensures TextItems([Text(bytes)])
  {
  }

  lemma NoTexts()
    ensures TextsOf([]) == [] && Separated([]) == 0 && TextItems([])
  {
  }

  lemma OneOrNone(bytes: seq<byte>, maxTokens: nat)
    ensures var out := Apply([Text(bytes)], Some(maxTokens)).0; out == [] || out == [Text(AllText(out))]
  {
    var out := Apply([Text(bytes)], Some(maxTokens)).0;
    var budget := Budget(maxTokens);
    var head, tail := HeadEnd(budget), TailStart([Text(bytes)], budget);
    TextItem(bytes);
    ClipFirst([Text(bytes)], head, tail);
    ClipNone([Text(bytes)][1..], head - |bytes|, tail - |bytes|);
    hide ClipItems, AllText, HeadEnd, Budget, Clip, HeadPart, TailPart;
    if out != [] {
      assert |out| == 1 && out[0].Text?;
      TextItem(out[0].bytes);
    }
  }

  lemma {:induction false} JoinWellFormed(texts: seq<Item>)
    requires TextItems(texts) && forall i :: 0 <= i < |texts| ==> texts[i].Text?
    ensures WellFormed(Join(texts))
  {
    if |texts| > 1 {
      TextAt(texts, 0);
      RestText(texts);
      JoinWellFormed(texts[1..]);
      assert WellFormed([10, 10]) by { assert [10, 10][1..] == [10]; }
      hide WellFormed, Join;
      Concat(texts[0].bytes, [10, 10]);
      Concat(texts[0].bytes + [10, 10], Join(texts[1..]));
      JoinStep(texts);
    }
  }

  lemma JoinStep(texts: seq<Item>)
    requires |texts| > 1 && forall i :: 0 <= i < |texts| ==> texts[i].Text?
    ensures Join(texts) == texts[0].bytes + [10, 10] + Join(texts[1..])
  {
  }

  lemma {:induction false} TextsWellFormed(content: seq<Item>)
    requires TextItems(content)
    ensures TextItems(TextsOf(content))
  {
    if content != [] {
      RestText(content);
      TextsWellFormed(content[1..]);
      hide WellFormed;
    }
  }

  lemma BodyWellFormed(content: seq<Item>)
    requires TextItems(content)
    ensures TextItems(Body(content))
  {
    if HasStatus(content) { RestText(content); }
  }

  lemma FallbackFits(content: seq<Item>)
    requires TextItems(content)
    ensures Separated(TextsOf(Clipped(content))) <= Remaining(content) + 7
  {
    hide *;
    BodyWellFormed(content);
    TextsWellFormed(Body(content));
    JoinWellFormed(TextsOf(Body(content)));
    ClippedOne(Join(TextsOf(Body(content))), Remaining(content) / 4);
    ClippedIs(content);
    MarkSize();
  }

  /** With its separators the text that reaches the model stays within 36,000 bytes. */
  lemma BoundFits(content: seq<Item>)
    requires TextItems(content)
    ensures Separated(Bound(content)) <= MODEL_TEXT_BYTES
  {
    hide *;
    BoundIs(content);
    if Separated(content) > MODEL_TEXT_BYTES {
      var line := Status(content) + Notice() + [10];
      var texts, media := TextsOf(Clipped(content)), MediaOf(Body(content));
      FallbackFits(content);
      SeparatedConcat([Text(line)], texts);
      SeparatedConcat([Text(line)] + texts, media);
      NoTextBytes(media);
      TextItem(line);
      assert |line| == |Status(content) + Notice()| + 1;
    }
  }

  lemma MarkSize()
    ensures |Mark| == 5 && MODEL_TEXT_BYTES == 36_000
  {
  }

  lemma ClippedIs(content: seq<Item>)
    ensures Clipped(content) == Apply([Text(Join(TextsOf(Body(content))))], Some(Remaining(content) / 4)).0
  {
  }

  lemma BoundIs(content: seq<Item>)
    ensures Separated(content) <= MODEL_TEXT_BYTES ==> Bound(content) == content
    ensures Separated(content) > MODEL_TEXT_BYTES ==>
      Bound(content) == [Text(Status(content) + Notice() + [10])] + TextsOf(Clipped(content)) + MediaOf(Body(content))
  {
    hide Separated, Clipped, TextsOf, MediaOf;
  }

  lemma {:induction false} MediaConcat(a: seq<Item>, b: seq<Item>)
    ensures AllMedia(a + b) == AllMedia(a) + AllMedia(b)
  {
    if a == [] {
      assert a + b == b;
    } else {
      hide *;
      MediaConcat(a[1..], b);
      MediaFirst(a, a[0], a[1..]);
      MediaFirst(a + b, a[0], a[1..] + b);
    }
  }

  lemma {:induction false} MediaOfAll(content: seq<Item>)
    ensures AllMedia(MediaOf(content)) == AllMedia(content)
    ensures AllMedia(TextsOf(content)) == []
  {
    if content != [] {
      MediaOfAll(content[1..]);
      var texts, media := TextsOf(content[1..]), MediaOf(content[1..]);
      assert [] + texts == texts && [] + media == media;
      if content[0].Media? {
        assert ([content[0]] + media)[1..] == media;
      } else {
        assert ([content[0]] + texts)[1..] == texts;
      }
    }
  }

  /** No media item is lost, added or moved past another. */
  lemma BoundKeepsMedia(content: seq<Item>)
    ensures AllMedia(Bound(content)) == AllMedia(content)
  {
    hide *;
    BoundIs(content);
    if Separated(content) > MODEL_TEXT_BYTES {
      var first, texts, media := [Text(Status(content) + Notice() + [10])], TextsOf(Clipped(content)), MediaOf(Body(content));
      MediaConcat(first, texts);
      MediaConcat(first + texts, media);
      MediaOfAll(Body(content));
      MediaOfAll(Clipped(content));
      TextHasNoMedia(Status(content) + Notice() + [10]);
      BodyMedia(content);
    }
  }

  lemma TextHasNoMedia(bytes: seq<byte>)
    ensures AllMedia([Text(bytes)]) == []
  {
  }

  lemma BodyMedia(content: seq<Item>)
    ensures AllMedia(Body(content)) == AllMedia(content)
  {
    if HasStatus(content) { assert [] + AllMedia(content[1..]) == AllMedia(content[1..]); }
  }

  // ---- what the model still sees ----

  lemma {:induction false} TextConcat(a: seq<Item>, b: seq<Item>)
    ensures AllText(a + b) == AllText(a) + AllText(b)
  {
    if a == [] {
      assert a + b == b;
    } else {
      hide *;
      TextConcat(a[1..], b);
      TextStep(a, a[0], a[1..]);
      TextStep(a + b, a[0], a[1..] + b);
    }
  }

  lemma TextStep(items: seq<Item>, first: Item, rest: seq<Item>)
    requires items == [first] + rest
    ensures AllText(items) == (if first.Text? then first.bytes else []) + AllText(rest)
  {
    assert items[1..] == rest;
  }

  lemma {:induction false} MediaHaveNoText(content: seq<Item>)
    ensures AllText(MediaOf(content)) == [] && AllText(TextsOf(content)) == AllText(content)
  {
    if content != [] {
      hide *;
      MediaHaveNoText(content[1..]);
      OfFirst(content);
      TextStep(content, content[0], content[1..]);
      if content[0].Media? {
        TextStep(MediaOf(content), content[0], MediaOf(content[1..]));
      } else {
        TextStep(TextsOf(content), content[0], TextsOf(content[1..]));
      }
    } else {
      OfNone(content);
    }
  }

  lemma OfNone(content: seq<Item>)
    requires content == []
    ensures AllText(MediaOf(content)) == [] && AllText(TextsOf(content)) == AllText(content)
  {
  }

  lemma OfFirst(content: seq<Item>)
    requires content != []
    ensures content[0].Media? ==> MediaOf(content) == [content[0]] + MediaOf(content[1..]) && TextsOf(content) == TextsOf(content[1..])
    ensures content[0].Text? ==> TextsOf(content) == [content[0]] + TextsOf(content[1..]) && MediaOf(content) == MediaOf(content[1..])
  {
    assert [] + MediaOf(content[1..]) == MediaOf(content[1..]) && [] + TextsOf(content[1..]) == TextsOf(content[1..]);
  }

  /** The item is a status line: it says how the script or the tool stands, in less than 4096 bytes. */
  predicate IsStatus(item: Item) {
    && item.Text? && |item.bytes| < 4096
    && ([83, 99, 114, 105, 112, 116, 32] <= item.bytes || [84, 111, 111, 108, 32] <= item.bytes)
  }

  /** The line, and then the text, or its beginning and its end with a short mark between them. */
  ghost predicate KeepsEnds(shown: seq<byte>, line: seq<byte>, text: seq<byte>, budget: nat) {
    if |text| <= budget then shown == line + text
    else exists h: nat, t: nat, gap: seq<byte> :: EndsAt(shown, line, text, budget, h, t, gap)
  }

  predicate EndsAt(shown: seq<byte>, line: seq<byte>, text: seq<byte>, budget: nat, h: nat, t: nat, gap: seq<byte>) {
    && budget / 2 - 3 <= h <= t <= |text| && budget / 2 - 3 <= |text| - t && |gap| <= |Mark|
    && shown == line + (text[..h] + gap + text[t..])
  }

  lemma EndsAre(shown: seq<byte>, line: seq<byte>, text: seq<byte>, budget: nat, kept: seq<byte>)
    requires shown == line + kept
    requires |text| <= budget ==> kept == text
    requires |text| > budget ==> exists h: nat, t: nat, gap: seq<byte> ::
      budget / 2 - 3 <= h <= t <= |text| && budget / 2 - 3 <= |text| - t && |gap| <= |Mark| && kept == text[..h] + gap + text[t..]
    ensures KeepsEnds(shown, line, text, budget)
  {
    if |text| > budget {
      var h: nat, t: nat, gap: seq<byte> :|
        budget / 2 - 3 <= h <= t <= |text| && budget / 2 - 3 <= |text| - t && |gap| <= |Mark| && kept == text[..h] + gap + text[t..];
      assert EndsAt(shown, line, text, budget, h, t, gap);
    }
  }

  predicate StartsWithStatus(content: seq<Item>) {
    content != [] && IsStatus(content[0])
  }

  lemma StatusExactly(content: seq<Item>)
    ensures StartsWithStatus(content) ==> Status(content) == content[0].bytes && Body(content) == content[1..]
    ensures !StartsWithStatus(content) ==> Status(content) == [] && Body(content) == content
  {
    assert Bytes("Script ") == [83, 99, 114, 105, 112, 116, 32];
    assert Bytes("Tool ") == [84, 111, 111, 108, 32];
  }

  /** A text that is too long is shown as its status, the notice, and then the beginning and the
      end of all other text, each at least half of what is left less five bytes. */
  lemma BoundKeepsEnds(content: seq<Item>)
    requires TextItems(content) && Separated(content) > MODEL_TEXT_BYTES
    ensures var (status, rest) := if StartsWithStatus(content) then (content[0].bytes, content[1..]) else ([], content);
      KeepsEnds(AllText(Bound(content)), status + Notice() + [10], Join(TextsOf(rest)), (36_000 - |status| - 200 - 32) / 4 * 4)
  {
    hide *;
    StatusExactly(content);
    BudgetIs(content);
    EndsKeptBehindStatus(content);
  }

  lemma BudgetIs(content: seq<Item>)
    ensures Budget(Remaining(content) / 4) == (36_000 - |Status(content)| - 200 - 32) / 4 * 4
    ensures MODEL_TEXT_BYTES == 36_000
  {
    hide Status;
  }

  lemma EndsKeptBehindStatus(content: seq<Item>)
    requires TextItems(content) && Separated(content) > MODEL_TEXT_BYTES
    ensures KeepsEnds(AllText(Bound(content)), Status(content) + Notice() + [10], Join(TextsOf(Body(content))),
                      Budget(Remaining(content) / 4))
  {
    hide *;
    var text := Join(TextsOf(Body(content)));
    var line := Status(content) + Notice() + [10];
    var tokens := Remaining(content) / 4;
    BoundIs(content);
    ClippedIs(content);
    BodyWellFormed(content);
    TextsWellFormed(Body(content));
    JoinWellFormed(TextsOf(Body(content)));
    SingleText(text);
    TextItem(text);
    TextItem(line);
    TextConcat([Text(line)], TextsOf(Clipped(content)));
    TextConcat([Text(line)] + TextsOf(Clipped(content)), MediaOf(Body(content)));
    MediaHaveNoText(Body(content));
    MediaHaveNoText(Clipped(content));
    BudgetHolds([Text(text)], tokens);
    assert AllText(Bound(content)) == line + AllText(Clipped(content));
    if |text| > Budget(tokens) { EndsKept(text, tokens); }
    EndsAre(AllText(Bound(content)), line, text, Budget(tokens), AllText(Clipped(content)));
  }

  lemma EndsKept(text: seq<byte>, tokens: nat)
    requires TextItems([Text(text)]) && AllText([Text(text)]) == text && |text| > Budget(tokens)
    ensures var budget := Budget(tokens);
      exists h: nat, t: nat, gap: seq<byte> ::
        && budget / 2 - 3 <= h <= t <= |text| && budget / 2 - 3 <= |text| - t && |gap| <= |Mark|
        && AllText(Apply([Text(text)], Some(tokens)).0) == text[..h] + gap + text[t..]
  {
    hide AllText, Apply, HeadCut, TailCut, Spans, Budget, TextItems;
    BudgetHolds([Text(text)], tokens);
    var budget := Budget(tokens);
    var h, t := HeadCut([Text(text)], HeadEnd(budget)), TailCut([Text(text)], TailStart([Text(text)], budget));
    var gap := Gap(Spans([Text(text)], HeadEnd(budget), TailStart([Text(text)], budget)));
    assert AllText(Apply([Text(text)], Some(tokens)).0) == text[..h] + gap + text[t..];
    assert budget / 2 - 3 <= h <= t <= |text| && budget / 2 - 3 <= |text| - t && |gap| <= |Mark|;
  }
}
