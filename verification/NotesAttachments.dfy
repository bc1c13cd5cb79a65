/** What a tool result takes along: which notes, in what form, and what is recorded of it. */
module NotesAttachments {
  import opened Jsons
  import opened JsonTexts
  import opened NotesResponses
  import opened NotesStates
  import opened NotesRetries
  import opened NotesLaws

  function Select<T>(xs: seq<T>, keep: T -> bool): seq<T> {
    if xs == [] then [] else (if keep(xs[0]) then [xs[0]] else []) + Select(xs[1..], keep)
  }

  lemma {:induction false} SelectMore<T>(xs: seq<T>, x: T, keep: T -> bool)
    ensures Select(xs + [x], keep) == Select(xs, keep) + if keep(x) then [x] else []
  {
    if xs == [] {
      assert [x][1..] == [];
    } else {
      SelectMore(xs[1..], x, keep);
      assert (xs + [x])[1..] == xs[1..] + [x];
    }
  }

  lemma {:induction false} SelectPicks<T(!new)>(xs: seq<T>, keep: T -> bool) returns (p: seq<nat>)
    ensures PickedAt(xs, Select(xs, keep), keep, p)
  {
    if xs == [] {
      p := [];
    } else {
      var n := |xs| - 1;
      p := SelectPicks(xs[..n], keep);
      assert xs[..n] + [xs[n]] == xs;
      SelectMore(xs[..n], xs[n], keep);
      hide PickedAt, Select;
      PickedMore(xs[..n], xs[n], Select(xs[..n], keep), keep, p);
      assert Select(xs[..n], keep) + [] == Select(xs[..n], keep);
      if keep(xs[n]) { p := p + [n]; }
    }
  }

  predicate IsPending(n: Note) { n.status == Pending }

  /** A text item that does not repeat the structured content. */
  predicate IsPlain(item: Item) { item.TextItem? && !item.mirror }

  predicate IsMedia(item: Item) { item.Media? }

  lemma {:induction false} WaitingSelects(notes: seq<Note>)
    ensures Waiting(notes) == Select(notes, IsPending)
  {
    if notes != [] { WaitingSelects(notes[1..]); }
  }

  lemma {:induction false} TextsSelect(content: seq<Item>)
    ensures Texts(WithoutMirrors(content)) == Select(content, IsPlain)
  {
    if content != [] {
      TextsSelect(content[1..]);
      var rest := WithoutMirrors(content[1..]);
      assert ([content[0]] + rest)[1..] == rest && [] + rest == rest;
    }
  }

  lemma {:induction false} OthersSelect(content: seq<Item>)
    ensures Others(WithoutMirrors(content)) == Select(content, IsMedia)
  {
    if content != [] {
      OthersSelect(content[1..]);
      var rest := WithoutMirrors(content[1..]);
      assert ([content[0]] + rest)[1..] == rest && [] + rest == rest;
    }
  }

  /** The fields of a structured response: the result, its plain texts if it has any, and the notes. */
  predicate Envelope(fields: seq<Field>, value: Json, plain: seq<Item>, texts: seq<Text>) {
    && |fields| == (if plain == [] then 2 else 3)
    && fields[0] == Field(Ascii("result"), value)
    && (plain != [] ==> fields[1] == Field(Ascii("result_content"), Arr(ItemsJson(plain))))
    && fields[|fields| - 1].name == Ascii("user_notes") && fields[|fields| - 1].value.Arr?
    && var items := fields[|fields| - 1].value.items;
    && |items| == |texts| && forall j :: 0 <= j < |texts| ==> items[j] == Str(texts[j])
  }

  /** The response is the result with these notes: in its structured content, with the media beside
      it; or as text items behind its content, with the reminder at the end. */
  ghost predicate Carries(result: Response, out: Response, texts: seq<Text>, reminded: bool) {
    && out.rest == result.rest
    && if result.structured.Some? then
         && !reminded && Picked(result.content, out.content, IsMedia)
         && out.structured.Some? && out.structured.value.Obj?
         && exists plain :: Picked(result.content, plain, IsPlain) && Envelope(out.structured.value.fields, result.structured.value, plain, texts)
       else
         && out.structured.None? && |out.content| == |result.content| + |texts| + (if reminded then 1 else 0)
         && out.content[..|result.content|] == result.content
         && (forall j :: 0 <= j < |texts| ==> out.content[|result.content| + j] == TextItem(USER_NOTE_TEXT_PREFIX + texts[j], [], false))
         && (reminded ==> out.content[|out.content| - 1] == TextItem(TitleReminder(), [], false))
  }

  lemma BuildCarries(result: Response, texts: seq<Text>)
    ensures Carries(result, Build(result, texts), texts, false)
  {
    if result.structured.Some? {
      TextsSelect(result.content);
      OthersSelect(result.content);
      var p := SelectPicks(result.content, IsPlain);
      var q := SelectPicks(result.content, IsMedia);
      hide Select, PickedAt, Texts, Others, WithoutMirrors, ItemsJson;
      var plain := Select(result.content, IsPlain);
      assert Picked(result.content, plain, IsPlain);
      assert Envelope(Build(result, texts).structured.value.fields, result.structured.value, plain, texts);
    }
  }

  /** A conversation without a name gets the reminder if it fits. */
  predicate Reminds(c: Conversation, result: Response, texts: seq<Text>) {
    result.structured.None? && c.name == [] && !c.titled && ModelTextBytes(Build(result, texts)) + 107 <= 37_000
  }

  lemma DeliverIs(c: Conversation, result: Response, k: nat)
    requires k <= |Waiting(c.notes)|
    ensures var texts := TextsOf(Waiting(c.notes))[..k];
      Deliver(c, result, k) == if Reminds(c, result, texts) then Remind(Build(result, texts)) else Build(result, texts)
  {
    ReminderBytes();
    hide Build, ModelTextBytes, Utf8, TitleReminder, Waiting, Remind;
  }

  lemma RemindCarries(result: Response, built: Response, texts: seq<Text>)
    requires Carries(result, built, texts, false) && result.structured.None?
    ensures Carries(result, Remind(built), texts, true)
  {
    hide TitleReminder;
    assert Remind(built).content[..|result.content|] == built.content[..|result.content|];
  }

  lemma DeliverCarries(c: Conversation, result: Response, k: nat)
    requires k <= |Waiting(c.notes)|
    ensures var texts := TextsOf(Waiting(c.notes))[..k]; Carries(result, Deliver(c, result, k), texts, Reminds(c, result, texts))
  {
    var texts := TextsOf(Waiting(c.notes))[..k];
    BuildCarries(result, texts);
    DeliverIs(c, result, k);
    hide Build, ModelTextBytes, Waiting, Carries, Remind, Deliver;
    if Reminds(c, result, texts) { RemindCarries(result, Build(result, texts), texts); }
  }

  lemma ReminderBytes()
    ensures Utf8(TitleReminder()) == 105
  {
    AsciiUnits(TitleReminder());
    assert Measure(TitleReminder(), Bytes) == 105;
    hide Utf8;
  }

  /** The first `k` waiting notes are attached, and nothing else about the notes changes. */
  predicate Delivered(notes: seq<Note>, after: seq<Note>, k: nat) {
    && |after| == |notes|
    && forall j :: 0 <= j < |notes| ==>
         after[j] == if IsPending(notes[j]) && PendingBefore(notes, j) < k then notes[j].(status := Attached) else notes[j]
  }

  lemma MarkedDelivered(notes: seq<Note>, k: nat)
    ensures Delivered(notes, Marked(notes, k), k)
  {
    hide Marked, PendingBefore, Waiting;
    forall j | 0 <= j < |notes|
      ensures Marked(notes, k)[j] == if IsPending(notes[j]) && PendingBefore(notes, j) < k then notes[j].(status := Attached) else notes[j]
    {
      MarkedExactly(notes, k, j);
    }
  }

  /** Delivered are the first notes that fit, all of them unless the whole response becomes too large;
      the response is then `out` and exactly these notes are attached. */
  ghost predicate Attaches(t: Store, r: Store, result: Response, response: Response, marks: seq<Mark>, i: nat, k: nat, waiting: seq<Note>, out: Response)
    requires i < |t.conversations|
  {
    var c := t.conversations[i];
    && Picked(c.notes, waiting, IsPending) && LongestFit(result, TextsOf(waiting), k)
    && Carries(result, out, TextsOf(waiting)[..k], Reminds(c, result, TextsOf(waiting)[..k]))
    && if k == 0 || PayloadBytes(out) > 50_331_648 then r == t && response == result && marks == []
       else
         && response == out && |marks| == k && (forall j :: 0 <= j < k ==> marks[j] == Mark(c.birth, waiting[j]))
         && |r.conversations| == |t.conversations|
         && var after := r.conversations[i].notes;
         && r == t.(conversations := t.conversations[i := c.(notes := after)]) && Delivered(c.notes, after, k)
  }

  lemma AttachesFrom(t: Store, i: nat, result: Response, waiting: seq<Note>, k: nat, out: Response, after: seq<Note>)
    requires i < |t.conversations|
    requires Picked(t.conversations[i].notes, waiting, IsPending) && LongestFit(result, TextsOf(waiting), k)
    requires Carries(result, out, TextsOf(waiting)[..k], Reminds(t.conversations[i], result, TextsOf(waiting)[..k]))
    requires Delivered(t.conversations[i].notes, after, k)
    ensures k == 0 || PayloadBytes(out) > MAX_PAYLOAD_BYTES ==> Attaches(t, t, result, result, [], i, k, waiting, out)
    ensures k > 0 && PayloadBytes(out) <= MAX_PAYLOAD_BYTES ==>
      Attaches(t, Put(t, i, t.conversations[i].(notes := after), 0), result, out, MarksOf(t.conversations[i].birth, waiting[..k]), i, k, waiting, out)
  {
    hide Picked, Carries, Reminds, Delivered, PayloadBytes, Carrying;
  }

  lemma AttachIn(t: Store, i: nat, result: Response)
    requires i < |t.conversations|
    ensures var c := t.conversations[i]; var waiting := Waiting(c.notes); var k := Delivery(result, TextsOf(waiting));
      var out := Deliver(c, result, k);
      && (k == 0 || PayloadBytes(out) > MAX_PAYLOAD_BYTES ==> Attaches(t, t, result, result, [], i, k, waiting, out))
      && (k > 0 && PayloadBytes(out) <= MAX_PAYLOAD_BYTES ==>
            Attaches(t, Put(t, i, c.(notes := Marked(c.notes, k)), 0), result, out, MarksOf(c.birth, waiting[..k]), i, k, waiting, out))
  {
    hide *;
    var c := t.conversations[i];
    var waiting := WaitingPicked(c.notes);
    var k := Delivery(result, TextsOf(waiting));
    DeliveryFits(result, TextsOf(waiting));
    DeliverCarries(c, result, k);
    MarkedDelivered(c.notes, k);
    AttachesFrom(t, i, result, waiting, k, Deliver(c, result, k), Marked(c.notes, k));
  }

  lemma WaitingPicked(notes: seq<Note>) returns (waiting: seq<Note>)
    ensures waiting == Waiting(notes) && Picked(notes, waiting, IsPending)
  {
    waiting := Waiting(notes);
    WaitingSelects(notes);
    var p := SelectPicks(notes, IsPending);
  }

  lemma AttachIs(s: Store, result: Response, id: Text, aborted: bool, now: int)
    ensures var t := Sweep(s, now); var found := Find(t.conversations, id);
      Attach(s, result, id, aborted, now) ==
        if id == [] || aborted then (s, result, [])
        else if found.None? then (t, result, [])
        else
          var c := t.conversations[found.value]; var k := Delivery(result, TextsOf(Waiting(c.notes))); var out := Deliver(c, result, k);
          if k == 0 || PayloadBytes(out) > MAX_PAYLOAD_BYTES then (t, result, [])
          else (Put(t, found.value, c.(notes := Marked(c.notes, k)), 0), out, MarksOf(c.birth, Waiting(c.notes)[..k]))
  {
    hide Sweep, Waiting, Delivery, Deliver, PayloadBytes, Marked;
  }

  /** A tool result takes along the user's notes: which ones, in what form, and what is recorded. */
  lemma AttachExactly(s: Store, result: Response, id: Text, aborted: bool, now: int)
    returns (i: nat, k: nat, waiting: seq<Note>, out: Response)
    ensures var t := Sweep(s, now); var (r, response, marks) := Attach(s, result, id, aborted, now);
      if id == [] || aborted then r == s && response == result && marks == []
      else if !Known(t, id) then r == t && response == result && marks == []
      else i < |t.conversations| && t.conversations[i].id == id && Attaches(t, r, result, response, marks, i, k, waiting, out)
  {
    hide *;
    var t := Sweep(s, now);
    AttachIs(s, result, id, aborted, now);
    KnownIs(t, id);
    i, k, waiting, out := 0, 0, [], result;
    if Known(t, id) {
      i := Find(t.conversations, id).value;
      AttachIn(t, i, result);
      waiting := Waiting(t.conversations[i].notes);
      k := Delivery(result, TextsOf(waiting));
      out := Deliver(t.conversations[i], result, k);
    }
  }

  // ---- how a response is measured ----

  /** The texts that the model receives: the structured content as JSON, and every text item. */
  function Received(r: Response): seq<Text> {
    (if r.structured.Some? then [Stringify(r.structured.value)] else []) + ItemTexts(r.content)
  }

  function ItemTexts(content: seq<Item>): seq<Text> {
    if content == [] then []
    else ItemTexts(content[..|content| - 1]) + if content[|content| - 1].TextItem? then [content[|content| - 1].text] else []
  }

  /** Each text with two bytes for its separator. */
  function Separated(texts: seq<Text>): nat {
    if texts == [] then 0 else Separated(texts[..|texts| - 1]) + Utf8(texts[|texts| - 1]) + 2
  }

  lemma SeparatedMore(texts: seq<Text>, t: Text)
    ensures Separated(texts + [t]) == Separated(texts) + Utf8(t) + 2
  {
    hide Utf8;
    assert (texts + [t])[..|texts|] == texts;
  }

  lemma {:induction false} ItemsSeparated(first: seq<Text>, content: seq<Item>)
    ensures Separated(first + ItemTexts(content)) == Separated(first) + TextBytes(content)
  {
    hide Utf8;
    if content == [] {
      assert first + [] == first;
    } else {
      var n := |content| - 1;
      var before := first + ItemTexts(content[..n]);
      ItemsSeparated(first, content[..n]);
      if content[n].TextItem? {
        assert first + (ItemTexts(content[..n]) + [content[n].text]) == before + [content[n].text];
        SeparatedMore(before, content[n].text);
      } else {
        assert ItemTexts(content[..n]) + [] == ItemTexts(content[..n]);
      }
    }
  }

  lemma ModelBytesAre(r: Response)
    ensures ModelTextBytes(r) == Separated(Received(r))
  {
    var first := if r.structured.Some? then [Stringify(r.structured.value)] else [];
    ItemsSeparated(first, r.content);
    assert Separated([]) == 0;
    if r.structured.Some? {
      var text := Stringify(r.structured.value);
      SizeIsLength(r.structured.value);
      assert Measure(text, Bytes) == Size(r.structured.value, Bytes);
      SeparatedMore([], text);
      assert [] + [text] == [text];
    }
    hide Utf8, Size, Stringify, ItemTexts, TextBytes, Separated;
  }

  predicate TellsItem(j: Json, item: Item) {
    match item
    case Media(json) => j == json
    case TextItem(text, extra, _) =>
      j.Obj? && |j.fields| == 2 + |extra| && Holds(j, "type", Str(Ascii("text"))) && Holds(j, "text", Str(text)) && j.fields[2..] == extra
  }

  /** The JSON of a response: its structured content if there is one, its items, and the rest. */
  ghost predicate TellsResponse(j: Json, r: Response) {
    var n := if r.structured.Some? then 1 else 0;
    && j.Obj? && |j.fields| == n + 1 + |r.rest| && j.fields[n + 1..] == r.rest
    && (r.structured.Some? ==> Holds(j, "structuredContent", r.structured.value))
    && exists items :: Holds(j, "content", Arr(items)) && |items| == |r.content|
         && forall k :: 0 <= k < |items| ==> TellsItem(items[k], r.content[k])
  }

  lemma ItemTold(item: Item)
    ensures TellsItem(ItemJson(item), item)
  {
    if item.TextItem? {
      hide Ascii;
      var f := ItemJson(item).fields;
      assert f[0].name == Ascii("type") && f[1].name == Ascii("text");
    }
  }

  /** The payload limit is on the bytes of the response's JSON text. */
  lemma PayloadIs(r: Response) returns (j: Json)
    ensures TellsResponse(j, r) && PayloadBytes(r) == Utf8(Stringify(j))
  {
    var items := ItemsJson(r.content);
    forall k | 0 <= k < |items| ensures TellsItem(items[k], r.content[k]) { ItemTold(r.content[k]); }
    j := Obj((if r.structured.Some? then [Field(Ascii("structuredContent"), r.structured.value)] else [])
             + [Field(Ascii("content"), Arr(items))] + r.rest);
    SizeIsLength(j);
    assert Measure(Stringify(j), Bytes) == Size(j, Bytes);
    hide Ascii, Utf8, Size, Stringify, TellsItem;
    var n := if r.structured.Some? then 1 else 0;
    assert j.fields[n] == Field(Ascii("content"), Arr(items));
    if r.structured.Some? { assert j.fields[0] == Field(Ascii("structuredContent"), r.structured.value); }
    assert Holds(j, "content", Arr(items));
  }
}
