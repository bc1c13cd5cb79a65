/** How user notes ride on a tool result: the envelope, its size for the model, and the longest
    run of notes that still fits. */
module NotesResponses {
  import opened Jsons

  const NOTES_RESPONSE_BYTES: nat := 37_000
  const MAX_PAYLOAD_BYTES: nat := 48 * 1024 * 1024

  /** The label in front of a note: seven CJK characters and a line feed. */
  const USER_NOTE_TEXT_PREFIX: Text := [0x7528, 0x6237, 0x989d, 0x5916, 0x8865, 0x5145, 0xff1a, 10]

  /** A stand-in for the reminder: only its 105 ASCII characters matter. */
  function TitleReminder(): Text {
    seq(105, _ => 0x2e)
  }

  /** `mirror` marks a plain text item that repeats the structured content as JSON. */
  datatype Item =
    | TextItem(text: Text, extra: seq<Field>, mirror: bool)
    | Media(json: Json)

  datatype Response = Response(structured: Option<Json>, content: seq<Item>, rest: seq<Field>)

  function ItemJson(item: Item): Json {
    match item
    case TextItem(text, extra, _) => Obj([Field(Ascii("type"), Str(Ascii("text"))), Field(Ascii("text"), Str(text))] + extra)
    case Media(json) => json
  }

  /** `modelTextBytes`: the structured content and every text item, each with its separator. */
  function ModelTextBytes(r: Response): nat {
    (if r.structured.Some? then Size(r.structured.value, Bytes) + 2 else 0) + TextBytes(r.content)
  }

  function TextBytes(content: seq<Item>): nat {
    if content == [] then 0
    else TextBytes(content[..|content| - 1]) + ItemBytes(content[|content| - 1])
  }

  function ItemBytes(item: Item): nat {
    if item.TextItem? then Utf8(item.text) + 2 else 0
  }

  function PayloadBytes(r: Response): nat {
    Size(Obj((if r.structured.Some? then [Field(Ascii("structuredContent"), r.structured.value)] else [])
             + [Field(Ascii("content"), Arr(ItemsJson(r.content)))] + r.rest), Bytes)
  }

  function ItemsJson(content: seq<Item>): (r: seq<Json>)
    ensures |r| == |content|
  {
    seq(|content|, i requires 0 <= i < |content| => ItemJson(content[i]))
  }

  // ---- the response that carries notes ----

  function Texts(content: seq<Item>): seq<Item> {
    if content == [] then []
    else (if content[0].TextItem? then [content[0]] else []) + Texts(content[1..])
  }

  function Others(content: seq<Item>): (r: seq<Item>)
    ensures forall i :: 0 <= i < |r| ==> r[i].Media?
  {
    if content == [] then []
    else (if content[0].TextItem? then [] else [content[0]]) + Others(content[1..])
  }

  function WithoutMirrors(content: seq<Item>): seq<Item> {
    if content == [] then []
    else (if content[0].TextItem? && content[0].mirror then [] else [content[0]]) + WithoutMirrors(content[1..])
  }

  function NotesJson(notes: seq<Text>): (r: seq<Json>)
    ensures |r| == |notes|
  {
    seq(|notes|, i requires 0 <= i < |notes| => Str(notes[i]))
  }

  function NoteItem(note: Text): Item {
    TextItem(USER_NOTE_TEXT_PREFIX + note, [], false)
  }

  function NoteItems(notes: seq<Text>): (r: seq<Item>)
    ensures |r| == |notes|
  {
    seq(|notes|, i requires 0 <= i < |notes| => NoteItem(notes[i]))
  }

  /** The structured envelope before its notes. */
  function Wrapped(result: Response): seq<Field>
    requires result.structured.Some?
  {
    var texts := Texts(WithoutMirrors(result.content));
    [Field(Ascii("result"), result.structured.value)]
    + (if texts == [] then [] else [Field(Ascii("result_content"), Arr(ItemsJson(texts)))])
  }

  /** The result with these notes: inside the structured envelope, or as text items at the end. */
  function Build(result: Response, notes: seq<Text>): Response {
    if result.structured.Some? then
      Response(
        Some(Obj(Wrapped(result) + [Field(Ascii("user_notes"), Arr(NotesJson(notes)))])),
        Others(WithoutMirrors(result.content)),
        result.rest)
    else result.(content := result.content + NoteItems(notes))
  }

  function Remind(r: Response): Response {
    r.(content := r.content + [TextItem(TitleReminder(), [], false)])
  }

  /** The bytes by which one more note lengthens the response, a comma before it included. */
  function Cost(note: Text, structured: bool, taken: nat): nat {
    if structured then Quoted(note, Bytes) + (if taken > 0 then 1 else 0)
    else Utf8(USER_NOTE_TEXT_PREFIX + note) + 2
  }

  /** How many of the waiting notes go out: the queue stops at the first that does not fit. */
  function Chosen(waiting: seq<Text>, structured: bool, remaining: int, taken: nat): (k: nat)
    ensures k <= |waiting|
    decreases |waiting|
  {
    if waiting == [] || Cost(waiting[0], structured, taken) > remaining then 0
    else 1 + Chosen(waiting[1..], structured, remaining - Cost(waiting[0], structured, taken), taken + 1)
  }

  // ---- the tracked space is the real space ----

  lemma TextBytesAppend(content: seq<Item>, item: Item)
    ensures TextBytes(content + [item]) == TextBytes(content) + ItemBytes(item)
  {
    var more := content + [item];
    assert more[..|more| - 1] == content;
  }

  lemma {:induction false} NoTextInOthers(content: seq<Item>)
    requires forall i :: 0 <= i < |content| ==> content[i].Media?
    ensures TextBytes(content) == 0
  {
    if content != [] { NoTextInOthers(content[..|content| - 1]); }
  }

  /** One more note costs exactly what the queue subtracts for it. */
  lemma BuildCost(result: Response, notes: seq<Text>, note: Text)
    ensures ModelTextBytes(Build(result, notes + [note]))
         == ModelTextBytes(Build(result, notes)) + Cost(note, result.structured.Some?, |notes|)
  {
    if result.structured.Some? {
      var a, b := Arr(NotesJson(notes)), Arr(NotesJson(notes + [note]));
      assert NotesJson(notes + [note]) == NotesJson(notes) + [Str(note)];
      ArrAppend(NotesJson(notes), Str(note), Bytes);
      LastField(Wrapped(result), Ascii("user_notes"), a, b, Bytes);
    } else {
      assert NoteItems(notes + [note]) == NoteItems(notes) + [NoteItem(note)];
      assert result.content + NoteItems(notes + [note]) == (result.content + NoteItems(notes)) + [NoteItem(note)];
      TextBytesAppend(result.content + NoteItems(notes), NoteItem(note));
    }
  }

  /** The notes of one delivery, in queue order. */
  function Delivery(result: Response, waiting: seq<Text>): (k: nat)
    ensures k <= |waiting|
  {
    Chosen(waiting, result.structured.Some?, NOTES_RESPONSE_BYTES - ModelTextBytes(Build(result, [])), 0)
  }

  /** The size of the response that carries the first `n` waiting notes. */
  function Carrying(result: Response, waiting: seq<Text>, n: nat): nat
    requires n <= |waiting|
  {
    ModelTextBytes(Build(result, waiting[..n]))
  }

  lemma CarryingNext(result: Response, waiting: seq<Text>, k: nat)
    requires k < |waiting|
    ensures Carrying(result, waiting, k + 1) == Carrying(result, waiting, k) + Cost(waiting[k], result.structured.Some?, k)
  {
    hide ModelTextBytes, Build, Cost;
    assert waiting[..k + 1] == waiting[..k] + [waiting[k]];
    BuildCost(result, waiting[..k], waiting[k]);
  }

  /** The first `n` notes fit, and no longer run from the head does. */
  predicate LongestFit(result: Response, waiting: seq<Text>, n: nat) {
    && n <= |waiting|
    && (n == 0 || Carrying(result, waiting, n) <= NOTES_RESPONSE_BYTES)
    && (n == |waiting| || Carrying(result, waiting, n + 1) > NOTES_RESPONSE_BYTES)
  }

  lemma {:induction false} ChosenFits(result: Response, waiting: seq<Text>, k: nat)
    requires k <= |waiting|
    requires k == 0 || Carrying(result, waiting, k) <= NOTES_RESPONSE_BYTES
    ensures LongestFit(result, waiting,
      k + Chosen(waiting[k..], result.structured.Some?, NOTES_RESPONSE_BYTES - Carrying(result, waiting, k), k))
    decreases |waiting| - k
  {
    hide Carrying, Cost;
    if k < |waiting| {
      CarryingNext(result, waiting, k);
      assert waiting[k..][0] == waiting[k] && waiting[k..][1..] == waiting[k + 1..];
      if Carrying(result, waiting, k + 1) <= NOTES_RESPONSE_BYTES {
        ChosenFits(result, waiting, k + 1);
      }
    }
  }

  /** What leaves is within the budget, and it is the longest such run from the head of the
      queue: the next note would not fit. */
  lemma DeliveryFits(result: Response, waiting: seq<Text>)
    ensures LongestFit(result, waiting, Delivery(result, waiting))
  {
    assert waiting[..0] == [] && waiting[0..] == waiting;
    hide ModelTextBytes, Build, Cost;
    ChosenFits(result, waiting, 0);
  }

  lemma PlainHead(t: Text)
    requires t != [] && !High(t[0])
    ensures Utf8(t) == PointBytes(t[0], false) + Utf8(t[1..])
  {
  }

  lemma PrefixBytes()
    ensures Utf8(USER_NOTE_TEXT_PREFIX) == 22
  {
    hide Utf8;
    var p := USER_NOTE_TEXT_PREFIX;
    PlainHead(p);
    PlainHead(p[1..]);
    PlainHead(p[2..]);
    PlainHead(p[3..]);
    PlainHead(p[4..]);
    PlainHead(p[5..]);
    PlainHead(p[6..]);
    PlainHead(p[7..]);
    EmptyBytes(p[8..]);
  }

  lemma EmptyBytes(t: Text)
    requires t == []
    ensures Utf8(t) == 0
  {
  }

  /** A small response always takes the head of the queue: every accepted note fits as text, and
      every accepted answer also fits as JSON. */
  lemma SmallResponseDelivers(result: Response, waiting: seq<Text>)
    requires waiting != [] && Utf8(waiting[0]) <= 30_000
    requires result.structured.Some? ==> Quoted(waiting[0], Bytes) <= 30_000
    requires ModelTextBytes(Build(result, [])) <= if result.structured.Some? then 7_000 else 6_976
    ensures Delivery(result, waiting) >= 1
  {
    if result.structured.None? {
      PrefixBytes();
      Utf8Concat(USER_NOTE_TEXT_PREFIX, waiting[0]);
    }
    hide Utf8, Quoted, ModelTextBytes, Build;
  }

  /** A response with a note differs from the result it was built from. */
  lemma BuildChanges(result: Response, notes: seq<Text>)
    requires notes != []
    ensures Build(result, notes) != result
  {
    if result.structured.Some? {
      var envelope := Build(result, notes).structured.value;
      assert envelope.Obj? && envelope.fields[0].value == result.structured.value;
    } else {
      assert |Build(result, notes).content| == |result.content| + |notes|;
    }
  }
}
