/** The notes store on values: each operation as one synchronous step. Conversations stand in the
    insertion order of the program's Map; `birth` numbers the conversation objects. */
module NotesStates {
  import opened Jsons
  import opened NotesResponses

  const NOTE_MAX_BYTES: nat := 30_000
  const NOTE_LABEL_BYTES: nat := 256
  const NOTE_RETENTION_MS: int := 72 * 60 * 60 * 1000

  datatype Status = Pending | Attached | Withdrawn

  datatype Note = Note(id: Text, sequence: nat, text: Text, createdAt: int, status: Status, question: Option<Text>)

  datatype Message = Message(id: Text, text: Text, createdAt: int)

  datatype Reply = Reply(option: Option<nat>, note: Text, noteId: Text, answeredAt: int)

  datatype Question = Question(id: Text, title: Text, options: seq<Text>, answer: Option<Reply>)

  datatype Request = Request(id: Text, key: Option<Text>, createdAt: int, touched: nat, questions: seq<Question>)

  datatype Conversation = Conversation(
    id: Text, birth: nat, name: Text, titled: bool, touched: int, sequence: nat,
    notes: seq<Note>, requests: seq<Request>, messages: seq<Message>)

  datatype Store = Store(conversations: seq<Conversation>, bytes: int, births: nat)

  const Empty := Store([], 0, 0)

  datatype Error =
    | NotFound | LabelTooLong | NotesFull
    | InvalidId | NoteEmpty | NoteTooLong | NoteChanged
    | WebUnavailable | ConversationUnknown | MessageTooLong
    | QuestionTooLong | KeyChanged
    | QuestionNotFound | InvalidOption | AnswerRequired | AnswerTooLong | AnswerChanged | QuestionAnswered
    | NoteNotFound | NoteAttached

  datatype Outcome<+T> = Done(value: T) | Refused(error: Error)

  datatype Unused = Nothing

  // ---- sizes ----

  function Sum<T>(xs: seq<T>, cost: T -> nat): nat {
    if xs == [] then 0 else Sum(xs[..|xs| - 1], cost) + cost(xs[|xs| - 1])
  }

  function ProfileBytes(name: Text): nat {
    1024 + 2 * |name|
  }

  function NoteBytes(text: Text): nat {
    1024 + 2 * |text| + Utf8(text)
  }

  function NoteCost(n: Note): nat { NoteBytes(n.text) }

  function MessageCost(m: Message): nat { NoteBytes(m.text) }

  /** An ISO time stamp with its quotes. */
  const Stamp := Raw(26)

  function ReplyJson(r: Reply): Json {
    Obj([Field(Ascii("option_index"), Raw(if r.option.Some? then Digits(r.option.value) else 4)),
         Field(Ascii("note"), Str(r.note)),
         Field(Ascii("noteId"), Str(r.noteId)),
         Field(Ascii("answeredAt"), Stamp)])
  }

  function QuestionJson(q: Question): Json {
    Obj([Field(Ascii("title"), Str(q.title)), Field(Ascii("options"), Arr(NotesJson(q.options))), Field(Ascii("id"), Str(q.id))]
        + (if q.answer.Some? then [Field(Ascii("answer"), ReplyJson(q.answer.value))] else []))
  }

  function RequestJson(r: Request): Json {
    Obj([Field(Ascii("id"), Str(r.id))]
        + (if r.key.Some? then [Field(Ascii("request_key"), Str(r.key.value))] else [])
        + [Field(Ascii("createdAt"), Stamp), Field(Ascii("touched"), Raw(Digits(r.touched))),
           Field(Ascii("questions"), Arr(seq(|r.questions|, i requires 0 <= i < |r.questions| => QuestionJson(r.questions[i]))))])
  }

  function RequestBytes(r: Request): nat {
    1024 + 2 * Size(RequestJson(r), Units) + Size(RequestJson(r), Bytes)
  }

  function ConversationBytes(c: Conversation): nat {
    ProfileBytes(c.name) + Sum(c.notes, NoteCost) + Sum(c.requests, RequestBytes) + Sum(c.messages, MessageCost)
  }

  // ---- retention ----

  function NoteStamp(n: Note): int { n.createdAt }
  function RequestStamp(r: Request): int { r.touched }
  function MessageStamp(m: Message): int { m.createdAt }

  function Kept<T>(xs: seq<T>, stamp: T -> int, deadline: int): seq<T> {
    if xs == [] then []
    else
      Kept(xs[..|xs| - 1], stamp, deadline)
      + (if stamp(xs[|xs| - 1]) > deadline then [xs[|xs| - 1]] else [])
  }

  /** What the items that leave gave back. */
  function Freed<T>(xs: seq<T>, stamp: T -> int, deadline: int, cost: T -> nat): nat {
    if xs == [] then 0
    else
      Freed(xs[..|xs| - 1], stamp, deadline, cost)
      + (if stamp(xs[|xs| - 1]) > deadline then 0 else cost(xs[|xs| - 1]))
  }

  function SweptOne(c: Conversation, deadline: int): Conversation {
    c.(notes := Kept(c.notes, NoteStamp, deadline),
       requests := Kept(c.requests, RequestStamp, deadline),
       messages := Kept(c.messages, MessageStamp, deadline))
  }

  function FreedBytes(c: Conversation, deadline: int): nat {
    Freed(c.notes, NoteStamp, deadline, NoteCost)
    + Freed(c.requests, RequestStamp, deadline, RequestBytes)
    + Freed(c.messages, MessageStamp, deadline, MessageCost)
  }

  predicate Expired(c: Conversation, deadline: int) {
    c.notes == [] && c.requests == [] && c.messages == [] && c.touched <= deadline
  }

  function SweepFrom(s: Store, deadline: int, n: nat): Store
    requires n <= |s.conversations|
  {
    if n == 0 then s.(conversations := [])
    else
      var r := SweepFrom(s, deadline, n - 1);
      var c := s.conversations[n - 1];
      var d := SweptOne(c, deadline);
      if Expired(d, deadline)
      then r.(bytes := r.bytes - FreedBytes(c, deadline) - ProfileBytes(c.name))
      else r.(conversations := r.conversations + [d], bytes := r.bytes - FreedBytes(c, deadline))
  }

  /** `sweep`: records older than the retention leave, then conversations with nothing left. */
  function Sweep(s: Store, now: int): Store {
    SweepFrom(s, now - NOTE_RETENTION_MS, |s.conversations|)
  }

  // ---- conversations ----

  function Find(cs: seq<Conversation>, id: Text): (r: Option<nat>)
    ensures r.Some? ==> r.value < |cs| && cs[r.value].id == id
    ensures r.None? ==> forall i :: 0 <= i < |cs| ==> cs[i].id != id
  {
    if cs == [] then None
    else if cs[|cs| - 1].id == id && Find(cs[..|cs| - 1], id).None? then Some(|cs| - 1)
    else Find(cs[..|cs| - 1], id)
  }

  /** The conversation at `i` becomes `c`, which costs `delta` more. */
  function Put(s: Store, i: nat, c: Conversation, delta: int): Store
    requires i < |s.conversations|
  {
    s.(conversations := s.conversations[i := c], bytes := s.bytes + delta)
  }

  function Observe(s: Store, id: Text, web: bool, now: int, max: nat): Store {
    if id == [] || !web then s
    else
      var t := Sweep(s, now);
      var found := Find(t.conversations, id);
      if found.Some? then Put(t, found.value, t.conversations[found.value].(touched := now), 0)
      else if t.bytes + 1024 > max then t
      else
        t.(conversations := t.conversations + [Conversation(id, t.births, [], false, now, 0, [], [], [])],
           bytes := t.bytes + 1024,
           births := t.births + 1)
  }

  function Rename(s: Store, id: Text, name: Text, now: int, max: nat): (Store, Outcome<Unused>) {
    var t := Sweep(s, now);
    var found := Find(t.conversations, id);
    if found.None? then (t, Refused(NotFound))
    else if Utf8(name) > NOTE_LABEL_BYTES then (t, Refused(LabelTooLong))
    else
      var c := t.conversations[found.value];
      var next := Trim(name);
      var delta := 2 * (|next| - |c.name|);
      if t.bytes + delta > max then (t, Refused(NotesFull))
      else (Put(t, found.value, c.(name := next, touched := now), delta), Done(Nothing))
  }

  /** Whole code points of `rest` while the name stays within its bytes. */
  function TitleCut(rest: Text, taken: Text): Text
    decreases |rest|
  {
    if rest == [] || Utf8(taken + rest[..Lead(rest)]) > NOTE_LABEL_BYTES then taken
    else TitleCut(rest[Lead(rest)..], taken + rest[..Lead(rest)])
  }

  function SetTitle(s: Store, id: Text, title: Text, web: bool, now: int, max: nat): (Store, bool) {
    if id == [] || !web then (s, false)
    else
      var t := Observe(s, id, web, now, max);
      var found := Find(t.conversations, id);
      if found.None? || t.conversations[found.value].name != [] || t.conversations[found.value].titled then (t, false)
      else
        var name := TitleCut(Trim(Collapse(title)), []);
        if name == [] || t.bytes + 2 * |name| > max then (t, false)
        else
          (Put(t, found.value, t.conversations[found.value].(name := name, titled := true, touched := now), 2 * |name|), true)
  }

  // ---- notes ----

  function FindNote(notes: seq<Note>, id: Text): (r: Option<nat>)
    ensures r.Some? ==> r.value < |notes| && notes[r.value].id == id
    ensures r.Some? ==> forall i :: 0 <= i < r.value ==> notes[i].id != id
    ensures r.None? ==> forall i :: 0 <= i < |notes| ==> notes[i].id != id
  {
    if notes == [] then None
    else
      var rest := FindNote(notes[..|notes| - 1], id);
      if rest.Some? then rest
      else if notes[|notes| - 1].id == id then Some(|notes| - 1)
      else None
  }

  predicate IdUnit(u: Unit) {
    0x30 <= u <= 0x39 || 0x41 <= u <= 0x5a || 0x61 <= u <= 0x7a || u == 0x5f || u == 0x2d
  }

  predicate ValidId(id: Text) {
    1 <= |id| <= 80 && forall i :: 0 <= i < |id| ==> IdUnit(id[i])
  }

  /** `insertNote`: an identical note with this id is answered again and changes nothing. */
  function InsertNote(t: Store, i: nat, id: Text, text: Text, question: Option<Text>, now: int, max: nat): (Store, Outcome<Note>)
    requires i < |t.conversations|
  {
    var c := t.conversations[i];
    if !ValidId(id) then (t, Refused(InvalidId))
    else if Trim(text) == [] then (t, Refused(NoteEmpty))
    else if Utf8(text) > NOTE_MAX_BYTES then (t, Refused(NoteTooLong))
    else
      var prior := FindNote(c.notes, id);
      if prior.Some? then
        var p := c.notes[prior.value];
        if p.text != text || p.question != question then (t, Refused(NoteChanged)) else (t, Done(p))
      else if t.bytes + NoteBytes(text) > max then (t, Refused(NotesFull))
      else
        var note := Note(id, c.sequence + 1, text, now, Pending, question);
        (Put(t, i, c.(sequence := c.sequence + 1, notes := c.notes + [note], touched := now), NoteBytes(text)), Done(note))
  }

  function Enqueue(s: Store, id: Text, messageId: Text, text: Text, now: int, max: nat): (Store, Outcome<Note>) {
    var t := Sweep(s, now);
    var found := Find(t.conversations, id);
    if found.None? then (t, Refused(NotFound))
    else InsertNote(t, found.value, messageId, text, None, now, max)
  }

  function Withdraw(s: Store, id: Text, noteId: Text, now: int): (Store, Outcome<Unused>) {
    var t := Sweep(s, now);
    var found := Find(t.conversations, id);
    if found.None? then (t, Refused(NotFound))
    else
      var c := t.conversations[found.value];
      var k := FindNote(c.notes, noteId);
      if k.None? then (t, Refused(NoteNotFound))
      else if c.notes[k.value].status == Attached then (t, Refused(NoteAttached))
      else
        (Put(t, found.value, c.(notes := c.notes[k.value := c.notes[k.value].(status := Withdrawn)]), 0), Done(Nothing))
  }

  /** `handle` is the fresh id of the message. */
  function SendMessage(s: Store, id: Text, message: Text, handle: Text, web: bool, now: int, max: nat): (Store, Outcome<Unused>) {
    if !web then (s, Refused(WebUnavailable))
    else if id == [] then (s, Refused(ConversationUnknown))
    else if Utf8(message) > NOTE_MAX_BYTES then (s, Refused(MessageTooLong))
    else
      var t := Sweep(Observe(s, id, web, now, max), now);
      var found := Find(t.conversations, id);
      if found.None? then (t, Refused(NotFound))
      else if t.bytes + NoteBytes(message) > max then (t, Refused(NotesFull))
      else
        var c := t.conversations[found.value];
        (Put(t, found.value, c.(messages := c.messages + [Message(handle, message, now)], touched := now), NoteBytes(message)),
         Done(Nothing))
  }

  // ---- questions ----

  const NoneOfTheAbove := Ascii("None of the above")

  function FormatUserAnswer(title: Text, options: seq<Text>, option: Option<nat>, note: Text): Text
    requires option.Some? ==> option.value < |options|
  {
    if options == [] then Ascii("Question: ") + title + Ascii("\nAnswer: ") + note
    else
      Ascii("Question: ") + title + Ascii("\nSelected: ")
      + (if option.None? then NoneOfTheAbove else options[option.value])
      + (if note == [] then [] else Ascii("\nNote: ") + note)
  }

  predicate TextTooLong(text: Text) {
    Utf8(text) > NOTE_MAX_BYTES || Quoted(text, Bytes) > NOTE_MAX_BYTES
  }

  datatype Draft = Draft(title: Text, options: seq<Text>)

  predicate DraftTooLong(d: Draft) {
    || TextTooLong(FormatUserAnswer(d.title, d.options, None, Ascii("x")))
    || exists k :: 0 <= k < |d.options| && TextTooLong(FormatUserAnswer(d.title, d.options, Some(k), []))
  }

  function DraftOf(q: Question): Draft {
    Draft(q.title, q.options)
  }

  function Drafts(qs: seq<Question>): (r: seq<Draft>)
    ensures |r| == |qs|
  {
    seq(|qs|, i requires 0 <= i < |qs| => DraftOf(qs[i]))
  }

  function FindKey(requests: seq<Request>, key: Text): (r: Option<nat>)
    ensures r.Some? ==> r.value < |requests| && requests[r.value].key == Some(key)
    ensures r.Some? ==> forall i :: 0 <= i < r.value ==> requests[i].key != Some(key)
    ensures r.None? ==> forall i :: 0 <= i < |requests| ==> requests[i].key != Some(key)
  {
    if requests == [] then None
    else
      var rest := FindKey(requests[..|requests| - 1], key);
      if rest.Some? then rest
      else if requests[|requests| - 1].key == Some(key) then Some(|requests| - 1)
      else None
  }

  /** `handles` are the fresh ids of the questions and, last, of the request. */
  function Ask(s: Store, id: Text, drafts: seq<Draft>, key: Option<Text>, handles: seq<Text>, web: bool, now: nat, max: nat)
    : (Store, Outcome<Text>)
    requires |handles| == |drafts| + 1
  {
    if !web then (s, Refused(WebUnavailable))
    else if id == [] then (s, Refused(ConversationUnknown))
    else if exists k :: 0 <= k < |drafts| && DraftTooLong(drafts[k]) then (s, Refused(QuestionTooLong))
    else
      var t := Sweep(Observe(s, id, web, now, max), now);
      var found := Find(t.conversations, id);
      if found.None? then (t, Refused(NotFound))
      else
        var c := t.conversations[found.value];
        var earlier := if key.None? then None else FindKey(c.requests, key.value);
        if earlier.Some? then
          if Drafts(c.requests[earlier.value].questions) != drafts then (t, Refused(KeyChanged))
          else (t, Done(c.requests[earlier.value].id))
        else
          var request := NewRequest(drafts, key, handles, now);
          if t.bytes + RequestBytes(request) > max then (t, Refused(NotesFull))
          else
            (Put(t, found.value, c.(requests := c.requests + [request], touched := now), RequestBytes(request)),
             Done(request.id))
  }

  function NewRequest(drafts: seq<Draft>, key: Option<Text>, handles: seq<Text>, now: nat): Request
    requires |handles| == |drafts| + 1
  {
    Request(handles[|drafts|], key, now, now,
            seq(|drafts|, i requires 0 <= i < |drafts| => Question(handles[i], drafts[i].title, drafts[i].options, None)))
  }

  function FindQuestion(qs: seq<Question>, id: Text): (r: Option<nat>)
    ensures r.Some? ==> r.value < |qs| && qs[r.value].id == id
    ensures r.Some? ==> forall i :: 0 <= i < r.value ==> qs[i].id != id
    ensures r.None? ==> forall i :: 0 <= i < |qs| ==> qs[i].id != id
  {
    if qs == [] then None
    else
      var rest := FindQuestion(qs[..|qs| - 1], id);
      if rest.Some? then rest
      else if qs[|qs| - 1].id == id then Some(|qs| - 1)
      else None
  }

  function FindRequest(requests: seq<Request>, id: Text): (r: Option<nat>)
    ensures r.Some? ==> r.value < |requests| && FindQuestion(requests[r.value].questions, id).Some?
    ensures r.None? ==> forall i :: 0 <= i < |requests| ==> FindQuestion(requests[i].questions, id).None?
  {
    if requests == [] then None
    else
      var rest := FindRequest(requests[..|requests| - 1], id);
      if rest.Some? then rest
      else if FindQuestion(requests[|requests| - 1].questions, id).Some? then Some(|requests| - 1)
      else None
  }

  /** `questionPending`: unanswered, or answered by a note that was withdrawn. */
  predicate QuestionPending(notes: seq<Note>, q: Question) {
    q.answer.None? ||
    (var k := FindNote(notes, q.answer.value.noteId); k.Some? && notes[k.value].status == Withdrawn)
  }

  /** One submission of the answer form; `submission` is its id. */
  datatype Submission = Submission(submission: Text, option: Option<nat>, note: Text)

  function ReplyNoteId(question: Text, submission: Text): Text {
    question + [0x5f] + submission
  }

  function Answered(r: Request, k: nat, reply: Reply, now: nat): Request
    requires k < |r.questions|
  {
    r.(touched := now, questions := r.questions[k := r.questions[k].(answer := Some(reply))])
  }

  function Answer(s: Store, id: Text, question: Text, input: Submission, now: nat, max: nat): (Store, Outcome<Note>) {
    var t := Sweep(s, now);
    var found := Find(t.conversations, id);
    if found.None? then (t, Refused(NotFound))
    else
      var c := t.conversations[found.value];
      var at := FindRequest(c.requests, question);
      if at.None? then (t, Refused(QuestionNotFound))
      else
        var request := c.requests[at.value];
        var k := FindQuestion(request.questions, question).value;
        var q := request.questions[k];
        if input.option.Some? && input.option.value >= |q.options| then (t, Refused(InvalidOption))
        else if input.option.None? && Trim(input.note) == [] then (t, Refused(AnswerRequired))
        else
          var text := FormatUserAnswer(q.title, q.options, input.option, input.note);
          if TextTooLong(text) then (t, Refused(AnswerTooLong))
          else
            var noteId := ReplyNoteId(q.id, input.submission);
            var prior := FindNote(c.notes, noteId);
            if prior.Some? then
              var p := c.notes[prior.value];
              if p.text != text || p.question != Some(question) then (t, Refused(AnswerChanged)) else (t, Done(p))
            else if !QuestionPending(c.notes, q) then (t, Refused(QuestionAnswered))
            else
              Commit(t, found.value, at.value, k, Reply(input.option, input.note, noteId, now), text, now, max)
  }

  /** The last part of `answer`: the note joins the queue and the question keeps the reply. */
  function Commit(t: Store, i: nat, r: nat, k: nat, reply: Reply, text: Text, now: nat, max: nat): (Store, Outcome<Note>)
    requires i < |t.conversations| && r < |t.conversations[i].requests| && k < |t.conversations[i].requests[r].questions|
  {
    var request := t.conversations[i].requests[r];
    var replacement := Answered(request, k, reply, now);
    var delta := RequestBytes(replacement) - RequestBytes(request);
    if t.bytes + delta + NoteBytes(text) > max then (t, Refused(NotesFull))
    else
      var inserted := InsertNote(t, i, reply.noteId, text, Some(request.questions[k].id), now, max);
      if inserted.1.Refused? then inserted
      else
        var c := inserted.0.conversations[i];
        (Put(inserted.0, i, c.(requests := c.requests[r := replacement]), delta), inserted.1)
  }

  // ---- delivery ----

  function Waiting(notes: seq<Note>): (r: seq<Note>)
    ensures forall i :: 0 <= i < |r| ==> r[i].status == Pending
  {
    if notes == [] then []
    else (if notes[0].status == Pending then [notes[0]] else []) + Waiting(notes[1..])
  }

  function TextsOf(notes: seq<Note>): (r: seq<Text>)
    ensures |r| == |notes|
  {
    seq(|notes|, i requires 0 <= i < |notes| => notes[i].text)
  }

  /** The first `k` waiting notes are attached. */
  function Marked(notes: seq<Note>, k: nat): (r: seq<Note>)
    ensures |r| == |notes|
  {
    if notes == [] || k == 0 then notes
    else if notes[0].status == Pending then [notes[0].(status := Attached)] + Marked(notes[1..], k - 1)
    else [notes[0]] + Marked(notes[1..], k)
  }

  /** The response for a delivery of `k` notes, with the title reminder when it still fits. */
  function Deliver(c: Conversation, result: Response, k: nat): Response
    requires k <= |Waiting(c.notes)|
  {
    var built := Build(result, TextsOf(Waiting(c.notes))[..k]);
    if result.structured.None? && c.name == [] && !c.titled
       && Utf8(TitleReminder()) + 2 <= NOTES_RESPONSE_BYTES - ModelTextBytes(built)
    then Remind(built)
    else built
  }

  /** One delivered note and the conversation object that held it. */
  datatype Mark = Mark(birth: nat, note: Note)

  function MarksOf(birth: nat, notes: seq<Note>): (r: seq<Mark>)
    ensures |r| == |notes|
    ensures forall i :: 0 <= i < |notes| ==> r[i] == Mark(birth, notes[i])
  {
    seq(|notes|, i requires 0 <= i < |notes| => Mark(birth, notes[i]))
  }

  /** `attach`: the new store, the response, and what was delivered. */
  function Attach(s: Store, result: Response, id: Text, aborted: bool, now: int): (Store, Response, seq<Mark>) {
    if id == [] || aborted then (s, result, [])
    else
      var t := Sweep(s, now);
      var found := Find(t.conversations, id);
      if found.None? || Waiting(t.conversations[found.value].notes) == [] then (t, result, [])
      else
        var c := t.conversations[found.value];
        var k := Delivery(result, TextsOf(Waiting(c.notes)));
        if k == 0 || PayloadBytes(Deliver(c, result, k)) > MAX_PAYLOAD_BYTES then (t, result, [])
        else
          (Put(t, found.value, c.(notes := Marked(c.notes, k)), 0), Deliver(c, result, k),
           MarksOf(c.birth, Waiting(c.notes)[..k]))
  }

  // ---- runs ----

  datatype Event =
    | Observes(id: Text, web: bool, now: nat)
    | Renames(id: Text, name: Text, now: nat)
    | SetsTitle(id: Text, title: Text, web: bool, now: nat)
    | Enqueues(id: Text, messageId: Text, text: Text, now: nat)
    | Sends(id: Text, text: Text, handle: Text, web: bool, now: nat)
    | Asks(id: Text, drafts: seq<Draft>, key: Option<Text>, handles: seq<Text>, web: bool, now: nat)
    | Answers(id: Text, question: Text, input: Submission, now: nat)
    | Withdraws(id: Text, noteId: Text, now: nat)
    | Attaches(id: Text, result: Response, aborted: bool, now: nat)
    | Sweeps(now: nat)

  function Step(s: Store, ev: Event, max: nat): Store {
    match ev
    case Observes(id, web, now) => Observe(s, id, web, now, max)
    case Renames(id, name, now) => Rename(s, id, name, now, max).0
    case SetsTitle(id, title, web, now) => SetTitle(s, id, title, web, now, max).0
    case Enqueues(id, messageId, text, now) => Enqueue(s, id, messageId, text, now, max).0
    case Sends(id, text, handle, web, now) => SendMessage(s, id, text, handle, web, now, max).0
    case Asks(id, drafts, key, handles, web, now) =>
      if |handles| == |drafts| + 1 then Ask(s, id, drafts, key, handles, web, now, max).0 else s
    case Answers(id, question, input, now) => Answer(s, id, question, input, now, max).0
    case Withdraws(id, noteId, now) => Withdraw(s, id, noteId, now).0
    case Attaches(id, result, aborted, now) => Attach(s, result, id, aborted, now).0
    case Sweeps(now) => Sweep(s, now)
  }

  function Run(s: Store, events: seq<Event>, max: nat): Store
    decreases |events|
  {
    if events == [] then s else Run(Step(s, events[0], max), events[1..], max)
  }
}
