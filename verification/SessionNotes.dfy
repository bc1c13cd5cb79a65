/** The notes store as the object that the tool and Web handlers share. */
module SessionNotesStore {
  import opened Jsons
  import opened NotesResponses
  import opened NotesStates

  class SessionNotes {
    var conversations: seq<Conversation>
    var bytes: int
    var births: nat
    const maximumBytes: nat

    ghost function View(): Store
      reads this
    {
      Store(conversations, bytes, births)
    }

    constructor (maximumBytes: nat)
      ensures View() == Empty && this.maximumBytes == maximumBytes
    {
      conversations, bytes, births := [], 0, 0;
      this.maximumBytes := maximumBytes;
    }

    /** `sweep`: one pass over the conversations, filtering each list. */
    method Sweep(now: int)
      modifies this
      ensures View() == NotesStates.Sweep(old(View()), now)
    {
      hide SweptOne, FreedBytes, ProfileBytes;
      var deadline := now - NOTE_RETENTION_MS;
      ghost var was := View();
      var kept, left, i := [], bytes, 0;
      while i < |conversations|
        invariant 0 <= i <= |conversations| && View() == was
        invariant SweepFrom(was, deadline, i) == Store(kept, left, births)
      {
        var c := conversations[i];
        var d, freed := SweepOne(c, deadline);
        left := left - freed;
        if d.notes == [] && d.requests == [] && d.messages == [] && d.touched <= deadline {
          left := left - ProfileBytes(c.name);
        } else {
          kept := kept + [d];
        }
        i := i + 1;
      }
      conversations, bytes := kept, left;
    }

    /** `observe` */
    method Observe(id: Text, web: bool, now: int)
      modifies this
      ensures View() == NotesStates.Observe(old(View()), id, web, now, maximumBytes)
    {
      if id == [] || !web { return; }
      Sweep(now);
      var found := Find(conversations, id);
      if found.Some? {
        var c := conversations[found.value];
        conversations := conversations[found.value := c.(touched := now)];
        return;
      }
      if bytes + 1024 > maximumBytes { return; }
      conversations := conversations + [Conversation(id, births, [], false, now, 0, [], [], [])];
      bytes := bytes + 1024;
      births := births + 1;
    }

    /** `setTitle`: the title keeps as many whole characters as its byte budget allows. */
    method SetTitle(id: Text, title: Text, web: bool, now: int) returns (done: bool)
      modifies this
      ensures (View(), done) == NotesStates.SetTitle(old(View()), id, title, web, now, maximumBytes)
    {
      hide NotesStates.Observe, TitleCut, Trim, Collapse;
      if id == [] || !web { return false; }
      Observe(id, web, now);
      var found := Find(conversations, id);
      if found.None? { return false; }
      var c := conversations[found.value];
      if c.name != [] || c.titled { return false; }
      var name := CutTitle(Trim(Collapse(title)));
      var delta := 2 * |name|;
      if name == [] || bytes + delta > maximumBytes { return false; }
      conversations := conversations[found.value := c.(name := name, titled := true, touched := now)];
      bytes := bytes + delta;
      return true;
    }

    /** `insertNote` */
    method InsertNote(i: nat, id: Text, text: Text, question: Option<Text>, now: int) returns (outcome: Outcome<Note>)
      requires i < |conversations|
      modifies this
      ensures (View(), outcome) == NotesStates.InsertNote(old(View()), i, id, text, question, now, maximumBytes)
    {
      if !ValidId(id) { return Refused(InvalidId); }
      if Trim(text) == [] { return Refused(NoteEmpty); }
      if Utf8(text) > NOTE_MAX_BYTES { return Refused(NoteTooLong); }
      var c := conversations[i];
      var prior := FindNote(c.notes, id);
      if prior.Some? {
        var p := c.notes[prior.value];
        if p.text != text || p.question != question { return Refused(NoteChanged); }
        return Done(p);
      }
      var note := Note(id, c.sequence + 1, text, now, Pending, question);
      if bytes + NoteBytes(text) > maximumBytes { return Refused(NotesFull); }
      conversations := conversations[i := c.(sequence := c.sequence + 1, notes := c.notes + [note], touched := now)];
      bytes := bytes + NoteBytes(text);
      return Done(note);
    }

    method Enqueue(id: Text, messageId: Text, text: Text, now: int) returns (outcome: Outcome<Note>)
      modifies this
      ensures (View(), outcome) == NotesStates.Enqueue(old(View()), id, messageId, text, now, maximumBytes)
    {
      Sweep(now);
      var found := Find(conversations, id);
      if found.None? { return Refused(NotFound); }
      outcome := InsertNote(found.value, messageId, text, None, now);
    }

    method Withdraw(id: Text, noteId: Text, now: int) returns (outcome: Outcome<Unused>)
      modifies this
      ensures (View(), outcome) == NotesStates.Withdraw(old(View()), id, noteId, now)
    {
      Sweep(now);
      var found := Find(conversations, id);
      if found.None? { return Refused(NotFound); }
      var c := conversations[found.value];
      var k := FindNote(c.notes, noteId);
      if k.None? { return Refused(NoteNotFound); }
      var note := c.notes[k.value];
      if note.status == Attached { return Refused(NoteAttached); }
      conversations := conversations[found.value := c.(notes := c.notes[k.value := note.(status := Withdrawn)])];
      return Done(Nothing);
    }

    /** The end of `answer`: check the whole cost, add the note, then keep the reply. */
    method Commit(i: nat, r: nat, k: nat, reply: Reply, text: Text, now: nat) returns (outcome: Outcome<Note>)
      requires i < |conversations| && r < |conversations[i].requests| && k < |conversations[i].requests[r].questions|
      modifies this
      ensures (View(), outcome) == NotesStates.Commit(old(View()), i, r, k, reply, text, now, maximumBytes)
    {
      var request := conversations[i].requests[r];
      var replacement := Answered(request, k, reply, now);
      var delta := RequestBytes(replacement) - RequestBytes(request);
      if bytes + delta + NoteBytes(text) > maximumBytes { return Refused(NotesFull); }
      ghost var before := View();
      outcome := InsertNote(i, reply.noteId, text, Some(request.questions[k].id), now);
      if outcome.Refused? { return; }
      assert |conversations| == |before.conversations| && conversations[i].requests == before.conversations[i].requests;
      var c := conversations[i];
      conversations := conversations[i := c.(requests := c.requests[r := replacement])];
      bytes := bytes + delta;
    }

    method Rename(id: Text, name: Text, now: int) returns (outcome: Outcome<Unused>)
      modifies this
      ensures (View(), outcome) == NotesStates.Rename(old(View()), id, name, now, maximumBytes)
    {
      hide Trim, Utf8;
      Sweep(now);
      var found := Find(conversations, id);
      if found.None? { return Refused(NotFound); }
      if Utf8(name) > NOTE_LABEL_BYTES { return Refused(LabelTooLong); }
      var c := conversations[found.value];
      var next := Trim(name);
      var delta := 2 * (|next| - |c.name|);
      if bytes + delta > maximumBytes { return Refused(NotesFull); }
      conversations := conversations[found.value := c.(name := next, touched := now)];
      bytes := bytes + delta;
      return Done(Nothing);
    }

    method SendMessage(id: Text, message: Text, handle: Text, web: bool, now: int) returns (outcome: Outcome<Unused>)
      modifies this
      ensures (View(), outcome) == NotesStates.SendMessage(old(View()), id, message, handle, web, now, maximumBytes)
    {
      hide NotesStates.Observe, NotesStates.Sweep, Utf8;
      if !web { return Refused(WebUnavailable); }
      if id == [] { return Refused(ConversationUnknown); }
      if Utf8(message) > NOTE_MAX_BYTES { return Refused(MessageTooLong); }
      Observe(id, web, now);
      Sweep(now);
      var found := Find(conversations, id);
      if found.None? { return Refused(NotFound); }
      if bytes + NoteBytes(message) > maximumBytes { return Refused(NotesFull); }
      var c := conversations[found.value];
      conversations := conversations[found.value := c.(messages := c.messages + [Message(handle, message, now)], touched := now)];
      bytes := bytes + NoteBytes(message);
      return Done(Nothing);
    }

    method Ask(id: Text, drafts: seq<Draft>, key: Option<Text>, handles: seq<Text>, web: bool, now: nat) returns (outcome: Outcome<Text>)
      requires |handles| == |drafts| + 1
      modifies this
      ensures (View(), outcome) == NotesStates.Ask(old(View()), id, drafts, key, handles, web, now, maximumBytes)
    {
      hide NotesStates.Observe, NotesStates.Sweep, DraftTooLong, NewRequest, RequestBytes, Drafts;
      if !web { return Refused(WebUnavailable); }
      if id == [] { return Refused(ConversationUnknown); }
      if exists k :: 0 <= k < |drafts| && DraftTooLong(drafts[k]) { return Refused(QuestionTooLong); }
      Observe(id, web, now);
      Sweep(now);
      var found := Find(conversations, id);
      if found.None? { return Refused(NotFound); }
      var c := conversations[found.value];
      if key.Some? {
        var earlier := FindKey(c.requests, key.value);
        if earlier.Some? {
          if Drafts(c.requests[earlier.value].questions) != drafts { return Refused(KeyChanged); }
          return Done(c.requests[earlier.value].id);
        }
      }
      var request := NewRequest(drafts, key, handles, now);
      if bytes + RequestBytes(request) > maximumBytes { return Refused(NotesFull); }
      conversations := conversations[found.value := c.(requests := c.requests + [request], touched := now)];
      bytes := bytes + RequestBytes(request);
      return Done(request.id);
    }

    method Answer(id: Text, question: Text, input: Submission, now: nat) returns (outcome: Outcome<Note>)
      modifies this
      ensures (View(), outcome) == NotesStates.Answer(old(View()), id, question, input, now, maximumBytes)
    {
      hide NotesStates.Sweep, NotesStates.Commit, FormatUserAnswer, TextTooLong, QuestionPending, Trim, ReplyNoteId;
      Sweep(now);
      var found := Find(conversations, id);
      if found.None? { return Refused(NotFound); }
      var c := conversations[found.value];
      var at := FindRequest(c.requests, question);
      if at.None? { return Refused(QuestionNotFound); }
      var k := FindQuestion(c.requests[at.value].questions, question).value;
      var q := c.requests[at.value].questions[k];
      if input.option.Some? && input.option.value >= |q.options| { return Refused(InvalidOption); }
      if input.option.None? && Trim(input.note) == [] { return Refused(AnswerRequired); }
      var text := FormatUserAnswer(q.title, q.options, input.option, input.note);
      if TextTooLong(text) { return Refused(AnswerTooLong); }
      var noteId := ReplyNoteId(q.id, input.submission);
      var prior := FindNote(c.notes, noteId);
      if prior.Some? {
        var p := c.notes[prior.value];
        if p.text != text || p.question != Some(question) { return Refused(AnswerChanged); }
        return Done(p);
      }
      if !QuestionPending(c.notes, q) { return Refused(QuestionAnswered); }
      outcome := Commit(found.value, at.value, k, Reply(input.option, input.note, noteId, now), text, now);
    }

    /** `attach`: fill the response from the head of the queue, then mark what went in. */
    method Attach(result: Response, id: Text, aborted: bool, now: int) returns (response: Response, marks: seq<Mark>)
      modifies this
      ensures (View(), response, marks) == NotesStates.Attach(old(View()), result, id, aborted, now)
    {
      if id == [] || aborted { return result, []; }
      Sweep(now);
      var found := Find(conversations, id);
      if found.None? { return result, []; }
      var c := conversations[found.value];
      var waiting := Waiting(c.notes);
      if waiting == [] { return result, []; }
      var k := Select(result, TextsOf(waiting));
      if k == 0 { return result, []; }
      response := Deliver(c, result, k);
      if PayloadBytes(response) > MAX_PAYLOAD_BYTES { return result, []; }
      var notes := MarkFirst(c.notes, k);
      conversations := conversations[found.value := c.(notes := notes)];
      marks := MarksOf(c.birth, waiting[..k]);
    }
  }

  method SweepOne(c: Conversation, deadline: int) returns (d: Conversation, freed: nat)
    ensures d == SweptOne(c, deadline) && freed == FreedBytes(c, deadline)
  {
    hide Kept, Freed;
    var notes, freedNotes := Filter(c.notes, NoteStamp, deadline, NoteCost);
    var requests, freedRequests := Filter(c.requests, RequestStamp, deadline, RequestBytes);
    var messages, freedMessages := Filter(c.messages, MessageStamp, deadline, MessageCost);
    d := c.(notes := notes, requests := requests, messages := messages);
    freed := freedNotes + freedRequests + freedMessages;
  }

  /** Keeps what is younger than the deadline and adds up the cost of the rest. */
  method Filter<T>(xs: seq<T>, stamp: T -> int, deadline: int, cost: T -> nat) returns (kept: seq<T>, freed: nat)
    ensures kept == Kept(xs, stamp, deadline) && freed == Freed(xs, stamp, deadline, cost)
  {
    kept, freed := [], 0;
    var i := 0;
    while i < |xs|
      invariant 0 <= i <= |xs|
      invariant kept == Kept(xs[..i], stamp, deadline) && freed == Freed(xs[..i], stamp, deadline, cost)
    {
      assert xs[..i + 1][..i] == xs[..i];
      if stamp(xs[i]) > deadline { kept := kept + [xs[i]]; } else { freed := freed + cost(xs[i]); }
      i := i + 1;
    }
    assert xs[..|xs|] == xs;
  }

  /** One round of the loop: the next character joins the name, or the name is done. */
  lemma TitleStep(rest: Text, name: Text)
    requires rest != []
    ensures 0 < Lead(rest) <= |rest|
    ensures var next := name + rest[..Lead(rest)];
      && next + rest[Lead(rest)..] == name + rest
      && TitleCut(rest, name) == if Utf8(next) > NOTE_LABEL_BYTES then name else TitleCut(rest[Lead(rest)..], next)
  {
    hide Utf8, EscapedPoint;
  }

  lemma TitleEnds(name: Text)
    ensures TitleCut([], name) == name
  {
  }

  /** As many whole characters as the label budget allows. */
  method CutTitle(title: Text) returns (name: Text)
    ensures name == TitleCut(title, [])
    ensures Utf8(name) <= NOTE_LABEL_BYTES && name <= title
  {
    hide Utf8, EscapedPoint, TitleCut, Lead;
    name := [];
    assert Utf8(name) == 0 by { EmptyBytes(name); }
    var rest := title;
    while rest != []
      invariant TitleCut(rest, name) == TitleCut(title, []) && name + rest == title && Utf8(name) <= NOTE_LABEL_BYTES
      decreases |rest|
    {
      TitleStep(rest, name);
      var next := name + rest[..Lead(rest)];
      if Utf8(next) > NOTE_LABEL_BYTES { break; }
      name, rest := next, rest[Lead(rest)..];
    }
    TitleEnds(name);
  }

  /** The selection loop of `attach`: take notes while each fits what remains. */
  method Select(result: Response, waiting: seq<Text>) returns (k: nat)
    ensures k == Delivery(result, waiting)
    ensures LongestFit(result, waiting, k)
  {
    hide Cost, ModelTextBytes, Build, LongestFit;
    var structured := result.structured.Some?;
    var remaining := NOTES_RESPONSE_BYTES - ModelTextBytes(Build(result, []));
    ghost var start := remaining;
    k := 0;
    assert waiting[0..] == waiting;
    while k < |waiting|
      invariant k <= |waiting|
      invariant k + Chosen(waiting[k..], structured, remaining, k) == Chosen(waiting, structured, start, 0)
    {
      var cost := Cost(waiting[k], structured, k);
      if cost > remaining { break; }
      assert waiting[k..][1..] == waiting[k + 1..];
      remaining := remaining - cost;
      k := k + 1;
    }
    DeliveryFits(result, waiting);
  }

  /** Marks the first `k` waiting notes as attached. */
  method MarkFirst(notes: seq<Note>, k: nat) returns (r: seq<Note>)
    ensures r == Marked(notes, k)
  {
    r := [];
    var left, i := k, 0;
    assert notes[0..] == notes;
    while i < |notes|
      invariant 0 <= i <= |notes|
      invariant r + Marked(notes[i..], left) == Marked(notes, k)
    {
      assert notes[i..][1..] == notes[i + 1..];
      if left > 0 && notes[i].status == Pending {
        r, left := r + [notes[i].(status := Attached)], left - 1;
      } else {
        r := r + [notes[i]];
      }
      i := i + 1;
    }
  }
}
