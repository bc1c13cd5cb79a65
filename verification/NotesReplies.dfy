/** What the note of an accepted answer says: a reader who has the question gets back the option and
    the note that the user submitted. */
module NotesReplies {
  import opened Jsons
  import opened NotesResponses
  import opened NotesStates

  // ---- the reader ----

  /** The text that stands for a choice; no index is the last choice of every question. */
  function Label(options: seq<Text>, choice: Option<nat>): Text
    requires Legal(options, choice)
  {
    if choice.None? then Ascii("None of the above") else options[choice.value]
  }

  predicate Legal(options: seq<Text>, choice: Option<nat>) {
    choice.Some? ==> choice.value < |options|
  }

  function NoteMark(): (t: Text)
    ensures |t| == 7 && t[0] == 0x0a && forall i :: 1 <= i < 7 ==> t[i] != 0x0a
  {
    [0x0a, 0x4e, 0x6f, 0x74, 0x65, 0x3a, 0x20]
  }

  /** The text is this choice, alone or with a note behind it. */
  predicate Says(choiceText: Text, rest: Text) {
    rest == choiceText || choiceText + NoteMark() <= rest
  }

  function NoteBehind(choiceText: Text, rest: Text): Text
    requires Says(choiceText, rest)
  {
    if rest == choiceText then [] else rest[|choiceText| + 7..]
  }

  /** The first of the choices from `k` on that the text says. */
  function ReadChoice(options: seq<Text>, rest: Text, k: nat): Option<(Option<nat>, Text)>
    requires k <= |options|
    decreases |options| - k
  {
    if k == |options| then
      var choiceText := Label(options, None);
      if Says(choiceText, rest) then Some((None, NoteBehind(choiceText, rest))) else None
    else if Says(options[k], rest) then Some((Some(k), NoteBehind(options[k], rest)))
    else ReadChoice(options, rest, k + 1)
  }

  function Behind(prefix: Text, text: Text): Option<Text> {
    if prefix <= text then Some(text[|prefix|..]) else None
  }

  /** The choice and the note that a text gives in answer to a question. */
  function ReadAnswer(title: Text, options: seq<Text>, text: Text): Option<(Option<nat>, Text)> {
    if options == [] then
      var note := Behind(Ascii("Question: ") + title + Ascii("\nAnswer: "), text);
      if note.Some? then Some((None, note.value)) else None
    else
      var rest := Behind(Ascii("Question: ") + title + Ascii("\nSelected: "), text);
      if rest.Some? then ReadChoice(options, rest.value, 0) else None
  }

  /** No two choices look alike, and none looks like another one with a note. */
  ghost predicate Readable(options: seq<Text>) {
    forall a, b :: Legal(options, a) && Legal(options, b) && a != b ==> Apart(Label(options, a), Label(options, b))
  }

  predicate Apart(a: Text, b: Text) {
    a != b && !(b + NoteMark() <= a)
  }

  // ---- reading gives back what was written ----

  /** A choice with its note. */
  function Written(choiceText: Text, note: Text): Text {
    choiceText + (if note == [] then [] else NoteMark() + note)
  }

  lemma WrittenSays(choiceText: Text, note: Text)
    ensures Says(choiceText, Written(choiceText, note)) && NoteBehind(choiceText, Written(choiceText, note)) == note
  {
    if note != [] {
      assert Written(choiceText, note) == choiceText + NoteMark() + note;
    }
  }

  /** Of two texts that fit the same answer, one is the other with a note. */
  lemma SaysBoth(a: Text, b: Text, note: Text)
    requires Says(b, Written(a, note)) && a != b
    ensures a + NoteMark() <= b || b + NoteMark() <= a
  {
    hide NoteMark;
    var rest, mark := Written(a, note), NoteMark();
    assert rest[..|a|] == a && rest[..|b|] == b;
    assert note != [] ==> rest == a + mark + note;
    assert note != [] ==> forall p :: |a| <= p < |a| + 7 ==> rest[p] == mark[p - |a|];
    assert rest != b ==> |b| + 7 <= |rest| && forall p :: |b| <= p < |b| + 7 ==> rest[p] == (b + mark)[p];
    assert rest != b ==> forall p :: |b| <= p < |b| + 7 ==> rest[p] == mark[p - |b|];
    assert rest != b ==> rest[|b|] == mark[0];
    assert note != [] ==> rest[|a|] == mark[0];
    if rest == b || |a| + 7 <= |b| {
      assert a + mark == rest[..|a| + 7];
    } else if |b| + 7 <= |a| {
      assert b + mark == rest[..|b| + 7];
    }
  }

  lemma {:induction false} ReadsFrom(options: seq<Text>, choice: Option<nat>, note: Text, k: nat)
    requires Legal(options, choice) && Readable(options) && k <= |options| && (choice.Some? ==> k <= choice.value)
    ensures ReadChoice(options, Written(Label(options, choice), note), k) == Some((choice, note))
    decreases |options| - k
  {
    hide Says, NoteBehind, Written;
    WrittenSays(Label(options, choice), note);
    if k < |options| && choice != Some(k) {
      assert Apart(Label(options, choice), Label(options, Some(k))) && Apart(Label(options, Some(k)), Label(options, choice));
      if Says(Label(options, Some(k)), Written(Label(options, choice), note)) {
        SaysBoth(Label(options, choice), Label(options, Some(k)), note);
      }
      ReadsFrom(options, choice, note, k + 1);
    }
  }

  lemma WrittenAnswer(title: Text, options: seq<Text>, choice: Option<nat>, note: Text)
    requires Legal(options, choice)
    ensures FormatUserAnswer(title, options, choice, note) ==
      if options == [] then Ascii("Question: ") + title + Ascii("\nAnswer: ") + note
      else Ascii("Question: ") + title + Ascii("\nSelected: ") + Written(Label(options, choice), note)
  {
    assert Ascii("\nNote: ") == NoteMark();
  }

  lemma BehindIs(prefix: Text, rest: Text)
    ensures Behind(prefix, prefix + rest) == Some(rest)
  {
  }

  /** A reader gets back exactly the choice and the note, if the choices of the question can be told
      apart; an open question can always be read. */
  lemma AnswerReadsBack(title: Text, options: seq<Text>, choice: Option<nat>, note: Text)
    requires Legal(options, choice) && (options == [] || Readable(options))
    ensures ReadAnswer(title, options, FormatUserAnswer(title, options, choice, note)) == Some((choice, note))
  {
    hide FormatUserAnswer, ReadChoice, Behind, Written, Ascii, Label, Readable;
    WrittenAnswer(title, options, choice, note);
    if options == [] {
      BehindIs(Ascii("Question: ") + title + Ascii("\nAnswer: "), note);
    } else {
      BehindIs(Ascii("Question: ") + title + Ascii("\nSelected: "), Written(Label(options, choice), note));
      ReadsFrom(options, choice, note, 0);
    }
  }

  // ---- when a choice can be misread ----

  /** Two submissions, each with a note that is not blank, whose answers have the same text. */
  ghost predicate Confused(title: Text, options: seq<Text>, a: Option<nat>, m: Text, b: Option<nat>, n: Text) {
    && Legal(options, a) && Legal(options, b) && (a, m) != (b, n) && Trim(m) != [] && Trim(n) != []
    && FormatUserAnswer(title, options, a, m) == FormatUserAnswer(title, options, b, n)
  }

  lemma SomethingShown(t: Text)
    requires t != [] && !Space(t[|t| - 1])
    ensures Trim(t) != []
  {
    StartKeepsEnd(t);
  }

  lemma {:induction false} StartKeepsEnd(t: Text)
    requires t != [] && !Space(t[|t| - 1])
    ensures TrimStart(t) != [] && TrimStart(t)[|TrimStart(t)| - 1] == t[|t| - 1]
  {
    if Space(t[0]) {
      StartKeepsEnd(t[1..]);
    }
  }

  /** The note that makes the second of two such texts say the same as the first with the note `m`. */
  function Twin(p: Text, q: Text, m: Text): Text
    requires !Apart(p, q)
  {
    if p == q then m else p[|q| + 7..] + NoteMark() + m
  }

  lemma TwinSays(p: Text, q: Text, m: Text)
    requires !Apart(p, q) && m != []
    ensures var n := Twin(p, q, m); n != [] && n[|n| - 1] == m[|m| - 1] && Written(p, m) == Written(q, n)
  {
    hide NoteMark;
    if p != q {
      assert p == q + NoteMark() + p[|q| + 7..];
      assert p + (NoteMark() + m) == q + (NoteMark() + (p[|q| + 7..] + NoteMark() + m));
    }
  }

  /** If one choice is another one, or another one with a note, some note makes them the same answer. */
  lemma NotApartConfuses(title: Text, options: seq<Text>, a: Option<nat>, b: Option<nat>)
    requires options != [] && Legal(options, a) && Legal(options, b) && a != b && !Apart(Label(options, a), Label(options, b))
    ensures exists m, n :: Confused(title, options, a, m, b, n)
  {
    hide FormatUserAnswer, Label, Ascii, Trim, Written, Twin, Apart;
    var m := [0x78];
    var n := Twin(Label(options, a), Label(options, b), m);
    TwinSays(Label(options, a), Label(options, b), m);
    WrittenAnswer(title, options, a, m);
    WrittenAnswer(title, options, b, n);
    SomethingShown(m);
    SomethingShown(n);
    assert Confused(title, options, a, m, b, n);
  }

  /** Answers to a question with options can be told apart exactly when no choice looks like another
      one or like another one with a note. */
  lemma ReadableExactly(title: Text, options: seq<Text>)
    requires options != []
    ensures Readable(options) <==> !exists a, m, b, n :: Confused(title, options, a, m, b, n)
  {
    hide FormatUserAnswer, Label, Ascii, Trim, Apart, ReadAnswer;
    if Readable(options) {
      forall a, m, b, n | Legal(options, a) && Legal(options, b) && (a, m) != (b, n)
        ensures FormatUserAnswer(title, options, a, m) != FormatUserAnswer(title, options, b, n)
      {
        AnswerReadsBack(title, options, a, m);
        AnswerReadsBack(title, options, b, n);
      }
    } else {
      var a, b :| Legal(options, a) && Legal(options, b) && a != b && !Apart(Label(options, a), Label(options, b));
      NotApartConfuses(title, options, a, b);
    }
  }

  // ---- the operation ----

  /** The question that an answer is about, where it stands in the store. */
  predicate At(t: Store, i: nat, r: nat, k: nat) {
    i < |t.conversations| && r < |t.conversations[i].requests| && k < |t.conversations[i].requests[r].questions|
  }

  function QuestionAt(t: Store, i: nat, r: nat, k: nat): Question
    requires At(t, i, r, k)
  {
    t.conversations[i].requests[r].questions[k]
  }

  /** The note is in the queue of the conversation, belongs to the question, and reads as this
      submission if the choices of the question can be told apart. */
  ghost predicate Tells(t: Store, i: nat, q: Question, note: Note, input: Submission)
    requires i < |t.conversations|
  {
    && note in t.conversations[i].notes && note.question == Some(q.id)
    && note.id == q.id + [0x5f] + input.submission
    && (q.options == [] || Readable(q.options) ==> ReadAnswer(q.title, q.options, note.text) == Some((input.option, input.note)))
  }

  /** The question keeps the submission, and everything else about it is as before. */
  predicate Keeps(t: Store, u: Store, i: nat, r: nat, k: nat, input: Submission, note: Note, now: int) {
    && At(t, i, r, k) && At(u, i, r, k)
    && QuestionAt(u, i, r, k) == QuestionAt(t, i, r, k).(answer := Some(Reply(input.option, input.note, note.id, now)))
  }

  /** An accepted answer is told by its note, and the question keeps the submission; the same
      submission sent again gets the same note and changes nothing. */
  lemma AnswerTells(s: Store, id: Text, question: Text, input: Submission, now: nat, max: nat) returns (i: nat, r: nat, k: nat)
    requires Answer(s, id, question, input, now, max).1.Done?
    ensures var t := Sweep(s, now); var (u, outcome) := Answer(s, id, question, input, now, max);
      && At(t, i, r, k) && QuestionAt(t, i, r, k).id == question && t.conversations[i].id == id
      && i < |u.conversations| && Tells(u, i, QuestionAt(t, i, r, k), outcome.value, input)
      && (u == t || (Keeps(t, u, i, r, k, input, outcome.value, now) && outcome.value !in t.conversations[i].notes
                     && outcome.value.status == Pending))
  {
    var t := Sweep(s, now); var (u, outcome) := Answer(s, id, question, input, now, max);
    i := Find(t.conversations, id).value;
    var c := t.conversations[i];
    r := FindRequest(c.requests, question).value;
    k := FindQuestion(c.requests[r].questions, question).value;
    var q := QuestionAt(t, i, r, k);
    hide Sweep, FormatUserAnswer, ReadAnswer, Readable, TextTooLong, QuestionPending, Commit, Trim, RequestBytes;
    if q.options == [] || Readable(q.options) { AnswerReadsBack(q.title, q.options, input.option, input.note); }
    var text := FormatUserAnswer(q.title, q.options, input.option, input.note);
    var noteId := ReplyNoteId(q.id, input.submission);
    if FindNote(c.notes, noteId).None? {
      CommitTells(t, i, r, k, Reply(input.option, input.note, noteId, now), text, now, max);
    }
  }

  /** What the last part of an answer adds. */
  lemma CommitTells(t: Store, i: nat, r: nat, k: nat, reply: Reply, text: Text, now: nat, max: nat)
    requires At(t, i, r, k) && FindNote(t.conversations[i].notes, reply.noteId).None?
    requires Commit(t, i, r, k, reply, text, now, max).1.Done?
    ensures var (u, outcome) := Commit(t, i, r, k, reply, text, now, max);
      var note := outcome.value;
      && At(u, i, r, k) && QuestionAt(u, i, r, k) == QuestionAt(t, i, r, k).(answer := Some(reply))
      && note in u.conversations[i].notes && note !in t.conversations[i].notes
      && note.id == reply.noteId && note.text == text && note.question == Some(QuestionAt(t, i, r, k).id) && note.status == Pending
  {
    hide Trim, Utf8, RequestBytes, ValidId;
    var inserted := InsertNote(t, i, reply.noteId, text, Some(QuestionAt(t, i, r, k).id), now, max);
    assert inserted.1.Done?;
    var note := inserted.1.value;
    var d := inserted.0.conversations[i];
    assert d.notes == t.conversations[i].notes + [note] && d.requests == t.conversations[i].requests;
    assert d.notes[|t.conversations[i].notes|] == note;
  }
}
