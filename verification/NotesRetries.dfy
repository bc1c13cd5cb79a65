/** What one call of the notes store does exactly: which notes a delivery marks and carries, and
    that a submission that is sent again changes nothing. */
module NotesRetries {
  import opened Jsons
  import opened NotesResponses
  import opened NotesStates

  // ---- a delivery ----

  function PendingBefore(notes: seq<Note>, j: nat): nat
    requires j <= |notes|
  {
    if j == 0 then 0 else PendingBefore(notes, j - 1) + (if notes[j - 1].status == Pending then 1 else 0)
  }

  lemma {:induction false} PendingBeforeRest(notes: seq<Note>, j: nat)
    requires 0 < j <= |notes|
    ensures PendingBefore(notes, j) == (if notes[0].status == Pending then 1 else 0) + PendingBefore(notes[1..], j - 1)
  {
    if j > 1 { PendingBeforeRest(notes, j - 1); }
  }

  /** Exactly the first `k` waiting notes change, and only their status. */
  lemma {:induction false} MarkedExactly(notes: seq<Note>, k: nat, j: nat)
    requires j < |notes|
    ensures Marked(notes, k)[j]
         == if notes[j].status == Pending && PendingBefore(notes, j) < k then notes[j].(status := Attached) else notes[j]
    ensures notes[j].status == Pending ==>
      PendingBefore(notes, j) < |Waiting(notes)| && Waiting(notes)[PendingBefore(notes, j)] == notes[j]
  {
    if j > 0 {
      PendingBeforeRest(notes, j);
      MarkedExactly(notes[1..], if notes[0].status == Pending && k > 0 then k - 1 else k, j - 1);
    }
  }

  function TextsOfMarks(marks: seq<Mark>): (r: seq<Text>)
    ensures |r| == |marks|
  {
    seq(|marks|, i requires 0 <= i < |marks| => marks[i].note.text)
  }

  /** The response carries the original result unchanged and then, in order, the text of every
      delivered note. */
  lemma AttachCarries(s: Store, result: Response, id: Text, aborted: bool, now: int)
    ensures var (r, response, marks) := Attach(s, result, id, aborted, now);
      marks != [] ==>
        if result.structured.Some? then
          && response.structured.Some? && response.structured.value.Obj?
          && var fields := response.structured.value.fields;
          && |fields| >= 2 && fields[0].value == result.structured.value
          && fields[|fields| - 1].value == Arr(NotesJson(TextsOfMarks(marks)))
        else
          && |response.content| >= |result.content| + |marks|
          && response.content[..|result.content|] == result.content
          && response.content[|result.content|..|result.content| + |marks|] == NoteItems(TextsOfMarks(marks))
  {
    var (r, response, marks) := Attach(s, result, id, aborted, now);
    if marks != [] {
      hide Sweep, Delivery, PayloadBytes, ModelTextBytes, Waiting, Marked, Find, Texts, Others, WithoutMirrors, ItemsJson, Utf8;
      var t := Sweep(s, now);
      var c := t.conversations[Find(t.conversations, id).value];
      assert TextsOf(Waiting(c.notes))[..|marks|] == TextsOfMarks(marks);
    }
  }

  // ---- a repeated submission ----

  predicate Clean(c: Conversation, deadline: int) {
    && Kept(c.notes, NoteStamp, deadline) == c.notes
    && Kept(c.requests, RequestStamp, deadline) == c.requests
    && Kept(c.messages, MessageStamp, deadline) == c.messages
    && !Expired(c, deadline)
  }

  predicate AllClean(s: Store, deadline: int) {
    forall i :: 0 <= i < |s.conversations| ==> Clean(s.conversations[i], deadline)
  }

  lemma {:induction false} KeptShorter<T>(xs: seq<T>, stamp: T -> int, deadline: int)
    ensures |Kept(xs, stamp, deadline)| <= |xs|
  {
    if xs != [] { KeptShorter(xs[..|xs| - 1], stamp, deadline); }
  }

  lemma {:induction false} KeptTwice<T>(xs: seq<T>, stamp: T -> int, deadline: int)
    ensures Kept(Kept(xs, stamp, deadline), stamp, deadline) == Kept(xs, stamp, deadline)
  {
    if xs != [] {
      var kept := Kept(xs[..|xs| - 1], stamp, deadline);
      KeptTwice(xs[..|xs| - 1], stamp, deadline);
      var x := xs[|xs| - 1];
      assert (kept + [x])[..|kept|] == kept;
      assert kept + [] == kept;
    }
  }

  lemma {:induction false} KeptAllFreesNothing<T>(xs: seq<T>, stamp: T -> int, deadline: int, cost: T -> nat)
    requires Kept(xs, stamp, deadline) == xs
    ensures Freed(xs, stamp, deadline, cost) == 0
  {
    if xs != [] {
      var n := |xs| - 1;
      KeptShorter(xs[..n], stamp, deadline);
      assert |Kept(xs[..n], stamp, deadline)| == n && stamp(xs[n]) > deadline;
      assert Kept(xs[..n], stamp, deadline) == Kept(xs, stamp, deadline)[..n] == xs[..n];
      KeptAllFreesNothing(xs[..n], stamp, deadline, cost);
    }
  }

  lemma SweptIsClean(c: Conversation, deadline: int)
    requires !Expired(SweptOne(c, deadline), deadline)
    ensures Clean(SweptOne(c, deadline), deadline)
  {
    KeptTwice(c.notes, NoteStamp, deadline);
    KeptTwice(c.requests, RequestStamp, deadline);
    KeptTwice(c.messages, MessageStamp, deadline);
    hide Kept;
  }

  lemma CleanStays(c: Conversation, deadline: int)
    requires Clean(c, deadline)
    ensures SweptOne(c, deadline) == c && FreedBytes(c, deadline) == 0
  {
    KeptAllFreesNothing(c.notes, NoteStamp, deadline, NoteCost);
    KeptAllFreesNothing(c.requests, RequestStamp, deadline, RequestBytes);
    KeptAllFreesNothing(c.messages, MessageStamp, deadline, MessageCost);
    hide Kept, Freed;
  }

  lemma {:induction false} SweepCleans(s: Store, deadline: int, n: nat)
    requires n <= |s.conversations|
    ensures AllClean(SweepFrom(s, deadline, n), deadline)
  {
    if n > 0 {
      SweepCleans(s, deadline, n - 1);
      var d := SweptOne(s.conversations[n - 1], deadline);
      if !Expired(d, deadline) { SweptIsClean(s.conversations[n - 1], deadline); }
      hide Clean, SweptOne, FreedBytes, Expired;
    }
  }

  lemma {:induction false} CleanSweep(s: Store, deadline: int, n: nat)
    requires n <= |s.conversations| && AllClean(s, deadline)
    ensures SweepFrom(s, deadline, n) == s.(conversations := s.conversations[..n])
  {
    hide *;
    if n > 0 {
      CleanSweep(s, deadline, n - 1);
      CleanAt(s, deadline, n - 1);
      CleanStays(s.conversations[n - 1], deadline);
      SweepStep(s, deadline, n);
      assert s.conversations[..n] == s.conversations[..n - 1] + [s.conversations[n - 1]];
    } else {
      SweepNone(s, deadline);
    }
  }

  lemma CleanAt(s: Store, deadline: int, i: nat)
    requires i < |s.conversations| && AllClean(s, deadline)
    ensures Clean(s.conversations[i], deadline) && !Expired(s.conversations[i], deadline)
  {
  }

  lemma SweepNone(s: Store, deadline: int)
    ensures SweepFrom(s, deadline, 0) == s.(conversations := s.conversations[..0])
  {
  }

  lemma SweepStep(s: Store, deadline: int, n: nat)
    requires 0 < n <= |s.conversations|
    ensures var r, c := SweepFrom(s, deadline, n - 1), s.conversations[n - 1];
      !Expired(SweptOne(c, deadline), deadline) ==>
        SweepFrom(s, deadline, n) == r.(conversations := r.conversations + [SweptOne(c, deadline)], bytes := r.bytes - FreedBytes(c, deadline))
  {
    hide SweptOne, FreedBytes, Expired;
  }

  /** A sweep at the same time finds nothing more. */
  lemma SweepTwice(s: Store, now: int)
    ensures Sweep(Sweep(s, now), now) == Sweep(s, now)
  {
    hide SweepFrom, Clean;
    SweepCleans(s, now - NOTE_RETENTION_MS, |s.conversations|);
    CleanStore(Sweep(s, now), now);
  }

  lemma CleanStore(s: Store, now: int)
    requires AllClean(s, now - NOTE_RETENTION_MS)
    ensures Sweep(s, now) == s
  {
    hide SweepFrom, Clean;
    CleanSweep(s, now - NOTE_RETENTION_MS, |s.conversations|);
    assert s.conversations[..|s.conversations|] == s.conversations;
  }

  lemma {:induction false} FindSame(a: seq<Conversation>, b: seq<Conversation>, id: Text)
    requires |a| == |b| && forall i :: 0 <= i < |a| ==> a[i].id == b[i].id
    ensures Find(a, id) == Find(b, id)
  {
    if a != [] { FindSame(a[..|a| - 1], b[..|b| - 1], id); }
  }

  lemma AppendedClean(c: Conversation, note: Note, now: int)
    requires Clean(c, now - NOTE_RETENTION_MS) && note.createdAt == now
    ensures Clean(c.(sequence := c.sequence + 1, notes := c.notes + [note], touched := now), now - NOTE_RETENTION_MS)
  {
    assert (c.notes + [note])[..|c.notes|] == c.notes;
  }

  lemma FindNew(notes: seq<Note>, note: Note)
    requires FindNote(notes, note.id).None?
    ensures FindNote(notes + [note], note.id) == Some(|notes|)
  {
    assert (notes + [note])[..|notes|] == notes;
  }

  lemma InsertAgain(t: Store, i: nat, id: Text, text: Text, question: Option<Text>, now: int, max: nat)
    requires i < |t.conversations| && AllClean(t, now - NOTE_RETENTION_MS)
    requires InsertNote(t, i, id, text, question, now, max).1.Done?
    ensures var (r, outcome) := InsertNote(t, i, id, text, question, now, max);
      && |r.conversations| == |t.conversations|
      && AllClean(r, now - NOTE_RETENTION_MS)
      && (forall j :: 0 <= j < |t.conversations| ==> r.conversations[j].id == t.conversations[j].id)
      && InsertNote(r, i, id, text, question, now, max) == (r, outcome)
  {
    var (r, outcome) := InsertNote(t, i, id, text, question, now, max);
    if r != t {
      AppendedClean(t.conversations[i], outcome.value, now);
      FindNew(t.conversations[i].notes, outcome.value);
    }
    hide Clean, Utf8, Trim, ValidId, FindNote;
  }

  /** An accepted message that is submitted again under its id, with the same text, gets the same
      answer and changes nothing. */
  lemma EnqueueAgain(s: Store, id: Text, messageId: Text, text: Text, now: int, max: nat)
    ensures var (r, outcome) := Enqueue(s, id, messageId, text, now, max);
      outcome.Done? ==> Enqueue(r, id, messageId, text, now, max) == (r, outcome)
  {
    var (r, outcome) := Enqueue(s, id, messageId, text, now, max);
    if outcome.Done? {
      var t := Sweep(s, now);
      hide InsertNote, SweepFrom, Clean;
      SweepCleans(s, now - NOTE_RETENTION_MS, |s.conversations|);
      var i := Find(t.conversations, id).value;
      InsertAgain(t, i, messageId, text, None, now, max);
      CleanStore(r, now);
      FindSame(r.conversations, t.conversations, id);
      hide Sweep;
    }
  }

  /** An accepted message waits at the end of the queue with its text, under the next number. */
  lemma EnqueueAppends(s: Store, id: Text, messageId: Text, text: Text, now: int, max: nat)
    ensures var (r, outcome) := Enqueue(s, id, messageId, text, now, max);
      outcome.Done? ==>
        var found := Find(r.conversations, id);
        && found.Some?
        && var c := r.conversations[found.value];
        && outcome.value in c.notes && outcome.value.id == messageId && outcome.value.text == text && outcome.value.question == None
        && (r != Sweep(s, now) ==>
              outcome.value.status == Pending && outcome.value.sequence == c.sequence && c.notes[|c.notes| - 1] == outcome.value)
  {
    var (r, outcome) := Enqueue(s, id, messageId, text, now, max);
    hide Sweep, Utf8, Trim, ValidId;
    if outcome.Done? { FindSame(r.conversations, Sweep(s, now).conversations, id); }
  }
}
