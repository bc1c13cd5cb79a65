/** A question never has two answers on their way: at most one of its answer notes is not
    withdrawn. The ids that `ask` draws are assumed fresh. */
module NotesAnswers {
  import opened Jsons
  import opened NotesResponses
  import opened NotesStates
  import opened NotesDelivery

  predicate Active(n: Note, question: Text) {
    n.question == Some(question) && n.status != Withdrawn
  }

  /** At most one answer note of each question is not withdrawn. */
  predicate OneAnswer(notes: seq<Note>) {
    forall i, j :: 0 <= i < j < |notes| ==> !BothActive(notes[i], notes[j])
  }

  predicate BothActive(a: Note, b: Note) {
    a.question.Some? && a.question == b.question && a.status != Withdrawn && b.status != Withdrawn
  }

  predicate OwnIds(r: Request) {
    forall k, l :: 0 <= k < l < |r.questions| ==> r.questions[k].id != r.questions[l].id
  }

  predicate Apart(a: Request, b: Request) {
    forall k, l :: 0 <= k < |a.questions| && 0 <= l < |b.questions| ==> a.questions[k].id != b.questions[l].id
  }

  predicate DistinctIds(rs: seq<Request>) {
    && (forall i :: 0 <= i < |rs| ==> OwnIds(rs[i]))
    && (forall i, j :: 0 <= i < j < |rs| ==> Apart(rs[i], rs[j]))
  }

  /** An active answer note is the one its question names. */
  predicate Names(q: Question, notes: seq<Note>) {
    forall i :: 0 <= i < |notes| && Active(notes[i], q.id) ==> q.answer.Some? && q.answer.value.noteId == notes[i].id
  }

  predicate Linked(r: Request, notes: seq<Note>) {
    forall k :: 0 <= k < |r.questions| ==> Names(r.questions[k], notes)
  }

  predicate AllLinked(rs: seq<Request>, notes: seq<Note>) {
    forall i :: 0 <= i < |rs| ==> Linked(rs[i], notes)
  }

  predicate Tidy(c: Conversation) {
    OneAnswer(c.notes) && DistinctIds(c.requests) && AllLinked(c.requests, c.notes)
  }

  predicate AllTidy(s: Store) {
    forall i :: 0 <= i < |s.conversations| ==> Tidy(s.conversations[i])
  }

  // ---- fresh ids ----

  predicate Unused(c: Conversation, id: Text) {
    && (forall i, k :: 0 <= i < |c.requests| && 0 <= k < |c.requests[i].questions| ==> c.requests[i].questions[k].id != id)
    && (forall i :: 0 <= i < |c.notes| ==> c.notes[i].question != Some(id))
  }

  predicate AllUnused(s: Store, id: Text) {
    forall i :: 0 <= i < |s.conversations| ==> Unused(s.conversations[i], id)
  }

  /** The random ids of new questions differ from each other and from every id in the store. */
  predicate FreshIds(s: Store, ev: Event) {
    ev.Asks? ==>
      && (forall k, l :: 0 <= k < l < |ev.handles| ==> ev.handles[k] != ev.handles[l])
      && (forall k :: 0 <= k < |ev.handles| ==> AllUnused(s, ev.handles[k]))
  }

  // ---- retention ----

  lemma {:induction false} KeptIn<T(!new)>(xs: seq<T>, stamp: T -> int, deadline: int)
    ensures forall j :: 0 <= j < |Kept(xs, stamp, deadline)| ==> Kept(xs, stamp, deadline)[j] in xs
  {
    if xs != [] {
      var rest := xs[..|xs| - 1];
      KeptIn(rest, stamp, deadline);
      assert xs == rest + [xs[|xs| - 1]];
    }
  }

  lemma {:induction false} KeptOneAnswer(notes: seq<Note>, deadline: int)
    requires OneAnswer(notes)
    ensures OneAnswer(Kept(notes, NoteStamp, deadline))
  {
    if notes != [] {
      var rest := notes[..|notes| - 1];
      KeptOneAnswer(rest, deadline);
      KeptIn(rest, NoteStamp, deadline);
      var kept := Kept(rest, NoteStamp, deadline);
      forall i | 0 <= i < |kept| ensures !BothActive(kept[i], notes[|notes| - 1]) {
        assert kept[i] in rest;
      }
    }
  }

  lemma {:induction false} KeptDistinct(rs: seq<Request>, deadline: int)
    requires DistinctIds(rs)
    ensures DistinctIds(Kept(rs, RequestStamp, deadline))
  {
    if rs != [] {
      var rest := rs[..|rs| - 1];
      KeptDistinct(rest, deadline);
      KeptIn(rest, RequestStamp, deadline);
      var kept := Kept(rest, RequestStamp, deadline);
      hide OwnIds, Apart;
      forall i | 0 <= i < |kept| ensures Apart(kept[i], rs[|rs| - 1]) && OwnIds(kept[i]) {
        assert kept[i] in rest;
      }
    }
  }

  /** Fewer notes, or notes that are active no longer, cannot break a link. */
  lemma LinkedLess(r: Request, notes: seq<Note>, fewer: seq<Note>)
    requires Linked(r, notes)
    requires forall j :: 0 <= j < |fewer| && fewer[j].status != Withdrawn ==>
      exists i :: 0 <= i < |notes| && notes[i].status != Withdrawn && notes[i].question == fewer[j].question && notes[i].id == fewer[j].id
    ensures Linked(r, fewer)
  {
    forall k, j | 0 <= k < |r.questions| && 0 <= j < |fewer| && Active(fewer[j], r.questions[k].id)
      ensures r.questions[k].answer.Some? && r.questions[k].answer.value.noteId == fewer[j].id
    {
      var i :| 0 <= i < |notes| && notes[i].status != Withdrawn && notes[i].question == fewer[j].question && notes[i].id == fewer[j].id;
      assert Names(r.questions[k], notes) && Active(notes[i], r.questions[k].id);
    }
  }

  lemma SweptTidy(c: Conversation, deadline: int)
    requires Tidy(c)
    ensures Tidy(SweptOne(c, deadline))
  {
    var d := SweptOne(c, deadline);
    KeptOneAnswer(c.notes, deadline);
    KeptDistinct(c.requests, deadline);
    KeptIn(c.notes, NoteStamp, deadline);
    KeptIn(c.requests, RequestStamp, deadline);
    hide Kept, OneAnswer, DistinctIds, Linked;
    forall i | 0 <= i < |d.requests| ensures Linked(d.requests[i], d.notes) {
      assert d.requests[i] in c.requests;
      forall j | 0 <= j < |d.notes| && d.notes[j].status != Withdrawn
        ensures exists x :: 0 <= x < |c.notes| && c.notes[x].status != Withdrawn && c.notes[x].question == d.notes[j].question && c.notes[x].id == d.notes[j].id
      {
        assert d.notes[j] in c.notes;
      }
      LinkedLess(d.requests[i], c.notes, d.notes);
    }
  }

  lemma SweptUnused(c: Conversation, deadline: int, id: Text)
    requires Unused(c, id)
    ensures Unused(SweptOne(c, deadline), id)
  {
    var d := SweptOne(c, deadline);
    KeptIn(c.notes, NoteStamp, deadline);
    KeptIn(c.requests, RequestStamp, deadline);
    forall i | 0 <= i < |d.notes| ensures d.notes[i].question != Some(id) {
      assert d.notes[i] in c.notes;
    }
    forall i, k | 0 <= i < |d.requests| && 0 <= k < |d.requests[i].questions| ensures d.requests[i].questions[k].id != id {
      assert d.requests[i] in c.requests;
    }
  }

  lemma {:induction false} SweepAllTidy(s: Store, deadline: int, n: nat)
    requires n <= |s.conversations| && AllTidy(s)
    ensures AllTidy(SweepFrom(s, deadline, n))
  {
    if n > 0 {
      SweepAllTidy(s, deadline, n - 1);
      SweptTidy(s.conversations[n - 1], deadline);
      hide Tidy, SweptOne, FreedBytes;
    }
  }

  lemma {:induction false} SweepAllUnused(s: Store, deadline: int, n: nat, id: Text)
    requires n <= |s.conversations| && AllUnused(s, id)
    ensures AllUnused(SweepFrom(s, deadline, n), id)
  {
    if n > 0 {
      SweepAllUnused(s, deadline, n - 1, id);
      SweptUnused(s.conversations[n - 1], deadline, id);
      hide Unused, SweptOne, FreedBytes;
    }
  }

  lemma SweepTidy(s: Store, deadline: int, n: nat, id: Text)
    requires n <= |s.conversations|
    ensures AllTidy(s) ==> AllTidy(SweepFrom(s, deadline, n))
    ensures AllUnused(s, id) ==> AllUnused(SweepFrom(s, deadline, n), id)
  {
    if AllTidy(s) { SweepAllTidy(s, deadline, n); }
    if AllUnused(s, id) { SweepAllUnused(s, deadline, n, id); }
  }

  lemma ObserveTidy(s: Store, id: Text, web: bool, now: int, max: nat, handle: Text)
    ensures AllTidy(s) ==> AllTidy(Observe(s, id, web, now, max))
    ensures AllUnused(s, handle) ==> AllUnused(Observe(s, id, web, now, max), handle)
  {
    SweepTidy(s, now - NOTE_RETENTION_MS, |s.conversations|, handle);
    hide SweepFrom, OneAnswer, DistinctIds, AllLinked;
    var r := Observe(s, id, web, now, max);
    var t := Sweep(s, now);
    assert Tidy(Conversation(id, t.births, [], false, now, 0, [], [], [])) by { EmptyTidy(id, t.births, now); }
  }

  lemma EmptyTidy(id: Text, births: nat, now: int)
    ensures Tidy(Conversation(id, births, [], false, now, 0, [], [], []))
  {
  }

  // ---- steps ----

  lemma PutTidy(s: Store, i: nat, d: Conversation, delta: int)
    requires AllTidy(s) && i < |s.conversations| && Tidy(d)
    ensures AllTidy(Put(s, i, d, delta))
  {
    hide Tidy;
  }

  lemma QuietTidy(s: Store, i: nat, d: Conversation, delta: int)
    requires AllTidy(s) && i < |s.conversations|
    requires d.notes == s.conversations[i].notes && d.requests == s.conversations[i].requests
    ensures AllTidy(Put(s, i, d, delta))
  {
    assert Tidy(s.conversations[i]);
    hide OneAnswer, DistinctIds, AllLinked;
  }

  /** A note that answers nothing. */
  lemma PlainTidy(c: Conversation, d: Conversation, note: Note)
    requires Tidy(c) && note.question.None? && d.notes == c.notes + [note] && d.requests == c.requests
    ensures Tidy(d)
  {
    hide DistinctIds;
    forall i | 0 <= i < |d.requests| ensures Linked(d.requests[i], d.notes) {
      assert Linked(c.requests[i], c.notes);
      forall k | 0 <= k < |d.requests[i].questions| ensures Names(d.requests[i].questions[k], d.notes) {
        assert Names(c.requests[i].questions[k], c.notes);
      }
    }
  }

  /** Statuses changed so that nothing became active. */
  lemma StatusTidy(c: Conversation, d: Conversation)
    requires Tidy(c) && d.requests == c.requests && |d.notes| == |c.notes|
    requires forall i :: 0 <= i < |c.notes| ==>
      d.notes[i] == c.notes[i].(status := d.notes[i].status) && (c.notes[i].status == Withdrawn ==> d.notes[i].status == Withdrawn)
    ensures Tidy(d)
  {
    hide DistinctIds, Linked;
    forall i, j | 0 <= i < j < |d.notes| ensures !BothActive(d.notes[i], d.notes[j]) {
      assert !BothActive(c.notes[i], c.notes[j]);
    }
    forall i | 0 <= i < |d.requests| ensures Linked(d.requests[i], d.notes) {
      LinkedLess(c.requests[i], c.notes, d.notes);
    }
  }

  /** A new request with fresh ids. */
  lemma AskTidy(c: Conversation, request: Request, d: Conversation)
    requires Tidy(c) && d.notes == c.notes && d.requests == c.requests + [request]
    requires OwnIds(request)
    requires forall k :: 0 <= k < |request.questions| ==> Unused(c, request.questions[k].id)
    ensures Tidy(d)
  {
    hide OneAnswer, OwnIds;
    forall i | 0 <= i < |c.requests| ensures Apart(c.requests[i], request) {
    }
    hide Apart, Unused;
    assert Linked(request, c.notes) by { UnusedLinked(c, request); }
  }

  lemma UnusedLinked(c: Conversation, request: Request)
    requires forall k :: 0 <= k < |request.questions| ==> Unused(c, request.questions[k].id)
    ensures Linked(request, c.notes)
  {
    forall k | 0 <= k < |request.questions| ensures Names(request.questions[k], c.notes) {
      assert Unused(c, request.questions[k].id);
    }
  }

  /** While a question is pending none of its answer notes is active. */
  lemma PendingHasNoActive(c: Conversation, q: Question, i: nat)
    requires Ordered(c.notes) && Names(q, c.notes) && QuestionPending(c.notes, q) && i < |c.notes|
    ensures !Active(c.notes[i], q.id)
  {
    assert forall a, b :: 0 <= a < b < |c.notes| ==> Before(c.notes[a], c.notes[b]);
  }

  lemma AnsweredTidy(c: Conversation, d: Conversation, r: nat, k: nat, reply: Reply, note: Note, now: nat)
    requires Tidy(c) && Ordered(c.notes) && r < |c.requests| && k < |c.requests[r].questions|
    requires QuestionPending(c.notes, c.requests[r].questions[k])
    requires note.question == Some(c.requests[r].questions[k].id) && note.id == reply.noteId
    requires d.notes == c.notes + [note] && d.requests == c.requests[r := Answered(c.requests[r], k, reply, now)]
    ensures Tidy(d)
  {
    var q := c.requests[r].questions[k];
    assert Linked(c.requests[r], c.notes) && Names(q, c.notes);
    forall i | 0 <= i < |c.notes| ensures !Active(c.notes[i], q.id) {
      PendingHasNoActive(c, q, i);
    }
    assert OneAnswer(d.notes);
    var replacement := Answered(c.requests[r], k, reply, now);
    AnsweredDistinct(c.requests, r, k, reply, now);
    hide OneAnswer, DistinctIds;
    forall i | 0 <= i < |d.requests| ensures Linked(d.requests[i], d.notes) {
      assert Linked(c.requests[i], c.notes);
      forall l | 0 <= l < |d.requests[i].questions| ensures Names(d.requests[i].questions[l], d.notes) {
        var p := c.requests[i].questions[l];
        assert Names(p, c.notes);
        if i != r || l != k { OtherQuestion(c.requests, r, k, i, l); }
      }
    }
  }

  lemma OtherQuestion(rs: seq<Request>, r: nat, k: nat, i: nat, l: nat)
    requires DistinctIds(rs) && r < |rs| && k < |rs[r].questions| && i < |rs| && l < |rs[i].questions| && (i != r || l != k)
    ensures rs[i].questions[l].id != rs[r].questions[k].id
  {
    assert i < r ==> Apart(rs[i], rs[r]);
    assert r < i ==> Apart(rs[r], rs[i]);
    assert OwnIds(rs[r]);
  }

  lemma AnsweredDistinct(rs: seq<Request>, r: nat, k: nat, reply: Reply, now: nat)
    requires DistinctIds(rs) && r < |rs| && k < |rs[r].questions|
    ensures DistinctIds(rs[r := Answered(rs[r], k, reply, now)])
  {
    var x := Answered(rs[r], k, reply, now);
    assert |x.questions| == |rs[r].questions| && forall l :: 0 <= l < |x.questions| ==> x.questions[l].id == rs[r].questions[l].id;
    hide Answered;
    assert OwnIds(x) by { assert OwnIds(rs[r]); }
    forall i | 0 <= i < |rs| && i != r ensures (i < r ==> Apart(rs[i], x)) && (r < i ==> Apart(x, rs[i])) {
      assert i < r ==> Apart(rs[i], rs[r]);
      assert r < i ==> Apart(rs[r], rs[i]);
    }
    var ys := rs[r := x];
    hide OwnIds, Apart;
    assert forall i :: 0 <= i < |ys| && i != r ==> ys[i] == rs[i];
  }

  lemma InsertPlainTidy(t: Store, i: nat, id: Text, text: Text, now: int, max: nat)
    requires AllTidy(t) && i < |t.conversations|
    ensures AllTidy(InsertNote(t, i, id, text, None, now, max).0)
  {
    var r := InsertNote(t, i, id, text, None, now, max);
    assert Tidy(t.conversations[i]);
    hide Tidy;
    if r.0 != t {
      PlainTidy(t.conversations[i], r.0.conversations[i], r.1.value);
      PutTidy(t, i, r.0.conversations[i], NoteBytes(text));
    }
  }

  lemma CommitTidy(t: Store, i: nat, r: nat, k: nat, reply: Reply, text: Text, now: nat, max: nat)
    requires AllTidy(t) && Inv(t)
    requires i < |t.conversations| && r < |t.conversations[i].requests| && k < |t.conversations[i].requests[r].questions|
    requires FindNote(t.conversations[i].notes, reply.noteId).None?
    requires QuestionPending(t.conversations[i].notes, t.conversations[i].requests[r].questions[k])
    ensures AllTidy(Commit(t, i, r, k, reply, text, now, max).0)
  {
    var c := t.conversations[i];
    assert Tidy(c) && Queue(c);
    hide Tidy, RequestBytes, Answered, QuestionPending, Ordered;
    var out := Commit(t, i, r, k, reply, text, now, max);
    if out.1.Done? {
      var d := out.0.conversations[i];
      AnsweredTidy(c, d, r, k, reply, out.1.value, now);
      assert out.0.conversations == t.conversations[i := d];
    }
  }

  lemma AnswerTidy(s: Store, id: Text, question: Text, input: Submission, now: nat, max: nat)
    requires AllTidy(s) && Inv(s)
    ensures AllTidy(Answer(s, id, question, input, now, max).0)
  {
    var t := Sweep(s, now);
    SweepOnlyTidy(s, now);
    SweepGood(s, now);
    hide Sweep, Commit, FormatUserAnswer, TextTooLong, QuestionPending, Trim, AllTidy, Inv, Next, ReplyNoteId;
    var found := Find(t.conversations, id);
    if found.Some? {
      var c := t.conversations[found.value];
      var at := FindRequest(c.requests, question);
      if at.Some? && Answer(s, id, question, input, now, max).0 != t {
        var request := c.requests[at.value];
        var k := FindQuestion(request.questions, question).value;
        var q := request.questions[k];
        var text := FormatUserAnswer(q.title, q.options, input.option, input.note);
        CommitTidy(t, found.value, at.value, k, Reply(input.option, input.note, ReplyNoteId(q.id, input.submission), now), text, now, max);
      }
    }
  }

  lemma WithdrawTidy(s: Store, id: Text, noteId: Text, now: int)
    requires AllTidy(s)
    ensures AllTidy(Withdraw(s, id, noteId, now).0)
  {
    var t := Sweep(s, now);
    SweepTidy(s, now - NOTE_RETENTION_MS, |s.conversations|, []);
    hide Sweep, AllTidy, Tidy, Put;
    var out := Withdraw(s, id, noteId, now);
    if out.1.Done? {
      var found := Find(t.conversations, id).value;
      TidyAt(t, found);
      var c := t.conversations[found];
      var k := FindNote(c.notes, noteId).value;
      var d := c.(notes := c.notes[k := c.notes[k].(status := Withdrawn)]);
      StatusTidy(c, d);
      PutTidy(t, found, d, 0);
    }
  }

  lemma TidyAt(s: Store, i: nat)
    requires AllTidy(s) && i < |s.conversations|
    ensures Tidy(s.conversations[i])
  {
  }

  lemma AttachTidy(s: Store, result: Response, id: Text, aborted: bool, now: int)
    requires AllTidy(s)
    ensures AllTidy(Attach(s, result, id, aborted, now).0)
  {
    var t := Sweep(s, now);
    SweepTidy(s, now - NOTE_RETENTION_MS, |s.conversations|, []);
    hide Sweep, Tidy, Waiting, Delivery, Deliver, PayloadBytes;
    var out := Attach(s, result, id, aborted, now);
    if out.2 != [] {
      var found := Find(t.conversations, id).value;
      var c := t.conversations[found];
      MarkedBecame(c.notes, |out.2|);
      assert forall i :: 0 <= i < |c.notes| ==> Became(c.notes[i], Marked(c.notes, |out.2|)[i]);
      StatusTidy(c, out.0.conversations[found]);
      PutTidy(t, found, out.0.conversations[found], 0);
    }
  }

  lemma RenameTidy(s: Store, id: Text, name: Text, now: int, max: nat)
    requires AllTidy(s)
    ensures AllTidy(Rename(s, id, name, now, max).0)
  {
    var t := Sweep(s, now);
    SweepTidy(s, now - NOTE_RETENTION_MS, |s.conversations|, []);
    hide Sweep, Tidy, Trim, Utf8;
    var out := Rename(s, id, name, now, max);
    if out.1.Done? {
      var found := Find(t.conversations, id).value;
      QuietTidy(t, found, out.0.conversations[found], out.0.bytes - t.bytes);
    }
  }

  lemma SetTitleTidy(s: Store, id: Text, title: Text, web: bool, now: int, max: nat)
    requires AllTidy(s)
    ensures AllTidy(SetTitle(s, id, title, web, now, max).0)
  {
    var t := Observe(s, id, web, now, max);
    ObserveTidy(s, id, web, now, max, []);
    hide Observe, Tidy, Trim, TitleCut, Collapse;
    var out := SetTitle(s, id, title, web, now, max);
    if out.1 {
      var found := Find(t.conversations, id).value;
      QuietTidy(t, found, out.0.conversations[found], out.0.bytes - t.bytes);
    }
  }

  lemma ObserveSweepTidy(s: Store, id: Text, web: bool, now: int, max: nat, handle: Text)
    ensures AllTidy(s) ==> AllTidy(Sweep(Observe(s, id, web, now, max), now))
    ensures AllUnused(s, handle) ==> AllUnused(Sweep(Observe(s, id, web, now, max), now), handle)
  {
    ObserveTidy(s, id, web, now, max, handle);
    var t := Observe(s, id, web, now, max);
    SweepTidy(t, now - NOTE_RETENTION_MS, |t.conversations|, handle);
  }

  lemma SendTidy(s: Store, id: Text, message: Text, handle: Text, web: bool, now: int, max: nat)
    requires AllTidy(s)
    ensures AllTidy(SendMessage(s, id, message, handle, web, now, max).0)
  {
    var t := Sweep(Observe(s, id, web, now, max), now);
    ObserveSweepTidy(s, id, web, now, max, []);
    hide Sweep, Observe, Tidy, Utf8;
    var out := SendMessage(s, id, message, handle, web, now, max);
    if out.1.Done? {
      var found := Find(t.conversations, id).value;
      QuietTidy(t, found, out.0.conversations[found], out.0.bytes - t.bytes);
    }
  }

  lemma AskKeepsTidy(s: Store, id: Text, drafts: seq<Draft>, key: Option<Text>, handles: seq<Text>, web: bool, now: nat, max: nat)
    requires AllTidy(s) && |handles| == |drafts| + 1
    requires FreshIds(s, Asks(id, drafts, key, handles, web, now))
    ensures AllTidy(Ask(s, id, drafts, key, handles, web, now, max).0)
  {
    var t := Sweep(Observe(s, id, web, now, max), now);
    forall k | 0 <= k < |handles| ensures AllTidy(t) && AllUnused(t, handles[k]) {
      ObserveSweepTidy(s, id, web, now, max, handles[k]);
    }
    assert AllTidy(t) by { ObserveSweepTidy(s, id, web, now, max, []); }
    hide Sweep, Observe, Tidy, DraftTooLong, RequestBytes, Unused, Drafts;
    var out := Ask(s, id, drafts, key, handles, web, now, max);
    if out.0 != s && out.0 != t {
      var found := Find(t.conversations, id).value;
      var request := NewRequest(drafts, key, handles, now);
      AskTidy(t.conversations[found], request, out.0.conversations[found]);
      PutTidy(t, found, out.0.conversations[found], RequestBytes(request));
    }
  }

  lemma StepTidy(s: Store, ev: Event, max: nat)
    requires AllTidy(s) && Inv(s) && FreshIds(s, ev)
    ensures AllTidy(Step(s, ev, max))
  {
    hide Inv, AllTidy, AllUnused, Observe, Rename, SetTitle, Enqueue, SendMessage, Ask, Answer, Withdraw, Attach, Sweep;
    match ev
    case Observes(id, web, now) => ObserveTidy(s, id, web, now, max, []);
    case Renames(id, name, now) => RenameTidy(s, id, name, now, max);
    case SetsTitle(id, title, web, now) => SetTitleTidy(s, id, title, web, now, max);
    case Enqueues(id, messageId, text, now) => EnqueueTidy(s, id, messageId, text, now, max);
    case Sends(id, text, handle, web, now) => SendTidy(s, id, text, handle, web, now, max);
    case Asks(id, drafts, key, handles, web, now) =>
      if |handles| == |drafts| + 1 { AskKeepsTidy(s, id, drafts, key, handles, web, now, max); }
    case Answers(id, question, input, now) => AnswerTidy(s, id, question, input, now, max);
    case Withdraws(id, noteId, now) => WithdrawTidy(s, id, noteId, now);
    case Attaches(id, result, aborted, now) => AttachTidy(s, result, id, aborted, now);
    case Sweeps(now) => SweepOnlyTidy(s, now);
  }

  lemma SweepOnlyTidy(s: Store, now: int)
    requires AllTidy(s)
    ensures AllTidy(Sweep(s, now))
  {
    SweepTidy(s, now - NOTE_RETENTION_MS, |s.conversations|, []);
  }

  lemma EnqueueTidy(s: Store, id: Text, messageId: Text, text: Text, now: int, max: nat)
    requires AllTidy(s)
    ensures AllTidy(Enqueue(s, id, messageId, text, now, max).0)
  {
    SweepOnlyTidy(s, now);
    hide Sweep, AllTidy, InsertNote;
    var found := Find(Sweep(s, now).conversations, id);
    if found.Some? { InsertPlainTidy(Sweep(s, now), found.value, messageId, text, now, max); }
  }

  predicate RunFreshIds(s: Store, events: seq<Event>, max: nat)
    decreases |events|
  {
    events == [] || (FreshIds(s, events[0]) && RunFreshIds(Step(s, events[0], max), events[1..], max))
  }

  lemma {:induction false} RunTidy(s: Store, events: seq<Event>, max: nat)
    requires AllTidy(s) && Inv(s) && RunFreshIds(s, events, max)
    ensures AllTidy(Run(s, events, max)) && Inv(Run(s, events, max))
    decreases |events|
  {
    if events != [] {
      StepTidy(s, events[0], max);
      StepGood(s, events[0], max);
      hide Step, Inv, Next, AllTidy, FreshIds;
      RunTidy(Step(s, events[0], max), events[1..], max);
    }
  }

  /** In every reachable store two answer notes of one question are never both active, and the
      active one is the answer the question shows. */
  lemma OneActiveAnswer(events: seq<Event>, max: nat, c: Conversation, i: nat, j: nat, question: Text)
    requires RunFreshIds(Empty, events, max) && c in Run(Empty, events, max).conversations
    requires i < |c.notes| && j < |c.notes| && Active(c.notes[i], question) && Active(c.notes[j], question)
    ensures i == j
    ensures forall r, k :: 0 <= r < |c.requests| && 0 <= k < |c.requests[r].questions| && c.requests[r].questions[k].id == question ==>
      c.requests[r].questions[k].answer.Some? && c.requests[r].questions[k].answer.value.noteId == c.notes[i].id
  {
    RunTidy(Empty, events, max);
    hide Run, RunFreshIds, DistinctIds;
    assert Tidy(c);
    assert i < j ==> !BothActive(c.notes[i], c.notes[j]);
    assert j < i ==> !BothActive(c.notes[j], c.notes[i]);
    forall r, k | 0 <= r < |c.requests| && 0 <= k < |c.requests[r].questions| && c.requests[r].questions[k].id == question
      ensures c.requests[r].questions[k].answer.Some? && c.requests[r].questions[k].answer.value.noteId == c.notes[i].id
    {
      assert Linked(c.requests[r], c.notes) && Names(c.requests[r].questions[k], c.notes);
    }
  }
}
