/** Delivery over whole runs: in order, at most once, and never after a withdrawal. */
module NotesDelivery {
  import opened Jsons
  import opened NotesResponses
  import opened NotesStates

  // ---- what every reachable store looks like ----

  /** An earlier note of a queue and a later one: the later one never overtakes. */
  predicate Before(a: Note, b: Note) {
    a.sequence < b.sequence && a.id != b.id && (a.status == Pending ==> b.status != Attached)
  }

  predicate Ordered(notes: seq<Note>) {
    forall i, j :: 0 <= i < j < |notes| ==> Before(notes[i], notes[j])
  }

  predicate Numbered(notes: seq<Note>, top: nat) {
    forall i :: 0 <= i < |notes| ==> 1 <= notes[i].sequence <= top
  }

  predicate Queue(c: Conversation) {
    Ordered(c.notes) && Numbered(c.notes, c.sequence)
  }

  predicate Queues(s: Store) {
    forall i :: 0 <= i < |s.conversations| ==> Queue(s.conversations[i])
  }

  predicate Births(s: Store) {
    && (forall i :: 0 <= i < |s.conversations| ==> s.conversations[i].birth < s.births)
    && (forall i, j :: 0 <= i < j < |s.conversations| ==> s.conversations[i].birth < s.conversations[j].birth)
  }

  predicate Inv(s: Store) {
    Queues(s) && Births(s)
  }

  // ---- what a step may do to a conversation ----

  /** The note `b` is what became of `a`: its identity and text stay, and only a pending note
      changes status. */
  predicate Became(a: Note, b: Note) {
    b == a.(status := b.status) && (a.status == Pending || (a.status == b.status))
  }

  /** Whatever is still pending or yet to come in `d` was so in `c`. */
  predicate Follows(c: Conversation, d: Conversation) {
    && d.birth == c.birth && c.sequence <= d.sequence
    && forall j :: 0 <= j < |d.notes| && d.notes[j].status == Pending ==> d.notes[j] in c.notes || d.notes[j].sequence > c.sequence
  }

  predicate Next(s: Store, r: Store) {
    && s.births <= r.births
    && forall j :: 0 <= j < |r.conversations| ==>
         r.conversations[j].birth >= s.births ||
         exists i :: 0 <= i < |s.conversations| && Follows(s.conversations[i], r.conversations[j])
  }

  predicate Good(s: Store, r: Store) {
    Inv(r) && Next(s, r)
  }

  lemma FollowsSelf(c: Conversation)
    ensures Follows(c, c)
  {
  }

  lemma FollowsChain(c: Conversation, d: Conversation, e: Conversation)
    requires Follows(c, d) && Follows(d, e)
    ensures Follows(c, e)
  {
  }

  lemma GoodChain(s: Store, t: Store, r: Store)
    requires Good(s, t) && Good(t, r)
    ensures Good(s, r)
  {
    forall k | 0 <= k < |r.conversations| && r.conversations[k].birth < s.births
      ensures exists i :: 0 <= i < |s.conversations| && Follows(s.conversations[i], r.conversations[k])
    {
      var j :| 0 <= j < |t.conversations| && Follows(t.conversations[j], r.conversations[k]);
      var i :| 0 <= i < |s.conversations| && Follows(s.conversations[i], t.conversations[j]);
      FollowsChain(s.conversations[i], t.conversations[j], r.conversations[k]);
    }
  }

  lemma GoodSelf(s: Store)
    requires Inv(s)
    ensures Good(s, s)
  {
    forall j | 0 <= j < |s.conversations| ensures exists i :: 0 <= i < |s.conversations| && Follows(s.conversations[i], s.conversations[j]) {
      FollowsSelf(s.conversations[j]);
    }
  }

  lemma PutGood(s: Store, i: nat, d: Conversation, delta: int)
    requires Inv(s) && i < |s.conversations| && Follows(s.conversations[i], d) && Queue(d)
    ensures Good(s, Put(s, i, d, delta))
  {
    var r := Put(s, i, d, delta);
    hide Queue, Follows;
    forall j | 0 <= j < |r.conversations|
      ensures exists k :: 0 <= k < |s.conversations| && Follows(s.conversations[k], r.conversations[j])
    {
      FollowsSelf(s.conversations[j]);
      assert j == i ==> Follows(s.conversations[i], r.conversations[j]);
      assert j != i ==> r.conversations[j] == s.conversations[j];
    }
    assert d.birth == s.conversations[i].birth by { FollowsBirth(s.conversations[i], d); }
  }

  lemma FollowsBirth(c: Conversation, d: Conversation)
    requires Follows(c, d)
    ensures c.birth == d.birth
  {
  }

  // ---- retention ----

  lemma {:induction false} KeptMembers(notes: seq<Note>, deadline: int)
    ensures forall j :: 0 <= j < |Kept(notes, NoteStamp, deadline)| ==> Kept(notes, NoteStamp, deadline)[j] in notes
  {
    if notes != [] {
      var rest := notes[..|notes| - 1];
      KeptMembers(rest, deadline);
      assert notes == rest + [notes[|notes| - 1]];
    }
  }

  lemma {:induction false} KeptOrdered(notes: seq<Note>, deadline: int)
    requires Ordered(notes)
    ensures Ordered(Kept(notes, NoteStamp, deadline))
  {
    if notes != [] {
      var rest := notes[..|notes| - 1];
      KeptOrdered(rest, deadline);
      KeptMembers(rest, deadline);
      var kept := Kept(rest, NoteStamp, deadline);
      forall i | 0 <= i < |kept| ensures Before(kept[i], notes[|notes| - 1]) {
        assert kept[i] in rest;
      }
    }
  }

  lemma SweptGood(c: Conversation, deadline: int)
    requires Queue(c)
    ensures Queue(SweptOne(c, deadline)) && Follows(c, SweptOne(c, deadline))
  {
    KeptOrdered(c.notes, deadline);
    KeptMembers(c.notes, deadline);
    hide Ordered, Kept;
  }

  /** One of the first `n` conversations became `d`. */
  predicate Survivor(s: Store, n: nat, d: Conversation) {
    exists i :: 0 <= i < n && i < |s.conversations| && Follows(s.conversations[i], d)
  }

  predicate Survivors(s: Store, r: Store, n: nat) {
    && r.births == s.births
    && forall j :: 0 <= j < |r.conversations| ==> Survivor(s, n, r.conversations[j])
  }

  lemma SurvivorBirth(s: Store, n: nat, d: Conversation)
    requires n < |s.conversations| && Births(s) && Survivor(s, n, d)
    ensures d.birth < s.conversations[n].birth
  {
    var i :| 0 <= i < n && i < |s.conversations| && Follows(s.conversations[i], d);
    FollowsBirth(s.conversations[i], d);
  }

  lemma SurvivorMore(s: Store, n: nat, d: Conversation)
    requires n < |s.conversations| && (Survivor(s, n, d) || Follows(s.conversations[n], d))
    ensures Survivor(s, n + 1, d)
  {
  }

  lemma SurvivorsAppend(s: Store, r: Store, r': Store, n: nat, d: Conversation)
    requires n < |s.conversations| && Births(s) && Births(r) && Queues(r) && Survivors(s, r, n)
    requires Queue(d) && Follows(s.conversations[n], d)
    requires r'.conversations == r.conversations + [d] && r'.births == r.births
    ensures Births(r') && Queues(r') && Survivors(s, r', n + 1)
  {
    hide Queue, Follows, Survivor;
    FollowsBirth(s.conversations[n], d);
    forall j | 0 <= j < |r.conversations| ensures r.conversations[j].birth < d.birth {
      SurvivorBirth(s, n, r.conversations[j]);
    }
    forall j | 0 <= j < |r'.conversations| ensures Survivor(s, n + 1, r'.conversations[j]) {
      SurvivorMore(s, n, r'.conversations[j]);
    }
  }

  lemma {:induction false} SweepFromGood(s: Store, deadline: int, n: nat)
    requires Inv(s) && n <= |s.conversations|
    ensures Births(SweepFrom(s, deadline, n)) && Queues(SweepFrom(s, deadline, n))
    ensures Survivors(s, SweepFrom(s, deadline, n), n)
  {
    if n > 0 {
      var r := SweepFrom(s, deadline, n - 1);
      var c := s.conversations[n - 1];
      var d := SweptOne(c, deadline);
      SweepFromGood(s, deadline, n - 1);
      SweptGood(c, deadline);
      var all := SweepFrom(s, deadline, n);
      assert all.births == r.births && all.conversations == (if Expired(d, deadline) then r.conversations else r.conversations + [d]);
      hide *;
      InvParts(s);
      if !Expired(d, deadline) {
        SurvivorsAppend(s, r, all, n - 1, d);
      } else {
        SurvivorsStay(s, r, all, n - 1);
      }
    }
  }

  lemma InvParts(s: Store)
    requires Inv(s)
    ensures Queues(s) && Births(s)
  {
  }

  lemma SurvivorsStay(s: Store, r: Store, r': Store, n: nat)
    requires n < |s.conversations| && Births(r) && Queues(r) && Survivors(s, r, n)
    requires r'.conversations == r.conversations && r'.births == r.births
    ensures Births(r') && Queues(r') && Survivors(s, r', n + 1)
  {
    hide Queue, Follows, Survivor;
    forall j | 0 <= j < |r.conversations| ensures Survivor(s, n + 1, r.conversations[j]) {
      SurvivorMore(s, n, r.conversations[j]);
    }
  }

  lemma SweepGood(s: Store, now: int)
    requires Inv(s)
    ensures Good(s, Sweep(s, now))
  {
    SweepFromGood(s, now - NOTE_RETENTION_MS, |s.conversations|);
    hide SweepFrom, Queue, Follows;
  }

  // ---- steps ----

  lemma QuietGood(s: Store, i: nat, d: Conversation, delta: int)
    requires Inv(s) && i < |s.conversations|
    requires d.birth == s.conversations[i].birth && d.sequence == s.conversations[i].sequence && d.notes == s.conversations[i].notes
    ensures Good(s, Put(s, i, d, delta))
  {
    PutGood(s, i, d, delta);
  }

  lemma ObserveGood(s: Store, id: Text, web: bool, now: int, max: nat)
    requires Inv(s)
    ensures Good(s, Observe(s, id, web, now, max))
  {
    hide Sweep, Inv, Next;
    var t := Sweep(s, now);
    SweepGood(s, now);
    GoodSelf(s);
    if id != [] && web {
      var found := Find(t.conversations, id);
      var r := Observe(s, id, web, now, max);
      if found.Some? {
        QuietGood(t, found.value, t.conversations[found.value].(touched := now), 0);
      } else {
        GoodSelf(t);
        if r != t { NewGood(t, r, Conversation(id, t.births, [], false, now, 0, [], [], [])); }
      }
      GoodChain(s, t, r);
    }
  }

  lemma NewGood(s: Store, r: Store, d: Conversation)
    requires Inv(s) && r.conversations == s.conversations + [d] && r.births == s.births + 1
    requires d.birth == s.births && d.notes == [] && d.sequence == 0
    ensures Good(s, r)
  {
    hide Queue, Follows;
    assert Queue(d) by { EmptyQueue(d); }
    forall j | 0 <= j < |s.conversations|
      ensures exists i :: 0 <= i < |s.conversations| && Follows(s.conversations[i], r.conversations[j])
    {
      FollowsSelf(s.conversations[j]);
    }
  }

  lemma EmptyQueue(d: Conversation)
    requires d.notes == []
    ensures Queue(d)
  {
  }

  lemma InsertNoteGood(t: Store, i: nat, id: Text, text: Text, question: Option<Text>, now: int, max: nat)
    requires Inv(t) && i < |t.conversations|
    ensures Good(t, InsertNote(t, i, id, text, question, now, max).0)
  {
    hide Sweep, Next, Queues, Births;
    var r := InsertNote(t, i, id, text, question, now, max);
    GoodSelf(t);
    if r.0 != t {
      var c := t.conversations[i];
      var d := r.0.conversations[i];
      assert Queue(c) by { QueueAt(t, i); }
      AppendQueue(c, d, r.1.value);
      PutGood(t, i, d, NoteBytes(text));
    }
  }

  lemma QueueAt(s: Store, i: nat)
    requires Inv(s) && i < |s.conversations|
    ensures Queue(s.conversations[i])
  {
  }

  lemma AppendQueue(c: Conversation, d: Conversation, note: Note)
    requires Queue(c) && FindNote(c.notes, note.id).None? && note.sequence == c.sequence + 1 && note.status == Pending
    requires d.birth == c.birth && d.notes == c.notes + [note] && d.sequence == c.sequence + 1
    ensures Queue(d) && Follows(c, d)
  {
    forall i, j | 0 <= i < j < |d.notes| ensures Before(d.notes[i], d.notes[j]) {
      assert j < |c.notes| ==> Before(c.notes[i], c.notes[j]);
    }
  }

  lemma WithdrawQueue(c: Conversation, k: nat)
    requires Queue(c) && k < |c.notes| && c.notes[k].status != Attached
    ensures var d := c.(notes := c.notes[k := c.notes[k].(status := Withdrawn)]); Queue(d) && Follows(c, d)
  {
    var d := c.(notes := c.notes[k := c.notes[k].(status := Withdrawn)]);
    forall i, j | 0 <= i < j < |d.notes| ensures Before(d.notes[i], d.notes[j]) {
      assert Before(c.notes[i], c.notes[j]);
    }
  }

  lemma WithdrawGood(s: Store, id: Text, noteId: Text, now: int)
    requires Inv(s)
    ensures Good(s, Withdraw(s, id, noteId, now).0)
  {
    hide Sweep, Next, Queues, Births;
    var t := Sweep(s, now);
    SweepGood(s, now);
    var r := Withdraw(s, id, noteId, now);
    GoodSelf(t);
    if r.1.Done? {
      var found := Find(t.conversations, id).value;
      var c := t.conversations[found];
      var k := FindNote(c.notes, noteId).value;
      QueueAt(t, found);
      WithdrawQueue(c, k);
      PutGood(t, found, c.(notes := c.notes[k := c.notes[k].(status := Withdrawn)]), 0);
    }
    GoodChain(s, t, r.0);
  }

  lemma EnqueueGood(s: Store, id: Text, messageId: Text, text: Text, now: int, max: nat)
    requires Inv(s)
    ensures Good(s, Enqueue(s, id, messageId, text, now, max).0)
  {
    hide Sweep, Inv, Next, InsertNote;
    var t := Sweep(s, now);
    SweepGood(s, now);
    GoodSelf(t);
    var found := Find(t.conversations, id);
    if found.Some? { InsertNoteGood(t, found.value, messageId, text, None, now, max); }
    GoodChain(s, t, Enqueue(s, id, messageId, text, now, max).0);
  }

  lemma RenameGood(s: Store, id: Text, name: Text, now: int, max: nat)
    requires Inv(s)
    ensures Good(s, Rename(s, id, name, now, max).0)
  {
    hide Sweep, Inv, Next, Trim, Utf8;
    var t := Sweep(s, now);
    SweepGood(s, now);
    GoodSelf(t);
    var r := Rename(s, id, name, now, max);
    if r.1.Done? {
      var found := Find(t.conversations, id).value;
      var c := t.conversations[found];
      QuietGood(t, found, c.(name := Trim(name), touched := now), 2 * (|Trim(name)| - |c.name|));
    }
    GoodChain(s, t, r.0);
  }

  lemma SetTitleGood(s: Store, id: Text, title: Text, web: bool, now: int, max: nat)
    requires Inv(s)
    ensures Good(s, SetTitle(s, id, title, web, now, max).0)
  {
    hide Observe, Inv, Next, Trim, TitleCut, Collapse;
    var t := Observe(s, id, web, now, max);
    ObserveGood(s, id, web, now, max);
    GoodSelf(t);
    GoodSelf(s);
    var r := SetTitle(s, id, title, web, now, max);
    if id != [] && web {
      if r.1 {
        var found := Find(t.conversations, id).value;
        var name := TitleCut(Trim(Collapse(title)), []);
        QuietGood(t, found, t.conversations[found].(name := name, titled := true, touched := now), 2 * |name|);
      }
      GoodChain(s, t, r.0);
    }
  }

  lemma ObserveSweepGood(s: Store, id: Text, web: bool, now: int, max: nat)
    requires Inv(s)
    ensures Good(s, Sweep(Observe(s, id, web, now, max), now))
    ensures Inv(Sweep(Observe(s, id, web, now, max), now))
  {
    hide Sweep, Observe, Inv, Next;
    ObserveGood(s, id, web, now, max);
    SweepGood(Observe(s, id, web, now, max), now);
    GoodChain(s, Observe(s, id, web, now, max), Sweep(Observe(s, id, web, now, max), now));
  }

  lemma SendGood(s: Store, id: Text, message: Text, handle: Text, web: bool, now: int, max: nat)
    requires Inv(s)
    ensures Good(s, SendMessage(s, id, message, handle, web, now, max).0)
  {
    hide Sweep, Observe, Inv, Next, Utf8, NoteBytes;
    var t := Sweep(Observe(s, id, web, now, max), now);
    ObserveSweepGood(s, id, web, now, max);
    GoodSelf(t);
    GoodSelf(s);
    var r := SendMessage(s, id, message, handle, web, now, max);
    if r.0 != s {
      if r.1.Done? {
        var found := Find(t.conversations, id).value;
        var c := t.conversations[found];
        QuietGood(t, found, c.(messages := c.messages + [Message(handle, message, now)], touched := now), NoteBytes(message));
      }
      GoodChain(s, t, r.0);
    }
  }

  lemma AskGood(s: Store, id: Text, drafts: seq<Draft>, key: Option<Text>, handles: seq<Text>, web: bool, now: nat, max: nat)
    requires Inv(s) && |handles| == |drafts| + 1
    ensures Good(s, Ask(s, id, drafts, key, handles, web, now, max).0)
  {
    hide Sweep, Observe, Inv, Next, DraftTooLong, RequestBytes, NewRequest, Drafts;
    var t := Sweep(Observe(s, id, web, now, max), now);
    ObserveSweepGood(s, id, web, now, max);
    GoodSelf(t);
    GoodSelf(s);
    var r := Ask(s, id, drafts, key, handles, web, now, max);
    if r.0 != s {
      if r.0 != t {
        var found := Find(t.conversations, id).value;
        var c := t.conversations[found];
        var request := NewRequest(drafts, key, handles, now);
        QuietGood(t, found, c.(requests := c.requests + [request], touched := now), RequestBytes(request));
      }
      GoodChain(s, t, r.0);
    }
  }

  lemma InsertNoteShape(t: Store, i: nat, id: Text, text: Text, question: Option<Text>, now: int, max: nat)
    requires i < |t.conversations|
    ensures var r := InsertNote(t, i, id, text, question, now, max).0;
      |r.conversations| == |t.conversations| && r.conversations[i].requests == t.conversations[i].requests
  {
  }

  lemma CommitGood(t: Store, i: nat, r: nat, k: nat, reply: Reply, text: Text, now: nat, max: nat)
    requires Inv(t)
    requires i < |t.conversations| && r < |t.conversations[i].requests| && k < |t.conversations[i].requests[r].questions|
    ensures Good(t, Commit(t, i, r, k, reply, text, now, max).0)
  {
    var request := t.conversations[i].requests[r];
    var inserted := InsertNote(t, i, reply.noteId, text, Some(request.questions[k].id), now, max);
    hide Inv, Next, InsertNote, RequestBytes, Answered;
    InsertNoteGood(t, i, reply.noteId, text, Some(request.questions[k].id), now, max);
    GoodSelf(t);
    var out := Commit(t, i, r, k, reply, text, now, max);
    InsertNoteShape(t, i, reply.noteId, text, Some(request.questions[k].id), now, max);
    if out.1.Done? {
      var c := inserted.0.conversations[i];
      var replacement := Answered(request, k, reply, now);
      QuietGood(inserted.0, i, c.(requests := c.requests[r := replacement]), RequestBytes(replacement) - RequestBytes(request));
      GoodChain(t, inserted.0, out.0);
    }
  }

  lemma AnswerGood(s: Store, id: Text, question: Text, input: Submission, now: nat, max: nat)
    requires Inv(s)
    ensures Good(s, Answer(s, id, question, input, now, max).0)
  {
    hide Sweep, Inv, Next, Commit, FormatUserAnswer, TextTooLong, QuestionPending, Trim;
    var t := Sweep(s, now);
    SweepGood(s, now);
    GoodSelf(t);
    var r := Answer(s, id, question, input, now, max);
    if r.0 != t {
      var found := Find(t.conversations, id);
      var c := t.conversations[found.value];
      var at := FindRequest(c.requests, question);
      var request := c.requests[at.value];
      var k := FindQuestion(request.questions, question).value;
      var q := request.questions[k];
      var text := FormatUserAnswer(q.title, q.options, input.option, input.note);
      CommitGood(t, found.value, at.value, k, Reply(input.option, input.note, ReplyNoteId(q.id, input.submission), now), text, now, max);
    }
    GoodChain(s, t, r.0);
  }

  // ---- attach ----

  lemma {:induction false} MarkedBecame(notes: seq<Note>, k: nat)
    ensures forall i :: 0 <= i < |notes| ==> Became(notes[i], Marked(notes, k)[i])
  {
    if notes != [] && k > 0 {
      var rest := if notes[0].status == Pending then k - 1 else k;
      MarkedBecame(notes[1..], rest);
      assert Marked(notes, k)[1..] == Marked(notes[1..], rest);
    }
  }

  /** Behind the first note that stays pending nothing is marked. */
  lemma {:induction false} MarkedStops(notes: seq<Note>, k: nat, i: nat, j: nat)
    requires i < j < |notes| && Marked(notes, k)[i].status == Pending
    ensures Marked(notes, k)[j] == notes[j]
  {
    if k > 0 {
      if i > 0 {
        MarkedStops(notes[1..], if notes[0].status == Pending then k - 1 else k, i - 1, j - 1);
      }
    }
  }

  lemma MarkedQueue(c: Conversation, k: nat)
    requires Queue(c)
    ensures var d := c.(notes := Marked(c.notes, k)); Queue(d) && Follows(c, d)
  {
    var d := c.(notes := Marked(c.notes, k));
    MarkedBecame(c.notes, k);
    forall i, j | 0 <= i < j < |d.notes| ensures Before(d.notes[i], d.notes[j]) {
      assert Before(c.notes[i], c.notes[j]) && Became(c.notes[i], d.notes[i]) && Became(c.notes[j], d.notes[j]);
      if d.notes[i].status == Pending { MarkedStops(c.notes, k, i, j); }
    }
    forall j | 0 <= j < |d.notes| ensures d.notes[j].sequence == c.notes[j].sequence && (d.notes[j].status == Pending ==> d.notes[j] == c.notes[j]) {
      assert Became(c.notes[j], d.notes[j]);
    }
  }

  lemma AttachGood(s: Store, result: Response, id: Text, aborted: bool, now: int)
    requires Inv(s)
    ensures Good(s, Attach(s, result, id, aborted, now).0)
  {
    hide Sweep, Next, Queues, Births, Waiting, Delivery, Deliver, PayloadBytes;
    var t := Sweep(s, now);
    SweepGood(s, now);
    GoodSelf(t);
    GoodSelf(s);
    var r := Attach(s, result, id, aborted, now);
    if r.2 != [] {
      var found := Find(t.conversations, id).value;
      var c := t.conversations[found];
      QueueAt(t, found);
      MarkedQueue(c, |r.2|);
      PutGood(t, found, c.(notes := Marked(c.notes, |r.2|)), 0);
    }
    if r.0 != s { GoodChain(s, t, r.0); }
  }

  lemma StepGood(s: Store, ev: Event, max: nat)
    requires Inv(s)
    ensures Good(s, Step(s, ev, max))
  {
    hide Inv, Next, Observe, Rename, SetTitle, Enqueue, SendMessage, Ask, Answer, Withdraw, Attach, Sweep;
    match ev
    case Observes(id, web, now) => ObserveGood(s, id, web, now, max);
    case Renames(id, name, now) => RenameGood(s, id, name, now, max);
    case SetsTitle(id, title, web, now) => SetTitleGood(s, id, title, web, now, max);
    case Enqueues(id, messageId, text, now) => EnqueueGood(s, id, messageId, text, now, max);
    case Sends(id, text, handle, web, now) => SendGood(s, id, text, handle, web, now, max);
    case Asks(id, drafts, key, handles, web, now) =>
      GoodSelf(s);
      if |handles| == |drafts| + 1 { AskGood(s, id, drafts, key, handles, web, now, max); }
    case Answers(id, question, input, now) => AnswerGood(s, id, question, input, now, max);
    case Withdraws(id, noteId, now) => WithdrawGood(s, id, noteId, now);
    case Attaches(id, result, aborted, now) => AttachGood(s, result, id, aborted, now);
    case Sweeps(now) => SweepGood(s, now);
  }

  // ---- the log of deliveries ----

  function DeliveredBy(s: Store, ev: Event): seq<Mark> {
    if ev.Attaches? then Attach(s, ev.result, ev.id, ev.aborted, ev.now).2 else []
  }

  /** Every delivery of a run, oldest first. */
  function Log(s: Store, events: seq<Event>, max: nat): seq<Mark>
    decreases |events|
  {
    if events == [] then [] else DeliveredBy(s, events[0]) + Log(Step(s, events[0], max), events[1..], max)
  }

  /** The note may still be delivered: it waits in its conversation, or it does not exist yet. */
  predicate Open(s: Store, m: Mark) {
    m.birth >= s.births ||
    exists i :: 0 <= i < |s.conversations| && OpenIn(s.conversations[i], m)
  }

  predicate OpenIn(c: Conversation, m: Mark) {
    c.birth == m.birth && m.note.status == Pending && (m.note.sequence > c.sequence || m.note in c.notes)
  }

  lemma OpenBack(s: Store, r: Store, m: Mark)
    requires Good(s, r) && Open(r, m)
    ensures Open(s, m)
  {
    if m.birth < s.births {
      var j :| 0 <= j < |r.conversations| && OpenIn(r.conversations[j], m);
      var d := r.conversations[j];
      var i :| 0 <= i < |s.conversations| && Follows(s.conversations[i], d);
      if m.note in d.notes {
        var x :| 0 <= x < |d.notes| && d.notes[x] == m.note;
      }
      assert OpenIn(s.conversations[i], m);
    }
  }

  lemma {:induction false} WaitingMembers(notes: seq<Note>)
    ensures forall x :: 0 <= x < |Waiting(notes)| ==> Waiting(notes)[x] in notes
  {
    if notes != [] { WaitingMembers(notes[1..]); }
  }

  lemma {:induction false} WaitingOrdered(notes: seq<Note>)
    requires Ordered(notes)
    ensures forall x, y :: 0 <= x < y < |Waiting(notes)| ==> Waiting(notes)[x].sequence < Waiting(notes)[y].sequence
  {
    if notes != [] {
      OrderedRest(notes);
      WaitingOrdered(notes[1..]);
      WaitingMembers(notes[1..]);
    }
  }

  lemma OrderedRest(notes: seq<Note>)
    requires Ordered(notes) && notes != []
    ensures Ordered(notes[1..])
    ensures forall n :: n in notes[1..] ==> Before(notes[0], n)
  {
    forall i, j | 0 <= i < j < |notes[1..]| ensures Before(notes[1..][i], notes[1..][j]) {
      assert notes[1..][i] == notes[i + 1] && notes[1..][j] == notes[j + 1];
    }
  }

  /** What stays pending lies behind everything that was delivered. */
  lemma {:induction false} DeliveredBelow(notes: seq<Note>, k: nat, x: nat, j: nat)
    requires Ordered(notes) && x < k <= |Waiting(notes)| && j < |notes| && Marked(notes, k)[j].status == Pending
    ensures Waiting(notes)[x].sequence < notes[j].sequence
  {
    OrderedRest(notes);
    if notes[0].status == Pending {
      assert Waiting(notes)[x] in notes by { WaitingMembers(notes); }
      if x == 0 {
        assert Before(notes[0], notes[j]);
      } else {
        DeliveredBelow(notes[1..], k - 1, x - 1, j - 1);
      }
    } else if j > 0 {
      DeliveredBelow(notes[1..], k, x, j - 1);
    }
  }

  lemma DeliveredOpen(s: Store, ev: Event, max: nat, x: nat)
    requires Inv(s) && x < |DeliveredBy(s, ev)|
    ensures Open(s, DeliveredBy(s, ev)[x])
    ensures Inv(Step(s, ev, max))
  {
    StepGood(s, ev, max);
    var t := Sweep(s, ev.now);
    SweepGood(s, ev.now);
    hide Sweep, Delivery, Deliver, PayloadBytes, Inv, Next, Step;
    var found := Find(t.conversations, ev.id).value;
    var c := t.conversations[found];
    WaitingMembers(c.notes);
    var m := DeliveredBy(s, ev)[x];
    assert OpenIn(c, m);
    OpenBack(s, t, m);
  }

  /** A later delivery from the same conversation lies behind every earlier one. */
  lemma LaterAbove(s: Store, ev: Event, max: nat, x: nat, m: Mark)
    requires Inv(s) && x < |DeliveredBy(s, ev)| && Open(Step(s, ev, max), m)
    requires m.birth == DeliveredBy(s, ev)[x].birth
    ensures DeliveredBy(s, ev)[x].note.sequence < m.note.sequence
  {
    var r := Step(s, ev, max);
    StepGood(s, ev, max);
    var t := Sweep(s, ev.now);
    SweepGood(s, ev.now);
    hide Sweep, Delivery, Deliver, PayloadBytes;
    var found := Find(t.conversations, ev.id).value;
    var c := t.conversations[found];
    var k := |DeliveredBy(s, ev)|;
    var d := c.(notes := Marked(c.notes, k));
    assert r == Put(t, found, d, 0);
    hide Step;
    WaitingMembers(c.notes);
    var n := Waiting(c.notes)[x];
    assert n in c.notes && n.sequence <= c.sequence by { QueueAt(t, found); }
    assert c.birth == m.birth && d in r.conversations && r.conversations[found] == d;
    OnlyOne(r, found, m);
    if m.note.sequence <= c.sequence {
      var j :| 0 <= j < |d.notes| && d.notes[j] == m.note;
      QueueAt(t, found);
      MarkedBecame(c.notes, k);
      assert Became(c.notes[j], d.notes[j]);
      DeliveredBelow(c.notes, k, x, j);
    }
  }

  lemma OnlyOne(r: Store, i: nat, m: Mark)
    requires Inv(r) && Open(r, m) && i < |r.conversations| && r.conversations[i].birth == m.birth
    ensures OpenIn(r.conversations[i], m)
  {
    var j :| 0 <= j < |r.conversations| && OpenIn(r.conversations[j], m);
    assert i == j;
  }

  lemma GoodInv(s: Store, r: Store)
    requires Good(s, r)
    ensures Inv(r)
  {
  }

  lemma LogStep(s: Store, events: seq<Event>, max: nat)
    ensures events == [] ==> Log(s, events, max) == []
    ensures events != [] ==>
      Log(s, events, max) == DeliveredBy(s, events[0]) + Log(Step(s, events[0], max), events[1..], max)
  {
    hide Step, DeliveredBy;
  }

  lemma {:induction false} LogOpen(s: Store, events: seq<Event>, max: nat, x: nat)
    requires Inv(s) && x < |Log(s, events, max)|
    ensures Open(s, Log(s, events, max)[x])
    decreases |events|
  {
    hide *;
    LogStep(s, events, max);
    var first := DeliveredBy(s, events[0]);
    var r := Step(s, events[0], max);
    StepGood(s, events[0], max);
    GoodInv(s, r);
    if x < |first| {
      DeliveredOpen(s, events[0], max, x);
    } else {
      LogOpen(r, events[1..], max, x - |first|);
      OpenBack(s, r, Log(s, events, max)[x]);
    }
  }

  lemma DeliveredSorted(s: Store, ev: Event, x: nat, y: nat)
    requires Inv(s) && x < y < |DeliveredBy(s, ev)|
    ensures DeliveredBy(s, ev)[x].note.sequence < DeliveredBy(s, ev)[y].note.sequence
  {
    var t := Sweep(s, ev.now);
    SweepGood(s, ev.now);
    hide Sweep, Delivery, Deliver, PayloadBytes;
    var found := Find(t.conversations, ev.id).value;
    QueueAt(t, found);
    WaitingOrdered(t.conversations[found].notes);
  }

  predicate Later(a: Mark, b: Mark) {
    a.birth == b.birth ==> a.note.sequence < b.note.sequence
  }

  predicate InOrder(log: seq<Mark>) {
    forall x, y :: 0 <= x < y < |log| ==> Later(log[x], log[y])
  }

  lemma InOrderConcat(a: seq<Mark>, b: seq<Mark>)
    requires InOrder(a) && InOrder(b)
    requires forall x, y :: 0 <= x < |a| && 0 <= y < |b| ==> Later(a[x], b[y])
    ensures InOrder(a + b)
  {
    hide Later;
  }

  /** Over any run the notes of one conversation are delivered in the order of their submission,
      so none is delivered twice. */
  lemma {:induction false} DeliveredInOrder(s: Store, events: seq<Event>, max: nat)
    requires Inv(s)
    ensures InOrder(Log(s, events, max))
    decreases |events|
  {
    if events != [] {
      var ev := events[0];
      var first := DeliveredBy(s, ev);
      var r := Step(s, ev, max);
      var rest := Log(r, events[1..], max);
      StepGood(s, ev, max);
      hide Step, DeliveredBy, Inv, Next, Open;
      DeliveredInOrder(r, events[1..], max);
      forall x, y | 0 <= x < y < |first| ensures Later(first[x], first[y]) {
        DeliveredSorted(s, ev, x, y);
      }
      forall x, y | 0 <= x < |first| && 0 <= y < |rest| ensures Later(first[x], rest[y]) {
        LogOpen(r, events[1..], max, y);
        if first[x].birth == rest[y].birth { LaterAbove(s, ev, max, x, rest[y]); }
      }
      InOrderConcat(first, rest);
    }
  }

  lemma ClosedNotOpen(c: Conversation, j: nat, m: Mark)
    requires Queue(c) && j < |c.notes| && c.notes[j].status != Pending && OpenIn(c, m)
    ensures m.note.sequence != c.notes[j].sequence
  {
    if m.note.sequence <= c.sequence {
      var k :| 0 <= k < |c.notes| && c.notes[k] == m.note;
      assert k < j ==> Before(c.notes[k], c.notes[j]);
      assert j < k ==> Before(c.notes[j], c.notes[k]);
    }
  }

  /** A withdrawn note, and likewise one already attached, is in no later delivery. */
  lemma WithdrawnNeverDelivered(s: Store, events: seq<Event>, max: nat, i: nat, j: nat, m: Mark)
    requires Inv(s) && i < |s.conversations| && j < |s.conversations[i].notes| && s.conversations[i].notes[j].status != Pending
    requires m in Log(s, events, max) && m.birth == s.conversations[i].birth
    ensures m.note.sequence != s.conversations[i].notes[j].sequence
  {
    hide Log, Open, OpenIn, Queue, Births;
    var log := Log(s, events, max);
    var x :| 0 <= x < |log| && log[x] == m;
    LogOpen(s, events, max, x);
    OnlyOne(s, i, m);
    QueueAt(s, i);
    ClosedNotOpen(s.conversations[i], j, m);
  }

  /** The reachable stores. */
  lemma {:induction false} RunKeepsOrder(s: Store, events: seq<Event>, max: nat)
    requires Inv(s)
    ensures Inv(Run(s, events, max))
    decreases |events|
  {
    if events != [] {
      StepGood(s, events[0], max);
      hide Step, Inv, Next;
      RunKeepsOrder(Step(s, events[0], max), events[1..], max);
    }
  }

  /** In every reachable conversation each attached note was submitted before each pending one. */
  lemma AttachedBelowPending(events: seq<Event>, max: nat, c: Conversation, a: Note, p: Note)
    requires c in Run(Empty, events, max).conversations && a in c.notes && p in c.notes
    requires a.status == Attached && p.status == Pending
    ensures a.sequence < p.sequence
  {
    RunKeepsOrder(Empty, events, max);
    assert Queue(c);
    var i :| 0 <= i < |c.notes| && c.notes[i] == a;
    var j :| 0 <= j < |c.notes| && c.notes[j] == p;
    assert j < i ==> Before(c.notes[j], c.notes[i]);
    assert i < j ==> Before(c.notes[i], c.notes[j]);
  }

  /** `attach` either returns the original result and only sweeps, or delivers the longest run
      of waiting notes that fits: the response then differs, stays within 37,000 bytes and exactly
      these notes become attached. */
  lemma AttachDelivers(s: Store, result: Response, id: Text, aborted: bool, now: int)
    ensures var (r, response, marks) := Attach(s, result, id, aborted, now);
      && (marks == [] ==> response == result && (r == s || r == Sweep(s, now)))
      && (marks != [] ==> response != result && ModelTextBytes(response) <= NOTES_RESPONSE_BYTES)
  {
    hide Sweep;
    var (r, response, marks) := Attach(s, result, id, aborted, now);
    if marks != [] {
      var t := Sweep(s, now);
      var c := t.conversations[Find(t.conversations, id).value];
      var w := TextsOf(Waiting(c.notes));
      DeliveryFits(result, w);
      DeliverBytes(c, result, |marks|);
    }
  }

  lemma DeliverBytes(c: Conversation, result: Response, k: nat)
    requires 0 < k <= |Waiting(c.notes)|
    requires ModelTextBytes(Build(result, TextsOf(Waiting(c.notes))[..k])) <= NOTES_RESPONSE_BYTES
    ensures ModelTextBytes(Deliver(c, result, k)) <= NOTES_RESPONSE_BYTES
    ensures Deliver(c, result, k) != result
  {
    var notes := TextsOf(Waiting(c.notes))[..k];
    var built := Build(result, notes);
    BuildChanges(result, notes);
    TextBytesAppend(built.content, TextItem(TitleReminder(), [], false));
    if result.structured.None? { assert |built.content| > |result.content|; }
  }

  /** After a result that is within the model's limit, the response is within the budget too. */
  lemma AttachStaysWithin(s: Store, result: Response, id: Text, aborted: bool, now: int)
    requires ModelTextBytes(result) <= 36_000
    ensures ModelTextBytes(Attach(s, result, id, aborted, now).1) <= NOTES_RESPONSE_BYTES
  {
    AttachDelivers(s, result, id, aborted, now);
    hide ModelTextBytes, Attach;
  }
}
