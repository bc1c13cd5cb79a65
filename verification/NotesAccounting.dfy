/** The store's running byte count is the recomputed sum, and it stays within the budget. */
module NotesAccounting {
  import opened Jsons
  import opened NotesResponses
  import opened NotesStates

  predicate Exact(s: Store) {
    s.bytes == Sum(s.conversations, ConversationBytes)
  }

  predicate Accounted(s: Store, max: nat) {
    Exact(s) && s.bytes <= max
  }

  // ---- sums ----

  lemma SumAppend<T>(xs: seq<T>, x: T, cost: T -> nat)
    ensures Sum(xs + [x], cost) == Sum(xs, cost) + cost(x)
  {
    assert (xs + [x])[..|xs|] == xs;
  }

  lemma {:induction false} SumUpdate<T>(xs: seq<T>, i: nat, x: T, cost: T -> nat)
    requires i < |xs|
    ensures Sum(xs[i := x], cost) + cost(xs[i]) == Sum(xs, cost) + cost(x)
  {
    var ys := xs[i := x];
    if i == |xs| - 1 {
      assert ys[..i] == xs[..i];
    } else {
      assert ys[..|xs| - 1] == xs[..|xs| - 1][i := x];
      SumUpdate(xs[..|xs| - 1], i, x, cost);
    }
  }

  lemma {:induction false} KeptFreed<T>(xs: seq<T>, stamp: T -> int, deadline: int, cost: T -> nat)
    ensures Sum(Kept(xs, stamp, deadline), cost) + Freed(xs, stamp, deadline, cost) == Sum(xs, cost)
  {
    if xs != [] {
      var kept := Kept(xs[..|xs| - 1], stamp, deadline);
      KeptFreed(xs[..|xs| - 1], stamp, deadline, cost);
      SumAppend(kept, xs[|xs| - 1], cost);
      assert kept + [] == kept;
    }
  }

  // ---- steps ----

  lemma SweptOneBytes(c: Conversation, deadline: int)
    ensures ConversationBytes(SweptOne(c, deadline)) + FreedBytes(c, deadline) == ConversationBytes(c)
  {
    hide Sum, Kept, Freed;
    KeptFreed(c.notes, NoteStamp, deadline, NoteCost);
    KeptFreed(c.requests, RequestStamp, deadline, RequestBytes);
    KeptFreed(c.messages, MessageStamp, deadline, MessageCost);
  }

  lemma ExpiredBytes(c: Conversation, deadline: int)
    requires Expired(c, deadline)
    ensures ConversationBytes(c) == ProfileBytes(c.name)
  {
  }

  lemma {:induction false} SweepFromBytes(s: Store, deadline: int, n: nat)
    requires n <= |s.conversations|
    ensures var r := SweepFrom(s, deadline, n);
      s.bytes - r.bytes == Sum(s.conversations[..n], ConversationBytes) - Sum(r.conversations, ConversationBytes)
    ensures SweepFrom(s, deadline, n).bytes <= s.bytes
    ensures SweepFrom(s, deadline, n).births == s.births
  {
    hide *;
    if n > 0 {
      SweepFromBytes(s, deadline, n - 1);
      SweepNext(s, deadline, n);
    } else {
      SweepNothing(s, deadline);
    }
  }

  lemma SweepNothing(s: Store, deadline: int)
    ensures SweepFrom(s, deadline, 0) == s.(conversations := [])
    ensures Sum([], ConversationBytes) == 0 && s.conversations[..0] == []
  {
  }

  lemma SweepNext(s: Store, deadline: int, n: nat)
    requires 0 < n <= |s.conversations|
    ensures var r, t := SweepFrom(s, deadline, n - 1), SweepFrom(s, deadline, n);
      && t.births == r.births && t.bytes <= r.bytes
      && r.bytes - t.bytes == Sum(s.conversations[..n], ConversationBytes) - Sum(s.conversations[..n - 1], ConversationBytes)
                              + Sum(r.conversations, ConversationBytes) - Sum(t.conversations, ConversationBytes)
  {
    hide SweptOne, FreedBytes, ConversationBytes, Expired, Sum;
    var r := SweepFrom(s, deadline, n - 1);
    var c := s.conversations[n - 1];
    var d := SweptOne(c, deadline);
    SweptOneBytes(c, deadline);
    SweptName(c, deadline);
    assert s.conversations[..n] == s.conversations[..n - 1] + [c];
    SumAppend(s.conversations[..n - 1], c, ConversationBytes);
    SumAppend(r.conversations, d, ConversationBytes);
    if Expired(d, deadline) { ExpiredBytes(d, deadline); }
  }

  lemma SweptName(c: Conversation, deadline: int)
    ensures SweptOne(c, deadline).name == c.name
  {
    hide Kept;
  }

  lemma SweepKeeps(s: Store, now: int, max: nat)
    ensures Sweep(s, now).bytes <= s.bytes
    ensures Exact(s) ==> Exact(Sweep(s, now))
    ensures Accounted(s, max) ==> Accounted(Sweep(s, now), max)
  {
    hide SweepFrom;
    assert s.conversations[..|s.conversations|] == s.conversations;
    SweepFromBytes(s, now - NOTE_RETENTION_MS, |s.conversations|);
  }

  lemma PutKeeps(s: Store, i: nat, c: Conversation, delta: int, max: nat)
    requires Exact(s) && i < |s.conversations| && s.bytes + delta <= max
    requires ConversationBytes(c) == ConversationBytes(s.conversations[i]) + delta
    ensures Accounted(Put(s, i, c, delta), max)
  {
    SumUpdate(s.conversations, i, c, ConversationBytes);
  }

  lemma ObserveKeeps(s: Store, id: Text, web: bool, now: int, max: nat)
    requires Accounted(s, max)
    ensures Accounted(Observe(s, id, web, now, max), max)
  {
    var t := Sweep(s, now);
    SweepKeeps(s, now, max);
    hide Sweep;
    var found := Find(t.conversations, id);
    if found.Some? {
      PutKeeps(t, found.value, t.conversations[found.value].(touched := now), 0, max);
    } else {
      SumAppend(t.conversations, Conversation(id, t.births, [], false, now, 0, [], [], []), ConversationBytes);
    }
  }

  lemma RenameKeeps(s: Store, id: Text, name: Text, now: int, max: nat)
    requires Accounted(s, max)
    ensures Accounted(Rename(s, id, name, now, max).0, max)
  {
    var t := Sweep(s, now);
    SweepKeeps(s, now, max);
    hide Sweep;
    var found := Find(t.conversations, id);
    if Rename(s, id, name, now, max).1.Done? {
      var c := t.conversations[found.value];
      var next := Trim(name);
      PutKeeps(t, found.value, c.(name := next, touched := now), 2 * (|next| - |c.name|), max);
    }
  }

  lemma SetTitleKeeps(s: Store, id: Text, title: Text, web: bool, now: int, max: nat)
    requires Accounted(s, max)
    ensures Accounted(SetTitle(s, id, title, web, now, max).0, max)
  {
    var t := Observe(s, id, web, now, max);
    ObserveKeeps(s, id, web, now, max);
    hide Observe;
    if SetTitle(s, id, title, web, now, max).1 {
      var found := Find(t.conversations, id);
      var name := TitleCut(Trim(Collapse(title)), []);
      PutKeeps(t, found.value, t.conversations[found.value].(name := name, titled := true, touched := now), 2 * |name|, max);
    }
  }

  lemma InsertNoteKeeps(t: Store, i: nat, id: Text, text: Text, question: Option<Text>, now: int, max: nat)
    requires Accounted(t, max) && i < |t.conversations|
    ensures Accounted(InsertNote(t, i, id, text, question, now, max).0, max)
  {
    var r := InsertNote(t, i, id, text, question, now, max);
    if r.0 != t {
      var c := t.conversations[i];
      SumAppend(c.notes, r.1.value, NoteCost);
      PutKeeps(t, i, r.0.conversations[i], NoteBytes(text), max);
    }
  }

  lemma SendKeeps(s: Store, id: Text, message: Text, handle: Text, web: bool, now: int, max: nat)
    requires Accounted(s, max)
    ensures Accounted(SendMessage(s, id, message, handle, web, now, max).0, max)
  {
    ObserveKeeps(s, id, web, now, max);
    var t := Sweep(Observe(s, id, web, now, max), now);
    SweepKeeps(Observe(s, id, web, now, max), now, max);
    hide Sweep, Observe;
    if SendMessage(s, id, message, handle, web, now, max).1.Done? {
      var found := Find(t.conversations, id);
      var c := t.conversations[found.value];
      SumAppend(c.messages, Message(handle, message, now), MessageCost);
      PutKeeps(t, found.value, c.(messages := c.messages + [Message(handle, message, now)], touched := now), NoteBytes(message), max);
    }
  }

  /** An `ask` either leaves the swept store or adds one request to it. */
  lemma AskCases(s: Store, id: Text, drafts: seq<Draft>, key: Option<Text>, handles: seq<Text>, web: bool, now: nat, max: nat)
    requires |handles| == |drafts| + 1
    ensures var t := Sweep(Observe(s, id, web, now, max), now);
      var r := Ask(s, id, drafts, key, handles, web, now, max).0;
      var request := NewRequest(drafts, key, handles, now);
      r == s || r == t ||
      exists i :: 0 <= i < |t.conversations| && t.bytes + RequestBytes(request) <= max &&
        r == Put(t, i, WithRequest(t.conversations[i], request, now), RequestBytes(request))
  {
    hide Sweep, Observe, DraftTooLong, RequestBytes, NewRequest, Drafts;
  }

  function WithRequest(c: Conversation, request: Request, now: nat): Conversation {
    c.(requests := c.requests + [request], touched := now)
  }

  lemma AskKeeps(s: Store, id: Text, drafts: seq<Draft>, key: Option<Text>, handles: seq<Text>, web: bool, now: nat, max: nat)
    requires Accounted(s, max) && |handles| == |drafts| + 1
    ensures Accounted(Ask(s, id, drafts, key, handles, web, now, max).0, max)
  {
    hide Sweep, Observe, Ask, RequestBytes, NewRequest, Sum;
    AskCases(s, id, drafts, key, handles, web, now, max);
    ObserveKeeps(s, id, web, now, max);
    var t := Sweep(Observe(s, id, web, now, max), now);
    SweepKeeps(Observe(s, id, web, now, max), now, max);
    var r := Ask(s, id, drafts, key, handles, web, now, max).0;
    var request := NewRequest(drafts, key, handles, now);
    if r != s && r != t {
      var i :| 0 <= i < |t.conversations| && t.bytes + RequestBytes(request) <= max &&
        r == Put(t, i, WithRequest(t.conversations[i], request, now), RequestBytes(request));
      SumAppend(t.conversations[i].requests, request, RequestBytes);
      PutKeeps(t, i, WithRequest(t.conversations[i], request, now), RequestBytes(request), max);
    }
  }

  /** The first check covers note and question together, although the note is added first. */
  lemma CommitKeeps(t: Store, i: nat, r: nat, k: nat, reply: Reply, text: Text, now: nat, max: nat)
    requires Accounted(t, max)
    requires i < |t.conversations| && r < |t.conversations[i].requests| && k < |t.conversations[i].requests[r].questions|
    requires FindNote(t.conversations[i].notes, reply.noteId).None?
    ensures Accounted(Commit(t, i, r, k, reply, text, now, max).0, max)
  {
    var request := t.conversations[i].requests[r];
    var replacement := Answered(request, k, reply, now);
    var inserted := InsertNote(t, i, reply.noteId, text, Some(request.questions[k].id), now, max);
    InsertNoteKeeps(t, i, reply.noteId, text, Some(request.questions[k].id), now, max);
    hide RequestBytes, Answered;
    if Commit(t, i, r, k, reply, text, now, max).1.Done? {
      var m := inserted.0;
      var c := m.conversations[i];
      assert c.requests == t.conversations[i].requests && m.bytes == t.bytes + NoteBytes(text);
      SumUpdate(c.requests, r, replacement, RequestBytes);
      PutKeeps(m, i, c.(requests := c.requests[r := replacement]), RequestBytes(replacement) - RequestBytes(request), max);
    }
  }

  lemma AnswerKeeps(s: Store, id: Text, question: Text, input: Submission, now: nat, max: nat)
    requires Accounted(s, max)
    ensures Accounted(Answer(s, id, question, input, now, max).0, max)
  {
    var t := Sweep(s, now);
    SweepKeeps(s, now, max);
    hide Sweep, Commit, FormatUserAnswer, TextTooLong, QuestionPending;
    var found := Find(t.conversations, id);
    if found.Some? {
      var c := t.conversations[found.value];
      var at := FindRequest(c.requests, question);
      if at.Some? && Answer(s, id, question, input, now, max).0 != t {
        var request := c.requests[at.value];
        var k := FindQuestion(request.questions, question).value;
        var q := request.questions[k];
        var text := FormatUserAnswer(q.title, q.options, input.option, input.note);
        CommitKeeps(t, found.value, at.value, k, Reply(input.option, input.note, ReplyNoteId(q.id, input.submission), now), text, now, max);
      }
    }
  }

  lemma WithdrawKeeps(s: Store, id: Text, noteId: Text, now: int, max: nat)
    requires Accounted(s, max)
    ensures Accounted(Withdraw(s, id, noteId, now).0, max)
  {
    var t := Sweep(s, now);
    SweepKeeps(s, now, max);
    hide Sweep;
    var found := Find(t.conversations, id);
    if Withdraw(s, id, noteId, now).1.Done? {
      var c := t.conversations[found.value];
      var k := FindNote(c.notes, noteId).value;
      SumUpdate(c.notes, k, c.notes[k].(status := Withdrawn), NoteCost);
      PutKeeps(t, found.value, c.(notes := c.notes[k := c.notes[k].(status := Withdrawn)]), 0, max);
    }
  }

  lemma {:induction false} SameTextsSameSum(a: seq<Note>, b: seq<Note>)
    requires |a| == |b| && forall i :: 0 <= i < |a| ==> a[i].text == b[i].text
    ensures Sum(a, NoteCost) == Sum(b, NoteCost)
  {
    if a != [] { SameTextsSameSum(a[..|a| - 1], b[..|b| - 1]); }
  }

  lemma {:induction false} MarkedTexts(notes: seq<Note>, k: nat)
    ensures forall i :: 0 <= i < |notes| ==> Marked(notes, k)[i].text == notes[i].text
  {
    if notes != [] && k > 0 {
      MarkedTexts(notes[1..], if notes[0].status == Pending then k - 1 else k);
    }
  }

  lemma AttachKeeps(s: Store, result: Response, id: Text, aborted: bool, now: int, max: nat)
    requires Accounted(s, max)
    ensures Accounted(Attach(s, result, id, aborted, now).0, max)
  {
    var t := Sweep(s, now);
    SweepKeeps(s, now, max);
    hide Sweep, Delivery, Deliver, PayloadBytes, Waiting;
    var r := Attach(s, result, id, aborted, now);
    if r.2 != [] {
      var found := Find(t.conversations, id).value;
      var c := t.conversations[found];
      MarkedTexts(c.notes, |r.2|);
      SameTextsSameSum(c.notes, Marked(c.notes, |r.2|));
      PutKeeps(t, found, c.(notes := Marked(c.notes, |r.2|)), 0, max);
    }
  }

  lemma StepAccounted(s: Store, ev: Event, max: nat)
    requires Accounted(s, max)
    ensures Accounted(Step(s, ev, max), max)
  {
    hide Accounted, Observe, Rename, SetTitle, Enqueue, SendMessage, Ask, Answer, Withdraw, Attach, Sweep;
    match ev
    case Observes(id, web, now) => ObserveKeeps(s, id, web, now, max);
    case Renames(id, name, now) => RenameKeeps(s, id, name, now, max);
    case SetsTitle(id, title, web, now) => SetTitleKeeps(s, id, title, web, now, max);
    case Enqueues(id, messageId, text, now) => EnqueueKeeps(s, id, messageId, text, now, max);
    case Sends(id, text, handle, web, now) => SendKeeps(s, id, text, handle, web, now, max);
    case Asks(id, drafts, key, handles, web, now) =>
      if |handles| == |drafts| + 1 { AskKeeps(s, id, drafts, key, handles, web, now, max); }
    case Answers(id, question, input, now) => AnswerKeeps(s, id, question, input, now, max);
    case Withdraws(id, noteId, now) => WithdrawKeeps(s, id, noteId, now, max);
    case Attaches(id, result, aborted, now) => AttachKeeps(s, result, id, aborted, now, max);
    case Sweeps(now) => SweepKeeps(s, now, max);
  }

  lemma EnqueueKeeps(s: Store, id: Text, messageId: Text, text: Text, now: int, max: nat)
    requires Accounted(s, max)
    ensures Accounted(Enqueue(s, id, messageId, text, now, max).0, max)
  {
    SweepKeeps(s, now, max);
    hide Sweep;
    var found := Find(Sweep(s, now).conversations, id);
    if found.Some? { InsertNoteKeeps(Sweep(s, now), found.value, messageId, text, None, now, max); }
  }

  /** In every reachable state the counter is exact and the budget holds. */
  lemma {:induction false} RunAccounted(s: Store, events: seq<Event>, max: nat)
    requires Accounted(s, max)
    ensures Run(s, events, max).bytes == Sum(Run(s, events, max).conversations, ConversationBytes)
    ensures Run(s, events, max).bytes <= max
    decreases |events|
  {
    if events != [] {
      StepAccounted(s, events[0], max);
      RunAccounted(Step(s, events[0], max), events[1..], max);
    }
  }
}
