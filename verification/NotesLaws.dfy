/** The notes store outcome by outcome: what a sweep keeps, which error a call gets, and the one
    change that an accepted call makes. */
module NotesLaws {
  import opened Jsons
  import opened JsonTexts
  import opened NotesResponses
  import opened NotesStates
  import opened NotesAccounting
  import opened NotesReplies

  // ---- retention ----

  /** Records are kept for 72 hours. */
  predicate Young(at: int, now: int) {
    now - at < 259_200_000
  }

  predicate Increasing(p: seq<nat>) {
    forall a, b :: 0 <= a < b < |p| ==> p[a] < p[b]
  }

  /** `ys` are the items of `xs` that `keep` holds of, in their order. */
  ghost predicate Picked<T(!new)>(xs: seq<T>, ys: seq<T>, keep: T -> bool) {
    exists p :: PickedAt(xs, ys, keep, p)
  }

  ghost predicate PickedAt<T(!new)>(xs: seq<T>, ys: seq<T>, keep: T -> bool, p: seq<nat>) {
    && |p| == |ys| && Increasing(p)
    && (forall j :: 0 <= j < |p| ==> p[j] < |xs| && ys[j] == xs[p[j]])
    && (forall i :: 0 <= i < |xs| ==> (i in p <==> keep(xs[i])))
  }

  lemma MorePlaces(p: seq<nat>, n: nat)
    requires Increasing(p) && forall j :: 0 <= j < |p| ==> p[j] < n
    ensures Increasing(p + [n]) && n !in p && forall i :: i in p + [n] <==> i in p || i == n
  {
  }

  lemma PickedMore<T(!new)>(xs: seq<T>, x: T, ys: seq<T>, keep: T -> bool, p: seq<nat>)
    requires PickedAt(xs, ys, keep, p)
    ensures if keep(x) then PickedAt(xs + [x], ys + [x], keep, p + [|xs|]) else PickedAt(xs + [x], ys, keep, p)
  {
    MorePlaces(p, |xs|);
    hide Increasing;
    forall i | 0 <= i < |xs| ensures i in p <==> keep((xs + [x])[i]) {
      assert (xs + [x])[i] == xs[i];
    }
  }

  lemma {:induction false} KeptAt<T(!new)>(xs: seq<T>, stamp: T -> int, deadline: int, keep: T -> bool) returns (p: seq<nat>)
    requires forall x :: keep(x) <==> stamp(x) > deadline
    ensures PickedAt(xs, Kept(xs, stamp, deadline), keep, p)
  {
    if xs == [] {
      p := [];
    } else {
      var n := |xs| - 1;
      p := KeptAt(xs[..n], stamp, deadline, keep);
      hide PickedAt;
      PickedMore(xs[..n], xs[n], Kept(xs[..n], stamp, deadline), keep, p);
      assert xs[..n] + [xs[n]] == xs && Kept(xs[..n], stamp, deadline) + [] == Kept(xs[..n], stamp, deadline);
      if keep(xs[n]) { p := p + [n]; }
    }
  }

  /** A conversation without its old records. */
  ghost predicate Aged(c: Conversation, d: Conversation, now: int) {
    && d == c.(notes := d.notes, requests := d.requests, messages := d.messages)
    && Picked(c.notes, d.notes, (n: Note) => Young(n.createdAt, now))
    && Picked(c.requests, d.requests, (r: Request) => Young(r.touched, now))
    && Picked(c.messages, d.messages, (m: Message) => Young(m.createdAt, now))
  }

  /** It was used within the retention, or holds something from then. */
  ghost predicate Lives(c: Conversation, now: int) {
    || Young(c.touched, now)
    || (exists n :: n in c.notes && Young(n.createdAt, now))
    || (exists r :: r in c.requests && Young(r.touched, now))
    || (exists m :: m in c.messages && Young(m.createdAt, now))
  }

  lemma SweptAged(c: Conversation, now: int)
    ensures Aged(c, SweptOne(c, now - NOTE_RETENTION_MS), now)
    ensures !Expired(SweptOne(c, now - NOTE_RETENTION_MS), now - NOTE_RETENTION_MS) <==> Lives(c, now)
  {
    var deadline := now - NOTE_RETENTION_MS;
    var p := KeptAt(c.notes, NoteStamp, deadline, (n: Note) => Young(n.createdAt, now));
    var q := KeptAt(c.requests, RequestStamp, deadline, (r: Request) => Young(r.touched, now));
    var o := KeptAt(c.messages, MessageStamp, deadline, (m: Message) => Young(m.createdAt, now));
    hide Kept;
    var d := SweptOne(c, deadline);
    PickedSome(c.notes, d.notes, (n: Note) => Young(n.createdAt, now), p);
    PickedSome(c.requests, d.requests, (r: Request) => Young(r.touched, now), q);
    PickedSome(c.messages, d.messages, (m: Message) => Young(m.createdAt, now), o);
  }

  lemma PickedSome<T(!new)>(xs: seq<T>, ys: seq<T>, keep: T -> bool, p: seq<nat>)
    requires PickedAt(xs, ys, keep, p)
    ensures ys != [] <==> exists x :: x in xs && keep(x)
  {
    if ys != [] { assert p[0] in p && xs[p[0]] in xs; }
    if x :| x in xs && keep(x) {
      var i :| 0 <= i < |xs| && xs[i] == x;
      assert i in p;
    }
  }

  /** `r` are those of the first `n` conversations that live, in their order, without their old records. */
  ghost predicate SweptAt(s: Store, r: seq<Conversation>, n: nat, now: int, p: seq<nat>)
    requires n <= |s.conversations|
  {
    && |p| == |r| && Increasing(p)
    && (forall j :: 0 <= j < |p| ==> p[j] < n && Aged(s.conversations[p[j]], r[j], now))
    && (forall i :: 0 <= i < n ==> (i in p <==> Lives(s.conversations[i], now)))
  }

  lemma SweptMore(s: Store, r: seq<Conversation>, d: Conversation, n: nat, now: int, p: seq<nat>)
    requires n < |s.conversations| && SweptAt(s, r, n, now, p) && Aged(s.conversations[n], d, now)
    ensures if Lives(s.conversations[n], now) then SweptAt(s, r + [d], n + 1, now, p + [n]) else SweptAt(s, r, n + 1, now, p)
  {
    hide Aged, Lives;
    MorePlaces(p, n);
    hide Increasing;
  }

  lemma SweepNext(s: Store, deadline: int, n: nat)
    requires n < |s.conversations|
    ensures var d := SweptOne(s.conversations[n], deadline); var r := SweepFrom(s, deadline, n).conversations;
      SweepFrom(s, deadline, n + 1).conversations == if Expired(d, deadline) then r else r + [d]
  {
    hide SweptOne, Expired, FreedBytes;
  }

  lemma SweptNone(s: Store, now: int)
    ensures SweptAt(s, SweepFrom(s, now - NOTE_RETENTION_MS, 0).conversations, 0, now, [])
  {
  }

  lemma SweptNext(s: Store, now: int, n: nat, p: seq<nat>) returns (q: seq<nat>)
    requires n < |s.conversations| && SweptAt(s, SweepFrom(s, now - NOTE_RETENTION_MS, n).conversations, n, now, p)
    ensures SweptAt(s, SweepFrom(s, now - NOTE_RETENTION_MS, n + 1).conversations, n + 1, now, q)
  {
    hide *;
    var deadline := now - NOTE_RETENTION_MS;
    SweptAged(s.conversations[n], now);
    SweepNext(s, deadline, n);
    SweptMore(s, SweepFrom(s, deadline, n).conversations, SweptOne(s.conversations[n], deadline), n, now, p);
    q := if Lives(s.conversations[n], now) then p + [n] else p;
  }

  lemma {:induction false} SweptFrom(s: Store, now: int, n: nat) returns (p: seq<nat>)
    requires n <= |s.conversations|
    ensures SweptAt(s, SweepFrom(s, now - NOTE_RETENTION_MS, n).conversations, n, now, p)
  {
    hide *;
    if n == 0 {
      SweptNone(s, now);
      p := [];
    } else {
      var q := SweptFrom(s, now, n - 1);
      p := SweptNext(s, now, n - 1, q);
    }
  }

  /** A sweep keeps exactly the records of the last 72 hours, and the conversations that were used
      or hold a record from then. */
  lemma SweepExactly(s: Store, now: int) returns (p: seq<nat>)
    ensures SweptAt(s, Sweep(s, now).conversations, |s.conversations|, now, p)
  {
    p := SweptFrom(s, now, |s.conversations|);
  }

  // ---- outcomes ----

  /** The call is refused with this error and nothing changes; or, without one, conversation `i`
      becomes `d` and the store is charged for exactly that. */
  ghost predicate Decided<T>(t: Store, r: Store, outcome: Outcome<T>, error: Option<Error>, i: nat, d: Conversation) {
    if error.Some? then r == t && outcome == Refused(error.value)
    else
      && outcome.Done? && i < |t.conversations| && r.conversations == t.conversations[i := d] && r.births == t.births
      && r.bytes == t.bytes + ConversationBytes(d) - ConversationBytes(t.conversations[i])
  }

  /** With the change the store would cost more than its budget. */
  predicate Overflows(t: Store, i: nat, d: Conversation, max: nat)
    requires i < |t.conversations|
  {
    t.bytes + ConversationBytes(d) - ConversationBytes(t.conversations[i]) > max
  }

  predicate Known(t: Store, id: Text) {
    exists i :: 0 <= i < |t.conversations| && t.conversations[i].id == id
  }

  /** `b` is `a` without the white space around it. */
  ghost predicate Trimmed(a: Text, b: Text) {
    exists front, back :: a == front + b + back && Blank(front) && Blank(back)
      && (b == [] || (!Space(b[0]) && !Space(b[|b| - 1])))
  }

  predicate Blank(t: Text) {
    forall k :: 0 <= k < |t| ==> Space(t[k])
  }

  lemma {:induction false} StartTrimmed(t: Text) returns (front: Text)
    ensures t == front + TrimStart(t) && Blank(front)
  {
    if t != [] && Space(t[0]) {
      var rest := StartTrimmed(t[1..]);
      front := [t[0]] + rest;
    } else {
      front := [];
    }
  }

  lemma {:induction false} EndTrimmed(t: Text) returns (back: Text)
    ensures t == TrimEnd(t) + back && Blank(back)
  {
    if t != [] && Space(t[|t| - 1]) {
      var rest := EndTrimmed(t[..|t| - 1]);
      back := rest + [t[|t| - 1]];
    } else {
      back := [];
    }
  }

  lemma TrimTrims(t: Text)
    ensures Trimmed(t, Trim(t))
    ensures Trim(t) == [] <==> Blank(t)
  {
    var front := StartTrimmed(t);
    var back := EndTrimmed(TrimStart(t));
    hide TrimStart, TrimEnd;
    assert t == front + Trim(t) + back;
    assert TrimStart(t) == [] || !Space(TrimStart(t)[0]);
    if Trim(t) != [] {
      assert t[|front|] == Trim(t)[0];
    } else {
      assert t == front + back;
    }
  }

  // ---- renaming ----

  /** A rename gives the conversation the trimmed name. */
  lemma RenameExactly(s: Store, id: Text, name: Text, now: int, max: nat) returns (i: nat, next: Text)
    ensures var t := Sweep(s, now); var (r, outcome) := Rename(s, id, name, now, max);
      if !Known(t, id) then r == t && outcome == Refused(NotFound)
      else
        && i < |t.conversations| && t.conversations[i].id == id && Trimmed(name, next)
        && var d := t.conversations[i].(name := next, touched := now);
        Decided(t, r, outcome,
          if Utf8(name) > 256 then Some(LabelTooLong)
          else if Overflows(t, i, d, max) then Some(NotesFull)
          else None, i, d)
  {
    hide Sweep, Trim, Utf8, Sum;
    var t := Sweep(s, now);
    next := Trim(name);
    TrimTrims(name);
    i := if Known(t, id) then Find(t.conversations, id).value else 0;
  }

  // ---- notes ----

  predicate FirstNote(notes: seq<Note>, id: Text, k: nat) {
    k < |notes| && notes[k].id == id && forall j :: 0 <= j < k ==> notes[j].id != id
  }

  predicate NoNote(notes: seq<Note>, id: Text) {
    forall j :: 0 <= j < |notes| ==> notes[j].id != id
  }

  predicate Letter(u: Unit) {
    'a' as int <= u <= 'z' as int || 'A' as int <= u <= 'Z' as int
  }

  /** Up to 80 letters, digits, underscores and hyphens. */
  predicate Valid(id: Text) {
    && 1 <= |id| <= 80
    && forall j :: 0 <= j < |id| ==> Letter(id[j]) || '0' as int <= id[j] <= '9' as int || id[j] == '_' as int || id[j] == '-' as int
  }

  lemma ValidIs(id: Text)
    ensures Valid(id) <==> ValidId(id)
  {
  }

  /** Withdrawing: a note that was not delivered yet is marked, and nothing else changes. */
  lemma WithdrawExactly(s: Store, id: Text, noteId: Text, now: int) returns (i: nat, k: nat)
    ensures var t := Sweep(s, now); var (r, outcome) := Withdraw(s, id, noteId, now);
      if !Known(t, id) then r == t && outcome == Refused(NotFound)
      else
        && i < |t.conversations| && t.conversations[i].id == id
        && var notes := t.conversations[i].notes;
        if NoNote(notes, noteId) then r == t && outcome == Refused(NoteNotFound)
        else
          && FirstNote(notes, noteId, k)
          && if notes[k].status == Attached then r == t && outcome == Refused(NoteAttached)
             else
               && outcome.Done? && r == t.(conversations := r.conversations)
               && r.conversations == t.conversations[i := t.conversations[i].(notes := notes[k := notes[k].(status := Withdrawn)])]
  {
    hide Sweep;
    var t := Sweep(s, now);
    i := if Known(t, id) then Find(t.conversations, id).value else 0;
    k := if Known(t, id) && FindNote(t.conversations[i].notes, noteId).Some? then FindNote(t.conversations[i].notes, noteId).value else 0;
  }

  /** The conversation with one more note, which waits under the next number. */
  function WithNote(c: Conversation, note: Note, now: int): Conversation {
    c.(sequence := c.sequence + 1, notes := c.notes + [note], touched := now)
  }

  /** A note is checked and joins the queue; under an id that is taken, only the same note again is
      accepted, and then nothing is added. */
  lemma InsertExactly(t: Store, i: nat, id: Text, text: Text, question: Option<Text>, now: int, max: nat) returns (k: nat)
    requires i < |t.conversations|
    ensures var (r, outcome) := InsertNote(t, i, id, text, question, now, max);
      var c := t.conversations[i]; var note := Note(id, c.sequence + 1, text, now, Pending, question);
      if !NoNote(c.notes, id) && Valid(id) && !Blank(text) && Utf8(text) <= 30_000 then
        && FirstNote(c.notes, id, k) && r == t
        && outcome == if c.notes[k].text == text && c.notes[k].question == question then Done(c.notes[k]) else Refused(NoteChanged)
      else
        && Decided(t, r, outcome,
          if !Valid(id) then Some(InvalidId)
          else if Blank(text) then Some(NoteEmpty)
          else if Utf8(text) > 30_000 then Some(NoteTooLong)
          else if Overflows(t, i, WithNote(c, note, now), max) then Some(NotesFull)
          else None, i, WithNote(c, note, now))
        && (outcome.Done? ==> outcome.value == note)
  {
    hide Trim, Utf8, ValidId, Valid, Blank;
    ValidIs(id);
    TrimTrims(text);
    var c := t.conversations[i];
    SumAppend(c.notes, Note(id, c.sequence + 1, text, now, Pending, question), NoteCost);
    k := if FindNote(c.notes, id).Some? then FindNote(c.notes, id).value else 0;
    hide Sum;
  }

  /** A user's message goes through the checks of a note without a question. */
  lemma EnqueueExactly(s: Store, id: Text, messageId: Text, text: Text, now: int, max: nat) returns (i: nat)
    ensures var t := Sweep(s, now);
      if !Known(t, id) then Enqueue(s, id, messageId, text, now, max) == (t, Refused(NotFound))
      else
        && i < |t.conversations| && t.conversations[i].id == id
        && Enqueue(s, id, messageId, text, now, max) == InsertNote(t, i, messageId, text, None, now, max)
  {
    hide Sweep, InsertNote;
    var t := Sweep(s, now);
    i := if Known(t, id) then Find(t.conversations, id).value else 0;
  }

  // ---- conversations ----

  function Opened(id: Text, birth: nat, now: int): Conversation {
    Conversation(id, birth, [], false, now, 0, [], [], [])
  }

  /** Using a conversation records the time; a new one is recorded while the budget has room for it. */
  lemma ObserveExactly(s: Store, id: Text, web: bool, now: int, max: nat) returns (i: nat)
    ensures var r := Observe(s, id, web, now, max); var t := Sweep(s, now);
      if id == [] || !web then r == s
      else if Known(t, id) then
        && i < |t.conversations| && t.conversations[i].id == id
        && r == t.(conversations := t.conversations[i := t.conversations[i].(touched := now)])
      else if t.bytes + ConversationBytes(Opened(id, t.births, now)) > max then r == t
      else
        && r.conversations == t.conversations + [Opened(id, t.births, now)]
        && r.bytes == t.bytes + ConversationBytes(Opened(id, t.births, now)) && r.births == t.births + 1
  {
    hide Sweep;
    var t := Sweep(s, now);
    i := if Known(t, id) then Find(t.conversations, id).value else 0;
  }

  /** A message of the agent is kept with its text; a call without a console, a conversation or room
      for it is refused. */
  lemma SendExactly(s: Store, id: Text, message: Text, handle: Text, web: bool, now: int, max: nat) returns (i: nat)
    ensures var t := Sweep(Observe(s, id, web, now, max), now); var (r, outcome) := SendMessage(s, id, message, handle, web, now, max);
      if !web then r == s && outcome == Refused(WebUnavailable)
      else if id == [] then r == s && outcome == Refused(ConversationUnknown)
      else if Utf8(message) > 30_000 then r == s && outcome == Refused(MessageTooLong)
      else if !Known(t, id) then r == t && outcome == Refused(NotFound)
      else
        && i < |t.conversations| && t.conversations[i].id == id
        && var c := t.conversations[i]; var d := c.(messages := c.messages + [Message(handle, message, now)], touched := now);
        Decided(t, r, outcome, if Overflows(t, i, d, max) then Some(NotesFull) else None, i, d)
  {
    hide Sweep, Observe, Utf8;
    var t := Sweep(Observe(s, id, web, now, max), now);
    i := if Known(t, id) then Find(t.conversations, id).value else 0;
    if Known(t, id) { SumAppend(t.conversations[i].messages, Message(handle, message, now), MessageCost); }
    hide Sum;
  }

  // ---- questions ----

  /** The text, or its JSON, is over 30,000 bytes. */
  predicate TooLong(text: Text) {
    Utf8(text) > 30_000 || Utf8(QuoteText(text)) > 30_000
  }

  lemma TooLongIs(text: Text)
    ensures TooLong(text) <==> TextTooLong(text)
  {
    QuoteMeasure(text);
    assert Measure(QuoteText(text), Bytes) == Quoted(text, Bytes);
    hide Utf8, QuoteText, Quoted;
  }

  /** Some choice of the question makes an answer that is too long, even without a note of its own. */
  ghost predicate Unanswerable(d: Draft) {
    exists choice :: Legal(d.options, choice) && TooLong(FormatUserAnswer(d.title, d.options, choice, Least(choice)))
  }

  /** The shortest note for a choice: an answer in the user's own words has at least one character. */
  function Least(choice: Option<nat>): Text {
    if choice.None? then ['x' as int] else []
  }

  lemma UnanswerableIs(d: Draft)
    ensures Unanswerable(d) <==> DraftTooLong(d)
  {
    hide TooLong, TextTooLong, FormatUserAnswer;
    assert Ascii("x") == ['x' as int];
    forall choice | Legal(d.options, choice)
      ensures TooLong(FormatUserAnswer(d.title, d.options, choice, Least(choice))) <==>
        TextTooLong(FormatUserAnswer(d.title, d.options, choice, Least(choice)))
    {
      TooLongIs(FormatUserAnswer(d.title, d.options, choice, Least(choice)));
    }
    assert Legal(d.options, None);
    if k :| 0 <= k < |d.options| && TextTooLong(FormatUserAnswer(d.title, d.options, Some(k), [])) {
      assert Legal(d.options, Some(k));
    }
  }

  predicate Asks(questions: seq<Question>, drafts: seq<Draft>) {
    && |questions| == |drafts|
    && forall j :: 0 <= j < |drafts| ==> questions[j].title == drafts[j].title && questions[j].options == drafts[j].options
  }

  lemma AsksIs(questions: seq<Question>, drafts: seq<Draft>)
    ensures Asks(questions, drafts) <==> Drafts(questions) == drafts
  {
    if Drafts(questions) == drafts {
      forall j | 0 <= j < |drafts| ensures questions[j].title == drafts[j].title && questions[j].options == drafts[j].options {
        assert Drafts(questions)[j] == DraftOf(questions[j]);
      }
    }
    if Asks(questions, drafts) {
      assert forall j :: 0 <= j < |drafts| ==> Drafts(questions)[j] == drafts[j];
    }
  }

  predicate FirstKeyed(requests: seq<Request>, key: Option<Text>, k: nat) {
    k < |requests| && requests[k].key == key && forall j :: 0 <= j < k ==> requests[j].key != key
  }

  predicate Keyed(requests: seq<Request>, key: Option<Text>) {
    key.Some? && exists j :: 0 <= j < |requests| && requests[j].key == key
  }

  /** A request that was just asked: nothing is answered yet. */
  predicate Fresh(r: Request, drafts: seq<Draft>, key: Option<Text>, handles: seq<Text>, now: nat)
    requires |handles| == |drafts| + 1
  {
    && r.id == handles[|drafts|] && r.key == key && r.createdAt == now && r.touched == now && Asks(r.questions, drafts)
    && forall j :: 0 <= j < |drafts| ==> r.questions[j].id == handles[j] && r.questions[j].answer.None?
  }

  ghost predicate AnyUnanswerable(drafts: seq<Draft>) {
    exists j :: 0 <= j < |drafts| && Unanswerable(drafts[j])
  }

  lemma AnyUnanswerableIs(drafts: seq<Draft>)
    ensures AnyUnanswerable(drafts) <==> exists j :: 0 <= j < |drafts| && DraftTooLong(drafts[j])
  {
    hide Unanswerable, DraftTooLong;
    forall j | 0 <= j < |drafts| ensures Unanswerable(drafts[j]) <==> DraftTooLong(drafts[j]) { UnanswerableIs(drafts[j]); }
  }

  /** What a call that gets as far as its conversation does there. */
  ghost predicate Asked(t: Store, r: Store, outcome: Outcome<Text>, drafts: seq<Draft>, key: Option<Text>, request: Request,
                        now: nat, max: nat, i: nat, k: nat)
    requires i < |t.conversations|
  {
    var c := t.conversations[i]; var d := c.(requests := c.requests + [request], touched := now);
    if Keyed(c.requests, key) then
      && FirstKeyed(c.requests, key, k) && r == t
      && outcome == if Asks(c.requests[k].questions, drafts) then Done(c.requests[k].id) else Refused(KeyChanged)
    else
      && Decided(t, r, outcome, if Overflows(t, i, d, max) then Some(NotesFull) else None, i, d)
      && (outcome.Done? ==> outcome.value == request.id)
  }

  /** An `ask` that is not refused before it gets to its conversation. */
  function AskIn(t: Store, i: nat, drafts: seq<Draft>, key: Option<Text>, request: Request, now: nat, max: nat): (Store, Outcome<Text>)
    requires i < |t.conversations|
  {
    var c := t.conversations[i];
    if key.Some? && FindKey(c.requests, key.value).Some? then
      var earlier := c.requests[FindKey(c.requests, key.value).value];
      (t, if Drafts(earlier.questions) != drafts then Refused(KeyChanged) else Done(earlier.id))
    else if t.bytes + RequestBytes(request) > max then (t, Refused(NotesFull))
    else (Put(t, i, WithRequest(c, request, now), RequestBytes(request)), Done(request.id))
  }

  lemma AskIsIn(s: Store, id: Text, drafts: seq<Draft>, key: Option<Text>, handles: seq<Text>, web: bool, now: nat, max: nat)
    requires |handles| == |drafts| + 1 && web && id != [] && !exists j :: 0 <= j < |drafts| && DraftTooLong(drafts[j])
    ensures var t := Sweep(Observe(s, id, web, now, max), now); var found := Find(t.conversations, id);
      found.Some? ==>
        Ask(s, id, drafts, key, handles, web, now, max) == AskIn(t, found.value, drafts, key, NewRequest(drafts, key, handles, now), now, max)
  {
    hide Sweep, Observe, NewRequest, DraftTooLong, Drafts, RequestBytes;
  }

  lemma KeyedIs(requests: seq<Request>, key: Option<Text>) returns (k: nat)
    ensures Keyed(requests, key) <==> key.Some? && FindKey(requests, key.value).Some?
    ensures Keyed(requests, key) ==> FirstKeyed(requests, key, k) && FindKey(requests, key.value) == Some(k)
  {
    k := if key.Some? && FindKey(requests, key.value).Some? then FindKey(requests, key.value).value else 0;
  }

  lemma RequestCosts(c: Conversation, request: Request, now: nat)
    ensures ConversationBytes(WithRequest(c, request, now)) == ConversationBytes(c) + RequestBytes(request)
  {
    hide RequestBytes;
    SumAppend(c.requests, request, RequestBytes);
    hide Sum;
  }

  lemma AskAsks(t: Store, i: nat, drafts: seq<Draft>, key: Option<Text>, request: Request, now: nat, max: nat) returns (k: nat)
    requires i < |t.conversations|
    ensures var (r, outcome) := AskIn(t, i, drafts, key, request, now, max); Asked(t, r, outcome, drafts, key, request, now, max, i, k)
  {
    var c := t.conversations[i];
    RequestCosts(c, request, now);
    k := KeyedIs(c.requests, key);
    hide Drafts, Asks, RequestBytes, ConversationBytes, Keyed, FirstKeyed, FindKey;
    if Keyed(c.requests, key) { AsksIs(c.requests[k].questions, drafts); }
  }

  lemma AskRefuses(s: Store, id: Text, drafts: seq<Draft>, key: Option<Text>, handles: seq<Text>, web: bool, now: nat, max: nat)
    requires |handles| == |drafts| + 1
    ensures var t := Sweep(Observe(s, id, web, now, max), now); var (r, outcome) := Ask(s, id, drafts, key, handles, web, now, max);
      && (!web ==> r == s && outcome == Refused(WebUnavailable))
      && (web && id == [] ==> r == s && outcome == Refused(ConversationUnknown))
      && (web && id != [] && AnyUnanswerable(drafts) ==> r == s && outcome == Refused(QuestionTooLong))
      && (web && id != [] && !AnyUnanswerable(drafts) && Find(t.conversations, id).None? ==> r == t && outcome == Refused(NotFound))
  {
    hide Sweep, Observe, NewRequest, DraftTooLong, Drafts, RequestBytes, AnyUnanswerable;
    AnyUnanswerableIs(drafts);
  }

  /** Questions are kept under new ids; a request key that is taken answers with its earlier request
      if the questions are the same. */
  lemma AskExactly(s: Store, id: Text, drafts: seq<Draft>, key: Option<Text>, handles: seq<Text>, web: bool, now: nat, max: nat)
    returns (i: nat, k: nat, request: Request)
    requires |handles| == |drafts| + 1
    ensures Fresh(request, drafts, key, handles, now)
    ensures var t := Sweep(Observe(s, id, web, now, max), now); var (r, outcome) := Ask(s, id, drafts, key, handles, web, now, max);
      if !web then r == s && outcome == Refused(WebUnavailable)
      else if id == [] then r == s && outcome == Refused(ConversationUnknown)
      else if AnyUnanswerable(drafts) then r == s && outcome == Refused(QuestionTooLong)
      else if !Known(t, id) then r == t && outcome == Refused(NotFound)
      else i < |t.conversations| && t.conversations[i].id == id && Asked(t, r, outcome, drafts, key, request, now, max, i, k)
  {
    hide *;
    request := FreshRequest(drafts, key, handles, now);
    AskRefuses(s, id, drafts, key, handles, web, now, max);
    AnyUnanswerableIs(drafts);
    var t := Sweep(Observe(s, id, web, now, max), now);
    KnownIs(t, id);
    i, k := 0, 0;
    if web && id != [] && !AnyUnanswerable(drafts) && Known(t, id) {
      i := Find(t.conversations, id).value;
      AskIsIn(s, id, drafts, key, handles, web, now, max);
      k := AskAsks(t, i, drafts, key, request, now, max);
    }
  }

  lemma FreshRequest(drafts: seq<Draft>, key: Option<Text>, handles: seq<Text>, now: nat) returns (request: Request)
    requires |handles| == |drafts| + 1
    ensures request == NewRequest(drafts, key, handles, now) && Fresh(request, drafts, key, handles, now)
  {
    request := NewRequest(drafts, key, handles, now);
  }

  lemma KnownIs(t: Store, id: Text)
    ensures Known(t, id) <==> Find(t.conversations, id).Some?
    ensures Known(t, id) ==>
      Find(t.conversations, id).value < |t.conversations| && t.conversations[Find(t.conversations, id).value].id == id
  {
  }

  // ---- answers ----

  predicate Has(r: Request, question: Text) {
    exists j :: 0 <= j < |r.questions| && r.questions[j].id == question
  }

  /** The question with this id: the first in the first request that has one. */
  predicate FirstQuestion(c: Conversation, question: Text, r: nat, k: nat) {
    && r < |c.requests| && (forall j :: 0 <= j < r ==> !Has(c.requests[j], question))
    && k < |c.requests[r].questions| && c.requests[r].questions[k].id == question
    && forall j :: 0 <= j < k ==> c.requests[r].questions[j].id != question
  }

  lemma {:induction false} FindsFirst(requests: seq<Request>, question: Text)
    ensures var at := FindRequest(requests, question);
      && (at.Some? ==> at.value < |requests| && Has(requests[at.value], question) && forall j :: 0 <= j < at.value ==> !Has(requests[j], question))
      && (at.None? ==> forall j :: 0 <= j < |requests| ==> !Has(requests[j], question))
  {
    if requests != [] {
      FindsFirst(requests[..|requests| - 1], question);
      var f := FindQuestion(requests[|requests| - 1].questions, question);
      hide FindQuestion;
    }
  }

  /** The question is answered, unless the note of the answer was withdrawn. */
  ghost predicate IsAnswered(notes: seq<Note>, q: Question) {
    && q.answer.Some?
    && forall j: nat :: FirstNote(notes, q.answer.value.noteId, j) ==> notes[j].status != Withdrawn
  }

  lemma AnsweredIs(notes: seq<Note>, q: Question)
    ensures IsAnswered(notes, q) <==> !QuestionPending(notes, q)
  {
    if q.answer.Some? && FindNote(notes, q.answer.value.noteId).Some? {
      assert FirstNote(notes, q.answer.value.noteId, FindNote(notes, q.answer.value.noteId).value);
    }
  }

  /** The conversation once the question has this reply and the note that tells it. */
  function WithReply(c: Conversation, r: nat, k: nat, reply: Reply, note: Note, now: nat): Conversation
    requires r < |c.requests| && k < |c.requests[r].questions|
  {
    var q := c.requests[r].questions[k].(answer := Some(reply));
    WithNote(c, note, now).(requests := c.requests[r := c.requests[r].(touched := now, questions := c.requests[r].questions[k := q])])
  }

  /** The end of an answer: note and reply are kept together or not at all. There has to be room for
      both, and for the note alone even when the new reply is shorter than a withdrawn one. */
  lemma CommitExactly(t: Store, i: nat, r: nat, k: nat, reply: Reply, text: Text, now: nat, max: nat)
    requires At(t, i, r, k) && NoNote(t.conversations[i].notes, reply.noteId) && !Blank(text) && Utf8(text) <= 30_000
    ensures var (u, outcome) := Commit(t, i, r, k, reply, text, now, max);
      var c := t.conversations[i]; var note := Note(reply.noteId, c.sequence + 1, text, now, Pending, Some(c.requests[r].questions[k].id));
      var d := WithReply(c, r, k, reply, note, now);
      && Decided(t, u, outcome,
        if Overflows(t, i, d, max) then Some(NotesFull)
        else if !Valid(reply.noteId) then Some(InvalidId)
        else if Overflows(t, i, WithNote(c, note, now), max) then Some(NotesFull)
        else None, i, d)
      && (outcome.Done? ==> outcome.value == note)
  {
    hide Trim, Utf8, ValidId, Valid, Blank, RequestBytes;
    ValidIs(reply.noteId);
    TrimTrims(text);
    var c := t.conversations[i];
    var note := Note(reply.noteId, c.sequence + 1, text, now, Pending, Some(c.requests[r].questions[k].id));
    SumAppend(c.notes, note, NoteCost);
    SumUpdate(c.requests, r, Answered(c.requests[r], k, reply, now), RequestBytes);
    hide Sum;
  }

  /** An answer as far as its question: where that is, or the error. */
  lemma AnswerFinds(s: Store, id: Text, question: Text, input: Submission, now: nat, max: nat) returns (i: nat, r: nat, k: nat)
    ensures var t := Sweep(s, now); var answer := Answer(s, id, question, input, now, max);
      if !Known(t, id) then answer == (t, Refused(NotFound))
      else
        && i < |t.conversations| && t.conversations[i].id == id
        && var c := t.conversations[i];
        if forall j :: 0 <= j < |c.requests| ==> !Has(c.requests[j], question) then answer == (t, Refused(QuestionNotFound))
        else FirstQuestion(c, question, r, k) && answer == AnswerIn(t, i, r, k, input, now, max)
  {
    hide Sweep, FormatUserAnswer, TextTooLong, QuestionPending, Commit, Trim;
    var t := Sweep(s, now);
    i, r, k := 0, 0, 0;
    if Known(t, id) {
      i := Find(t.conversations, id).value;
      var c := t.conversations[i];
      FindsFirst(c.requests, question);
      if FindRequest(c.requests, question).Some? {
        r := FindRequest(c.requests, question).value;
        k := FindQuestion(c.requests[r].questions, question).value;
      }
    }
  }

  /** The rest of an answer, to question `k` of request `r`. */
  function AnswerIn(t: Store, i: nat, r: nat, k: nat, input: Submission, now: nat, max: nat): (Store, Outcome<Note>)
    requires At(t, i, r, k)
  {
    var c := t.conversations[i];
    var q := c.requests[r].questions[k];
    if input.option.Some? && input.option.value >= |q.options| then (t, Refused(InvalidOption))
    else if input.option.None? && Trim(input.note) == [] then (t, Refused(AnswerRequired))
    else
      var text := FormatUserAnswer(q.title, q.options, input.option, input.note);
      var noteId := ReplyNoteId(q.id, input.submission);
      var prior := FindNote(c.notes, noteId);
      if TextTooLong(text) then (t, Refused(AnswerTooLong))
      else if prior.Some? then
        (t, if c.notes[prior.value].text != text || c.notes[prior.value].question != Some(q.id) then Refused(AnswerChanged) else Done(c.notes[prior.value]))
      else if !QuestionPending(c.notes, q) then (t, Refused(QuestionAnswered))
      else Commit(t, i, r, k, Reply(input.option, input.note, noteId, now), text, now, max)
  }

  lemma AnswerNotBlank(title: Text, options: seq<Text>, option: Option<nat>, note: Text)
    requires Legal(options, option)
    ensures !Blank(FormatUserAnswer(title, options, option, note))
  {
    assert FormatUserAnswer(title, options, option, note)[0] == 'Q' as int;
  }

  /** An answer to a question: which error it gets, or the same note again, or the one change it makes. */
  lemma AnswerExactly(s: Store, id: Text, question: Text, input: Submission, now: nat, max: nat) returns (i: nat, r: nat, k: nat, j: nat)
    ensures var t := Sweep(s, now); var (u, outcome) := Answer(s, id, question, input, now, max);
      if !Known(t, id) then u == t && outcome == Refused(NotFound)
      else
        && i < |t.conversations| && t.conversations[i].id == id
        && var c := t.conversations[i];
        if forall x :: 0 <= x < |c.requests| ==> !Has(c.requests[x], question) then u == t && outcome == Refused(QuestionNotFound)
        else FirstQuestion(c, question, r, k) && Answers(t, u, outcome, input, now, max, i, r, k, j)
  {
    i, r, k := AnswerFinds(s, id, question, input, now, max);
    hide Sweep, Answer, Answers, AnswerIn, FirstQuestion;
    j := 0;
    var t := Sweep(s, now);
    if Known(t, id) && exists x :: 0 <= x < |t.conversations[i].requests| && Has(t.conversations[i].requests[x], question) {
      assert At(t, i, r, k) by { QuestionThere(t, i, question, r, k); }
      j := AnswerAnswers(t, i, r, k, input, now, max);
    }
  }

  lemma QuestionThere(t: Store, i: nat, question: Text, r: nat, k: nat)
    requires i < |t.conversations| && FirstQuestion(t.conversations[i], question, r, k)
    ensures At(t, i, r, k)
  {
  }

  /** The note of a new answer and the reply are kept, or the answer is refused. */
  ghost predicate Replies(t: Store, u: Store, outcome: Outcome<Note>, reply: Reply, text: Text, now: nat, max: nat, i: nat, r: nat, k: nat)
    requires At(t, i, r, k)
  {
    var c := t.conversations[i];
    var q := c.requests[r].questions[k];
    var note := Note(reply.noteId, c.sequence + 1, text, now, Pending, Some(q.id));
    var d := WithReply(c, r, k, reply, note, now);
    && Decided(t, u, outcome,
      if IsAnswered(c.notes, q) then Some(QuestionAnswered)
      else if Overflows(t, i, d, max) then Some(NotesFull)
      else if !Valid(reply.noteId) then Some(InvalidId)
      else if Overflows(t, i, WithNote(c, note, now), max) then Some(NotesFull)
      else None, i, d)
    && (outcome.Done? ==> outcome.value == note)
  }

  lemma CommitReplies(t: Store, i: nat, r: nat, k: nat, reply: Reply, text: Text, now: nat, max: nat)
    requires At(t, i, r, k) && NoNote(t.conversations[i].notes, reply.noteId) && !Blank(text) && Utf8(text) <= 30_000
    ensures var c := t.conversations[i]; var q := c.requests[r].questions[k];
      var (u, outcome) := if QuestionPending(c.notes, q) then Commit(t, i, r, k, reply, text, now, max) else (t, Refused(QuestionAnswered));
      Replies(t, u, outcome, reply, text, now, max, i, r, k)
  {
    var c := t.conversations[i];
    var note := Note(reply.noteId, c.sequence + 1, text, now, Pending, Some(c.requests[r].questions[k].id));
    AnsweredIs(c.notes, c.requests[r].questions[k]);
    CommitExactly(t, i, r, k, reply, text, now, max);
    hide *;
    var (u, outcome) := if QuestionPending(c.notes, c.requests[r].questions[k]) then Commit(t, i, r, k, reply, text, now, max)
                        else (t, Refused(QuestionAnswered));
    RepliesFrom(t, u, outcome, reply, text, now, max, i, r, k);
  }

  lemma RepliesFrom(t: Store, u: Store, outcome: Outcome<Note>, reply: Reply, text: Text, now: nat, max: nat, i: nat, r: nat, k: nat)
    requires At(t, i, r, k)
    requires var c := t.conversations[i]; var note := Note(reply.noteId, c.sequence + 1, text, now, Pending, Some(c.requests[r].questions[k].id));
      var d := WithReply(c, r, k, reply, note, now);
      if IsAnswered(c.notes, c.requests[r].questions[k]) then u == t && outcome == Refused(QuestionAnswered)
      else
        && Decided(t, u, outcome,
          if Overflows(t, i, d, max) then Some(NotesFull)
          else if !Valid(reply.noteId) then Some(InvalidId)
          else if Overflows(t, i, WithNote(c, note, now), max) then Some(NotesFull)
          else None, i, d)
        && (outcome.Done? ==> outcome.value == note)
    ensures Replies(t, u, outcome, reply, text, now, max, i, r, k)
  {
    hide IsAnswered, Overflows, Valid, WithReply, WithNote;
  }

  /** What an answer that finds its question does; `j` is the note with its id, if there is one. */
  ghost predicate Answers(t: Store, u: Store, outcome: Outcome<Note>, input: Submission, now: nat, max: nat, i: nat, r: nat, k: nat, j: nat)
    requires i < |t.conversations| && r < |t.conversations[i].requests| && k < |t.conversations[i].requests[r].questions|
  {
    var c := t.conversations[i];
    var q := c.requests[r].questions[k];
    var noteId := q.id + ['_' as int] + input.submission;
    if !Legal(q.options, input.option) then u == t && outcome == Refused(InvalidOption)
    else if input.option.None? && Blank(input.note) then u == t && outcome == Refused(AnswerRequired)
    else
      var text := FormatUserAnswer(q.title, q.options, input.option, input.note);
      if TooLong(text) then u == t && outcome == Refused(AnswerTooLong)
      else if !NoNote(c.notes, noteId) then
        && FirstNote(c.notes, noteId, j) && u == t
        && outcome == if c.notes[j].text == text && c.notes[j].question == Some(q.id) then Done(c.notes[j]) else Refused(AnswerChanged)
      else Replies(t, u, outcome, Reply(input.option, input.note, noteId, now), text, now, max, i, r, k)
  }

  lemma AnswerAnswers(t: Store, i: nat, r: nat, k: nat, input: Submission, now: nat, max: nat) returns (j: nat)
    requires At(t, i, r, k)
    ensures var (u, outcome) := AnswerIn(t, i, r, k, input, now, max); Answers(t, u, outcome, input, now, max, i, r, k, j)
  {
    var c := t.conversations[i];
    var q := c.requests[r].questions[k];
    var noteId := ReplyNoteId(q.id, input.submission);
    TrimTrims(input.note);
    j := if FindNote(c.notes, noteId).Some? then FindNote(c.notes, noteId).value else 0;
    hide Trim, Blank, FormatUserAnswer, TooLong, TextTooLong, QuestionPending, Commit, Replies;
    if Legal(q.options, input.option) {
      var text := FormatUserAnswer(q.title, q.options, input.option, input.note);
      TooLongIs(text);
      NotTooLong(text);
      AnswerNotBlank(q.title, q.options, input.option, input.note);
      if !TooLong(text) && NoNote(c.notes, noteId) {
        CommitReplies(t, i, r, k, Reply(input.option, input.note, noteId, now), text, now, max);
      }
    }
  }

  lemma NotTooLong(text: Text)
    ensures !TooLong(text) ==> Utf8(text) <= 30_000
  {
    hide Utf8;
  }

  // ---- what a request is charged for ----

  predicate Holds(j: Json, name: string, value: Json) {
    j.Obj? && exists k :: 0 <= k < |j.fields| && j.fields[k] == Field(Ascii(name), value)
  }

  predicate TellsReply(j: Json, r: Reply) {
    && j.Obj? && |j.fields| == 4 && Holds(j, "note", Str(r.note)) && Holds(j, "noteId", Str(r.noteId)) && Holds(j, "answeredAt", Raw(26))
    && Holds(j, "option_index", Raw(if r.option.Some? then |Decimal(r.option.value)| else |"null"|))
  }

  /** The JSON of a question, with the reply once there is one. */
  ghost predicate TellsQuestion(j: Json, q: Question) {
    && j.Obj? && |j.fields| == (if q.answer.Some? then 4 else 3)
    && Holds(j, "title", Str(q.title)) && Holds(j, "id", Str(q.id))
    && (exists options :: Holds(j, "options", Arr(options)) && |options| == |q.options|
          && forall k :: 0 <= k < |options| ==> options[k] == Str(q.options[k]))
    && (q.answer.Some? ==> exists reply :: Holds(j, "answer", reply) && TellsReply(reply, q.answer.value))
  }

  /** The JSON of a request names everything that is kept of it, once. */
  ghost predicate TellsRequest(j: Json, r: Request) {
    && j.Obj? && |j.fields| == (if r.key.Some? then 5 else 4)
    && Holds(j, "id", Str(r.id)) && Holds(j, "createdAt", Raw(26)) && Holds(j, "touched", Raw(|Decimal(r.touched)|))
    && (r.key.Some? ==> Holds(j, "request_key", Str(r.key.value)))
    && exists questions :: Holds(j, "questions", Arr(questions)) && |questions| == |r.questions|
         && forall k :: 0 <= k < |questions| ==> TellsQuestion(questions[k], r.questions[k])
  }

  lemma ReplyTold(r: Reply)
    ensures TellsReply(ReplyJson(r), r)
  {
    hide Ascii, Digits;
    var f := ReplyJson(r).fields;
    assert f[0].name == Ascii("option_index") && f[1].name == Ascii("note") && f[2].name == Ascii("noteId") && f[3].name == Ascii("answeredAt");
  }

  lemma QuestionTold(q: Question)
    ensures TellsQuestion(QuestionJson(q), q)
  {
    if q.answer.Some? { ReplyTold(q.answer.value); }
    hide Ascii, ReplyJson, TellsReply;
    var j := QuestionJson(q);
    var f := j.fields;
    assert f[0].name == Ascii("title") && f[1].name == Ascii("options") && f[2].name == Ascii("id");
    assert Holds(j, "options", Arr(NotesJson(q.options)));
    if q.answer.Some? {
      assert f[3] == Field(Ascii("answer"), ReplyJson(q.answer.value));
      assert Holds(j, "answer", ReplyJson(q.answer.value));
    }
  }

  lemma RequestTold(r: Request)
    ensures TellsRequest(RequestJson(r), r)
  {
    hide Ascii, Digits, QuestionJson, TellsQuestion;
    var j := RequestJson(r);
    var f := j.fields;
    var qs := seq(|r.questions|, i requires 0 <= i < |r.questions| => QuestionJson(r.questions[i]));
    forall k | 0 <= k < |qs| ensures TellsQuestion(qs[k], r.questions[k]) { QuestionTold(r.questions[k]); }
    var n := if r.key.Some? then 1 else 0;
    assert f[0] == Field(Ascii("id"), Str(r.id));
    if r.key.Some? { assert f[1] == Field(Ascii("request_key"), Str(r.key.value)); }
    assert f[n + 1] == Field(Ascii("createdAt"), Stamp) && f[n + 2].name == Ascii("touched") && f[n + 3] == Field(Ascii("questions"), Arr(qs));
    assert Holds(j, "questions", Arr(qs));
  }

  /** A request costs 1,024 bytes, two for every character of its JSON text, and one for every byte of
      that text in UTF-8. */
  lemma RequestCharge(r: Request)
    ensures TellsRequest(RequestJson(r), r)
    ensures var text := Stringify(RequestJson(r)); RequestBytes(r) == 1024 + 2 * |text| + Utf8(text)
  {
    RequestTold(r);
    hide RequestJson, TellsRequest, Stringify, Size, Utf8;
    SizeIsLength(RequestJson(r));
    assert Measure(Stringify(RequestJson(r)), Units) == Size(RequestJson(r), Units);
    assert Measure(Stringify(RequestJson(r)), Bytes) == Size(RequestJson(r), Bytes);
  }

  // ---- sizes in UTF-8 ----

  function Power2(n: nat): nat {
    if n == 0 then 1 else 2 * Power2(n - 1)
  }

  /** How many code points up to `n` bytes can name (section 3 of RFC 3629). */
  function Nameable(n: nat): nat {
    if n == 0 then 0 else if n == 1 then Power2(7) else Power2(5 * n + 1)
  }

  /** A unit takes the fewest bytes that can name it, and two that form a pair take four together. */
  lemma FewestBytes(t: Text)
    requires t != []
    ensures var n := PointBytes(t[0], Lead(t) == 2);
      if |t| > 1 && 0xd800 <= t[0] <= 0xdbff && 0xdc00 <= t[1] <= 0xdfff then Lead(t) == 2 && n == 4
      else Lead(t) == 1 && 1 <= n <= 3 && Nameable(n - 1) <= t[0] < Nameable(n)
  {
    assert Power2(7) == 128;
    assert Power2(11) == 16 * Power2(7);
    assert Power2(16) == 32 * Power2(11);
  }
}
