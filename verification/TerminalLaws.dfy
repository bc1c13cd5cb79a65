/** What each event makes of the sessions, and when a new one is admitted. */
module TerminalLaws {
  import opened Utf8
  import opened ByteQueues
  import opened OutputViews
  import opened Terminals

  /** The process has ended and no call reads its output. */
  predicate Finished(s: Session) {
    s.exited && s.observers == 0
  }

  // ---- events of single sessions ----

  predicate Single(op: Operation) {
    op.Exit? || op.BeginRead? || op.Collect? || op.EndRead? || op.Sweep? || op.Remove?
  }

  /** The session leaves with the event: it was collected to its end, swept, or removed. */
  predicate Leaves(op: Operation, s: Session) {
    || (op.Collect? && op.id == s.id && s.exited && !ReadView(s.buffer, 4_194_304).Pending())
    || (op.Sweep? && Finished(s) && s.touched <= op.deadline)
    || (op.Remove? && op.id == s.id)
  }

  /** What a session that stays becomes. */
  function Becomes(op: Operation, s: Session): Session {
    if op.Sweep? || op.Start? || op.Append? || op.id != s.id then s
    else match op
      case Exit(_, now) => if s.exited then s else s.(exited := true, touched := now)
      case BeginRead(_, now) => s.(observers := s.observers + 1, touched := now)
      case Collect(_, now, _) => s.(buffer := ReadView(s.buffer, 4_194_304), touched := now)
      case EndRead(_, touch) =>
        s.(observers := if s.observers == 0 then 0 else s.observers - 1, touched := if touch.None? then s.touched else touch.value)
      case _ => s
  }

  /** The sessions after the event, in their order. */
  function After(op: Operation, ss: seq<Session>): seq<Session> {
    if ss == [] then []
    else After(op, ss[..|ss| - 1]) + (if Leaves(op, ss[|ss| - 1]) then [] else [Becomes(op, ss[|ss| - 1])])
  }

  lemma {:induction false} AfterSelect(op: Operation, ss: seq<Session>, keep: Session -> bool)
    requires forall s :: s in ss ==> keep(s) == !Leaves(op, s) && (keep(s) ==> Becomes(op, s) == s)
    ensures After(op, ss) == Select(ss, keep)
  {
    if ss != [] {
      var init, last := ss[..|ss| - 1], ss[|ss| - 1];
      assert last in ss;
      AfterSelect(op, init, keep);
    }
  }

  lemma {:induction false} AfterChange(op: Operation, ss: seq<Session>, id: nat, f: Session -> Session)
    requires forall s :: s in ss ==> !Leaves(op, s) && Becomes(op, s) == if s.id == id then f(s) else s
    ensures After(op, ss) == Change(ss, id, f)
  {
    if ss != [] {
      var init, last := ss[..|ss| - 1], ss[|ss| - 1];
      assert last in ss;
      AfterChange(op, init, id, f);
      assert Change(ss, id, f) == Change(init, id, f) + [if last.id == id then f(last) else last];
    }
  }

  lemma {:induction false} AfterSame(op: Operation, ss: seq<Session>)
    requires forall s :: s in ss ==> !Leaves(op, s) && Becomes(op, s) == s
    ensures After(op, ss) == ss
  {
    if ss != [] {
      assert ss[|ss| - 1] in ss;
      AfterSame(op, ss[..|ss| - 1]);
    }
  }

  lemma CollectExactly(cfg: Config, ss: seq<Session>, op: Operation)
    requires Inv(cfg, ss) && op.Collect?
    ensures Step(cfg, ss, op) == After(op, ss)
  {
    hide ReadView, Retained, View.Valid;
    FindIn(ss, op.id);
    var found := Find(ss, op.id);
    if found.None? {
      AfterSame(op, ss);
    } else {
      var s := found.value;
      assert forall x :: x in ss && x.id == op.id ==> x == s;
      var buffer := ReadView(s.buffer, TERMINAL_READ_BYTES);
      if s.exited && !buffer.Pending() {
        AfterSelect(op, ss, (x: Session) => x.id != op.id);
      } else {
        AfterChange(op, ss, op.id, (x: Session) => x.(buffer := buffer, touched := op.now));
      }
    }
  }

  /** Ends, reads, sweeps and removals do to each session just what they are for. */
  lemma SessionsExactly(cfg: Config, ss: seq<Session>, op: Operation)
    requires Inv(cfg, ss) && Single(op)
    ensures Step(cfg, ss, op) == After(op, ss)
  {
    hide ReadView, Retained, View.Valid, Collected, Inv, Started, Appended;
    match op
    case Exit(id, now) => AfterChange(op, ss, id, (x: Session) => if x.exited then x else x.(exited := true, touched := now));
    case BeginRead(id, now) => AfterChange(op, ss, id, (x: Session) => x.(observers := x.observers + 1, touched := now));
    case Collect(_, _, _) => CollectExactly(cfg, ss, op);
    case EndRead(id, touch) =>
      AfterChange(op, ss, id, (x: Session) => x.(
        observers := if x.observers > 0 then x.observers - 1 else 0,
        touched := if touch.Some? then touch.value else x.touched));
    case Sweep(deadline) => AfterSelect(op, ss, (x: Session) => !(x.Releasable() && x.touched <= deadline));
    case Remove(id) => AfterSelect(op, ss, (s: Session) => s.id != id);
  }

  // ---- admission ----

  /** Nothing more can be started. */
  predicate Crowded(cfg: Config, ss: seq<Session>) {
    |ss| >= cfg.maxSessions || Retained(ss) >= cfg.total
  }

  /** `room` is what admission leaves: nothing goes while there is room; while there is none, finished
      sessions go, least recently touched first, until there is room or none of them is left. */
  ghost predicate MakesRoom(cfg: Config, ss: seq<Session>, room: seq<Session>, gone: seq<Session>) {
    && (forall i :: 0 <= i < |gone| ==> gone[i] in ss && Finished(gone[i]) && gone[i] !in room)
    && (forall s :: s in room <==> s in ss && s !in gone)
    && (forall i, j :: 0 <= i < j < |gone| ==> gone[i].touched <= gone[j].touched)
    && (forall s, i :: s in room && Finished(s) && 0 <= i < |gone| ==> gone[i].touched <= s.touched)
    && (Crowded(cfg, room) ==> forall s :: s in room ==> !Finished(s))
    && (gone != [] ==> Crowded(cfg, ss))
  }

  lemma {:induction false} RoomMade(cfg: Config, ss: seq<Session>, queue: seq<Session>) returns (k: nat)
    requires Distinct(ss) && Listed(queue, ss)
    ensures k <= |queue|
    ensures var r := MakeRoom(cfg, ss, queue);
      && (forall s :: s in r <==> s in ss && s !in queue[..k])
      && (k < |queue| ==> !Crowded(cfg, r)) && (k > 0 ==> Crowded(cfg, ss))
    decreases |queue|
  {
    hide Distinct, Retained, Without;
    if queue == [] || !Full(cfg, ss) {
      k := 0;
    } else {
      var q, rest := queue[0], queue[1..];
      assert queue == [q] + rest;
      ListedTail(ss, queue, q.id);
      WithoutIs(ss, q);
      var j := RoomMade(cfg, Without(ss, q.id), rest);
      k := j + 1;
      assert queue[..k] == [q] + rest[..j];
    }
  }

  lemma WithoutIs(ss: seq<Session>, q: Session)
    requires Distinct(ss) && q in ss
    ensures forall s :: s in Without(ss, q.id) <==> s in ss && s != q
  {
  }

  /** A session is admitted exactly when admission makes room for it and its id is new; and what
      admission releases are the oldest finished sessions, and only while there is no room. */
  lemma StartExactly(cfg: Config, ss: seq<Session>, id: nat, now: int) returns (room: seq<Session>, gone: seq<Session>)
    requires Inv(cfg, ss)
    ensures MakesRoom(cfg, ss, room, gone)
    ensures Step(cfg, ss, Start(id, now)) ==
      if Crowded(cfg, room) || exists s :: s in ss && s.id == id then room else room + [Session(id, EmptyView, now, 1, false)]
  {
    room := Admit(cfg, ss);
    var queue := ReleaseOrder(ss);
    OrdersListed(ss, 0);
    assert HasId(ss, id) <==> exists s :: s in ss && s.id == id by { IdHeld(ss, id); }
    if Full(cfg, ss) {
      var k := RoomMade(cfg, ss, queue);
      gone := queue[..k];
      GoneFirst(cfg, ss, room, queue, k);
    } else {
      gone := [];
    }
  }

  lemma IdHeld(ss: seq<Session>, id: nat)
    ensures HasId(ss, id) <==> exists s :: s in ss && s.id == id
  {
    if s :| s in ss && s.id == id {
      var i :| 0 <= i < |ss| && ss[i] == s;
    }
  }

  lemma GoneFirst(cfg: Config, ss: seq<Session>, room: seq<Session>, queue: seq<Session>, k: nat)
    requires Sorted(queue) && k <= |queue| && (forall s :: s in queue <==> s in ss && s.Releasable())
    requires (forall s :: s in room <==> s in ss && s !in queue[..k]) && (k < |queue| ==> !Crowded(cfg, room)) && (k > 0 ==> Crowded(cfg, ss))
    ensures MakesRoom(cfg, ss, room, queue[..k])
  {
    hide Retained;
    var gone := queue[..k];
    assert forall j :: 0 <= j < k ==> gone[j] == queue[j] && queue[j] in gone;
    forall s | s in room && Crowded(cfg, room) ensures !Finished(s) {
      assert queue[..|queue|] == queue;
      assert s in ss && s !in queue;
    }
    forall s, i | s in room && Finished(s) && 0 <= i < |gone| ensures gone[i].touched <= s.touched {
      assert s in queue;
      var j :| 0 <= j < |queue| && queue[j] == s;
      assert j >= k;
    }
  }
}
