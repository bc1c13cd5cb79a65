/** `TerminalManager`: many terminals share one budget of unread output. Sessions are kept in
    insertion order, as the program's Map keeps them, and each buffer is the view that
    `RollingOutputBuffer` is proved to implement. */
module Terminals {
  import opened Utf8
  import opened ByteQueues
  import opened OutputViews
  import OutputHistories

  const TERMINAL_READ_BYTES: nat := 4 * 1024 * 1024

  datatype Session = Session(id: nat, buffer: View, touched: int, observers: nat, exited: bool) {
    /** Finished, and no call is reading it. */
    predicate Releasable() {
      exited && observers == 0
    }
  }

  datatype Config = Config(limits: Limits, total: nat, maxSessions: nat)

  function Ids(ss: seq<Session>): set<nat> {
    set i | 0 <= i < |ss| :: ss[i].id
  }

  predicate Distinct(ss: seq<Session>) {
    forall i, j :: 0 <= i < j < |ss| ==> ss[i].id != ss[j].id
  }

  function Retained(ss: seq<Session>): nat {
    if ss == [] then 0 else Retained(ss[..|ss| - 1]) + ss[|ss| - 1].buffer.Bytes()
  }

  function HeadBytes(ss: seq<Session>): nat {
    if ss == [] then 0 else HeadBytes(ss[..|ss| - 1]) + |ss[|ss| - 1].buffer.head|
  }

  function Change(ss: seq<Session>, id: nat, f: Session -> Session): (r: seq<Session>)
    ensures |r| == |ss|
    ensures forall i :: 0 <= i < |ss| ==> r[i] == if ss[i].id == id then f(ss[i]) else ss[i]
  {
    seq(|ss|, i requires 0 <= i < |ss| => if ss[i].id == id then f(ss[i]) else ss[i])
  }

  /** Stable, as Array.prototype.sort is. */
  function Insert(sorted: seq<Session>, s: Session): seq<Session> {
    if sorted == [] || sorted[|sorted| - 1].touched <= s.touched then sorted + [s]
    else Insert(sorted[..|sorted| - 1], s) + [sorted[|sorted| - 1]]
  }

  function ByTouched(ss: seq<Session>): seq<Session> {
    if ss == [] then [] else Insert(ByTouched(ss[..|ss| - 1]), ss[|ss| - 1])
  }

  predicate Sorted(ss: seq<Session>) {
    forall i, j :: 0 <= i < j < |ss| ==> ss[i].touched <= ss[j].touched
  }

  function Select(ss: seq<Session>, keep: Session -> bool): (r: seq<Session>)
    ensures forall s :: s in r <==> s in ss && keep(s)
  {
    if ss == [] then []
    else
      var rest, last := Select(ss[..|ss| - 1], keep), ss[|ss| - 1];
      assert forall s :: s in ss <==> s in ss[..|ss| - 1] || s == last;
      if keep(last) then rest + [last] else rest
  }

  function Without(ss: seq<Session>, id: nat): seq<Session> {
    Select(ss, (s: Session) => s.id != id)
  }

  /** The sessions that may be given up for room, in the order in which they go: least recently
      touched in front. */
  function ReleaseOrder(ss: seq<Session>): seq<Session> {
    ByTouched(Select(ss, (s: Session) => s.Releasable()))
  }

  lemma {:induction false} InsertFacts(sorted: seq<Session>, s: Session)
    requires Sorted(sorted)
    ensures var r := Insert(sorted, s);
            && Sorted(r) && |r| == |sorted| + 1
            && (forall x :: x in r <==> x in sorted || x == s)
  {
    if sorted != [] && sorted[|sorted| - 1].touched > s.touched {
      var init, last := sorted[..|sorted| - 1], sorted[|sorted| - 1];
      InsertFacts(init, s);
      var r := Insert(init, s);
      assert sorted == init + [last];
      assert forall i :: 0 <= i < |r| ==> r[i] in r;
      assert forall x :: x in r ==> x.touched <= last.touched;
    }
  }

  lemma {:induction false} SortFacts(ss: seq<Session>)
    ensures Sorted(ByTouched(ss)) && |ByTouched(ss)| == |ss|
    ensures forall x :: x in ByTouched(ss) <==> x in ss
  {
    if ss != [] {
      var init, last := ss[..|ss| - 1], ss[|ss| - 1];
      SortFacts(init);
      InsertFacts(ByTouched(init), last);
      assert ss == init + [last];
    }
  }

  lemma {:induction false} SelectDistinct(ss: seq<Session>, keep: Session -> bool)
    requires Distinct(ss)
    ensures Distinct(Select(ss, keep)) && |Select(ss, keep)| <= |ss|
  {
    if ss != [] {
      var init, last := ss[..|ss| - 1], ss[|ss| - 1];
      SelectDistinct(init, keep);
      var r := Select(init, keep);
      forall i | 0 <= i < |r|
        ensures r[i].id != last.id
      {
        assert r[i] in r;
      }
    }
  }

  lemma {:induction false} WithoutAbsent(ss: seq<Session>, id: nat)
    requires forall s :: s in ss ==> s.id != id
    ensures Without(ss, id) == ss
  {
    if ss != [] {
      var init, last := ss[..|ss| - 1], ss[|ss| - 1];
      assert ss == init + [last];
      WithoutAbsent(init, id);
    }
  }

  /** Removing a session gives back exactly its unread bytes. */
  lemma {:induction false} RetainedWithout(ss: seq<Session>, s: Session)
    requires Distinct(ss) && s in ss
    ensures Retained(Without(ss, s.id)) + s.buffer.Bytes() == Retained(ss)
    ensures |Without(ss, s.id)| == |ss| - 1
  {
    var init, last := ss[..|ss| - 1], ss[|ss| - 1];
    assert ss == init + [last];
    if last == s {
      assert forall x :: x in init ==> x.id != s.id;
      WithoutAbsent(init, s.id);
    } else {
      RetainedWithout(init, s);
      var r := Without(init, s.id);
      assert last.id != s.id;
      assert (r + [last])[..|r|] == r;
      assert Without(ss, s.id) == r + [last];
    }
  }

  // ---- enforceBudget ----

  function Release(ss: seq<Session>, queue: seq<Session>, source: nat, excess: int): (seq<Session>, int)
    decreases |queue|
  {
    if queue == [] || excess <= 0 then (ss, excess)
    else if queue[0].id == source then Release(ss, queue[1..], source, excess)
    else Release(Without(ss, queue[0].id), queue[1..], source, excess - queue[0].buffer.Bytes())
  }

  function ShedSession(s: Session, excess: int): Session {
    s.(buffer := ShedView(s.buffer, excess))
  }

  function Shed(s: Session, excess: int): nat {
    |s.buffer.tail| - |ShedView(s.buffer, excess).tail|
  }

  function ShedEach(ss: seq<Session>, queue: seq<Session>, excess: int): seq<Session>
    decreases |queue|
  {
    if queue == [] || excess <= 0 then ss
    else ShedEach(Change(ss, queue[0].id, x => ShedSession(x, excess)), queue[1..], excess - Shed(queue[0], excess))
  }

  /** Who sheds: `source`, whose output grew, before all others, and these by age. */
  function ShedOrder(ss: seq<Session>, source: nat): seq<Session> {
    Select(ss, (s: Session) => s.id == source) + ByTouched(Without(ss, source))
  }

  function Enforce(total: nat, ss: seq<Session>, source: nat): seq<Session> {
    var excess := Retained(ss) - total;
    if excess <= 0 then ss
    else
      var (kept, left) := Release(ss, ReleaseOrder(ss), source, excess);
      ShedEach(kept, ShedOrder(kept, source), left)
  }

  predicate Listed(queue: seq<Session>, ss: seq<Session>) {
    Distinct(queue) && forall i :: 0 <= i < |queue| ==> queue[i] in ss
  }

  /** How many turns the release loop takes. */
  function Turns(queue: seq<Session>, source: nat, excess: int): (k: nat)
    ensures k <= |queue|
    decreases |queue|
  {
    if queue == [] || excess <= 0 then 0
    else 1 + Turns(queue[1..], source, if queue[0].id == source then excess else excess - queue[0].buffer.Bytes())
  }

  lemma {:induction false} ReleaseFacts(ss: seq<Session>, queue: seq<Session>, source: nat, excess: int)
    requires Distinct(ss) && Listed(queue, ss)
    ensures var (r, left) := Release(ss, queue, source, excess);
            var k := Turns(queue, source, excess);
            && left - excess == Retained(r) - Retained(ss)
            && Distinct(r) && |r| <= |ss|
            && (forall s :: s in r <==> s in ss && !(s.id != source && s in queue[..k]))
            && (left > 0 ==> k == |queue|)
            && (excess <= 0 ==> r == ss)
    decreases |queue|
  {
    hide Distinct, Retained, Without;
    if queue != [] && excess > 0 {
      var q, rest := queue[0], queue[1..];
      var left := if q.id == source then excess else excess - q.buffer.Bytes();
      var k := Turns(rest, source, left);
      assert queue[..k + 1] == [q] + rest[..k];
      ListedTail(ss, queue, source);
      if q.id == source {
        ReleaseFacts(ss, rest, source, excess);
      } else {
        RetainedWithout(ss, q);
        ReleaseFacts(Without(ss, q.id), rest, source, left);
      }
    }
  }

  lemma ListedTail(ss: seq<Session>, queue: seq<Session>, source: nat)
    requires Distinct(ss) && Listed(queue, ss) && queue != []
    ensures Listed(queue[1..], ss)
    ensures var next := Without(ss, queue[0].id);
            && Distinct(next) && |next| <= |ss| && Listed(queue[1..], next)
            && forall s :: s in next <==> s in ss && s != queue[0]
  {
    var q, rest := queue[0], queue[1..];
    SelectDistinct(ss, (s: Session) => s.id != q.id);
    SameId(ss, q);
    forall i | 0 <= i < |rest|
      ensures rest[i] in ss && rest[i].id != q.id
    {
      assert rest[i] == queue[i + 1];
    }
  }

  lemma SameId(ss: seq<Session>, q: Session)
    requires Distinct(ss) && q in ss
    ensures forall s :: s in ss && s.id == q.id ==> s == q
  {
  }

  /** `c` is `b`, or `b` with its oldest tail bytes moved to the reported gap. */
  predicate CutFrom(b: View, c: View) {
    || c == b
    || (|c.tail| <= |b.tail|
        && c == b.(tail := b.tail[|b.tail| - |c.tail|..], omitted := Saturate(b.omitted + |b.tail| - |c.tail|)))
  }

  /** `x` is the session `s`, with at most its tail cut. */
  predicate Same(s: Session, x: Session) {
    x == s.(buffer := x.buffer) && CutFrom(s.buffer, x.buffer)
  }

  predicate OnlyShed(ss: seq<Session>, r: seq<Session>) {
    |r| == |ss| && forall i :: 0 <= i < |ss| ==> Same(ss[i], r[i])
  }

  lemma {:induction false} ChangeRetained(ss: seq<Session>, s: Session, excess: int)
    requires Distinct(ss) && s in ss
    ensures var r := Change(ss, s.id, x => ShedSession(x, excess));
            && Retained(r) == Retained(ss) - Shed(s, excess)
            && HeadBytes(r) == HeadBytes(ss)
  {
    var f := (x: Session) => ShedSession(x, excess);
    var init, last := ss[..|ss| - 1], ss[|ss| - 1];
    var r := Change(ss, s.id, f);
    assert ss == init + [last];
    assert r[..|r| - 1] == Change(init, s.id, f);
    if last == s {
      assert Change(init, s.id, f) == init;
    } else {
      ChangeRetained(init, s, excess);
    }
  }

  /** A shed gives what was asked, or the whole tail. */
  lemma ShedAmount(s: Session, excess: int)
    ensures Shed(s, excess) >= excess || ShedSession(s, excess).buffer.tail == []
  {
  }

  lemma ShedStep(ss: seq<Session>, queue: seq<Session>, excess: int)
    requires Distinct(ss) && Listed(queue, ss) && queue != []
    ensures var next := Change(ss, queue[0].id, x => ShedSession(x, excess));
            && Distinct(next) && OnlyShed(ss, next) && Listed(queue[1..], next)
            && (forall i :: 0 <= i < |ss| && ss[i] in queue ==> ss[i] == queue[0] || (ss[i] == next[i] && ss[i] in queue[1..]))
            && (forall i :: 0 <= i < |ss| && ss[i] == queue[0] ==> next[i] == ShedSession(queue[0], excess))
  {
    var q, rest := queue[0], queue[1..];
    var next := Change(ss, q.id, x => ShedSession(x, excess));
    SameId(ss, q);
    assert queue == [q] + rest;
    forall i | 0 <= i < |rest|
      ensures rest[i] in next
    {
      assert rest[i] == queue[i + 1];
      var j :| 0 <= j < |ss| && ss[j] == rest[i];
      assert next[j] == ss[j];
    }
  }

  predicate Emptied(ss: seq<Session>, queue: seq<Session>, r: seq<Session>)
    requires |ss| == |r|
  {
    forall i :: 0 <= i < |ss| && ss[i] in queue ==> r[i].buffer.tail == []
  }

  lemma {:induction false} ShedFacts(ss: seq<Session>, queue: seq<Session>, excess: int, total: nat)
    requires Distinct(ss) && Listed(queue, ss) && excess == Retained(ss) - total
    ensures var r := ShedEach(ss, queue, excess);
            && |r| == |ss| && OnlyShed(ss, r)
            && (Retained(r) > total ==> Emptied(ss, queue, r))
    decreases |queue|
  {
    hide Distinct, Retained, Change, Shed, Listed, OnlyShed, Emptied;
    if queue == [] || excess <= 0 {
      NothingShed(ss, queue);
    } else {
      var q := queue[0];
      var next := Change(ss, q.id, x => ShedSession(x, excess));
      assert q in ss by { ListedFirst(ss, queue); }
      ChangeRetained(ss, q, excess);
      ShedStep(ss, queue, excess);
      ShedFacts(next, queue[1..], excess - Shed(q, excess), total);
      var r := ShedEach(ss, queue, excess);
      OnlyShedTransitive(ss, next, r);
      if Retained(r) > total {
        ShedAmount(q, excess);
        assert r == ShedEach(next, queue[1..], excess - Shed(q, excess));
        assert Shed(q, excess) < excess;
        EmptiedStep(ss, queue, excess, next, r);
      }
    }
  }

  lemma ListedFirst(ss: seq<Session>, queue: seq<Session>)
    requires Listed(queue, ss) && queue != []
    ensures queue[0] in ss
  {
  }

  lemma NothingShed(ss: seq<Session>, queue: seq<Session>)
    ensures OnlyShed(ss, ss) && (queue == [] ==> Emptied(ss, queue, ss))
  {
  }

  lemma EmptiedStep(ss: seq<Session>, queue: seq<Session>, excess: int, next: seq<Session>, r: seq<Session>)
    requires Distinct(ss) && Listed(queue, ss) && queue != [] && Shed(queue[0], excess) < excess
    requires next == Change(ss, queue[0].id, x => ShedSession(x, excess))
    requires OnlyShed(next, r) && Emptied(next, queue[1..], r)
    ensures Emptied(ss, queue, r)
  {
    hide Shed, Change;
    ShedStep(ss, queue, excess);
    ShedAmount(queue[0], excess);
    forall i | 0 <= i < |ss| && ss[i] in queue
      ensures r[i].buffer.tail == []
    {
      assert Same(next[i], r[i]);
    }
  }

  lemma OnlyShedTransitive(a: seq<Session>, b: seq<Session>, c: seq<Session>)
    requires OnlyShed(a, b) && OnlyShed(b, c)
    ensures OnlyShed(a, c)
  {
    forall i | 0 <= i < |a|
      ensures Same(a[i], c[i])
    {
      assert Same(a[i], b[i]) && Same(b[i], c[i]);
      CutTransitive(a[i].buffer, b[i].buffer, c[i].buffer);
    }
  }

  lemma CutTransitive(a: View, b: View, c: View)
    requires CutFrom(a, b) && CutFrom(b, c)
    ensures CutFrom(a, c)
  {
    if a != b && b != c {
      var n, m := |a.tail| - |b.tail|, |b.tail| - |c.tail|;
      assert a.tail[n..][m..] == a.tail[n + m..];
    }
  }

  lemma {:induction false} RetainedHeads(ss: seq<Session>)
    requires forall i :: 0 <= i < |ss| ==> ss[i].buffer.tail == []
    ensures Retained(ss) == HeadBytes(ss)
  {
    if ss != [] {
      RetainedHeads(ss[..|ss| - 1]);
    }
  }

  lemma {:induction false} HeadBound(ss: seq<Session>, limit: nat)
    requires forall i :: 0 <= i < |ss| ==> |ss[i].buffer.head| <= limit
    ensures HeadBytes(ss) <= |ss| * limit
  {
    if ss != [] {
      HeadBound(ss[..|ss| - 1], limit);
      assert |ss| * limit == (|ss| - 1) * limit + limit;
    }
  }

  lemma SortListed(ss: seq<Session>, keep: Session -> bool)
    requires Distinct(ss)
    ensures var order := ByTouched(Select(ss, keep));
            && Distinct(order) && Sorted(order)
            && forall s :: s in order <==> s in ss && keep(s)
  {
    hide Distinct, Sorted;
    SelectDistinct(ss, keep);
    SortFacts(Select(ss, keep));
    SortDistinct(Select(ss, keep));
  }

  lemma ListedMembers(queue: seq<Session>, ss: seq<Session>)
    requires Distinct(queue) && forall s :: s in queue ==> s in ss
    ensures Listed(queue, ss)
  {
  }

  lemma OrdersListed(ss: seq<Session>, source: nat)
    requires Distinct(ss)
    ensures Listed(ReleaseOrder(ss), ss) && Sorted(ReleaseOrder(ss))
    ensures forall s :: s in ReleaseOrder(ss) <==> s in ss && s.Releasable()
    ensures Listed(ShedOrder(ss, source), ss)
    ensures forall s :: s in ShedOrder(ss, source) <==> s in ss
  {
    hide Sorted, ByTouched, Listed;
    SortListed(ss, (s: Session) => s.Releasable());
    ListedMembers(ReleaseOrder(ss), ss);
    SortListed(ss, (s: Session) => s.id != source);
    SelectDistinct(ss, (s: Session) => s.id == source);
    var first, others := Select(ss, (s: Session) => s.id == source), ByTouched(Without(ss, source));
    DistinctConcat(first, others);
    ListedMembers(ShedOrder(ss, source), ss);
  }

  lemma DistinctConcat(a: seq<Session>, b: seq<Session>)
    requires Distinct(a) && Distinct(b) && forall x, y :: x in a && y in b ==> x.id != y.id
    ensures Distinct(a + b)
  {
    assert forall i :: 0 <= i < |a| ==> a[i] in a;
    assert forall i :: 0 <= i < |b| ==> b[i] in b;
  }

  lemma {:induction false} SortDistinct(ss: seq<Session>)
    requires Distinct(ss)
    ensures Distinct(ByTouched(ss))
  {
    if ss != [] {
      var init, last := ss[..|ss| - 1], ss[|ss| - 1];
      SortDistinct(init);
      SortFacts(init);
      assert forall x :: x in init ==> x.id != last.id;
      InsertDistinct(ByTouched(init), last);
    }
  }

  lemma {:induction false} InsertDistinct(sorted: seq<Session>, s: Session)
    requires Sorted(sorted) && Distinct(sorted) && forall x :: x in sorted ==> x.id != s.id
    ensures Distinct(Insert(sorted, s))
  {
    if sorted != [] && sorted[|sorted| - 1].touched > s.touched {
      var init, last := sorted[..|sorted| - 1], sorted[|sorted| - 1];
      assert sorted == init + [last];
      InsertDistinct(init, s);
      InsertFacts(init, s);
      var r := Insert(init, s);
      forall i | 0 <= i < |r|
        ensures r[i].id != last.id
      {
        assert r[i] in r;
      }
    }
  }

  predicate HasId(ss: seq<Session>, id: nat) {
    exists i :: 0 <= i < |ss| && ss[i].id == id
  }

  /** Over budget only when nothing is left to drop but the first output of each session. */
  predicate Settled(total: nat, ss: seq<Session>) {
    Retained(ss) <= total || forall i :: 0 <= i < |ss| ==> ss[i].buffer.tail == []
  }

  /** Every survivor is a session that was there, with at most its tail cut. */
  ghost predicate SameSessions(ss: seq<Session>, r: seq<Session>) {
    Distinct(r) && |r| <= |ss| && forall x :: x in r ==> exists s :: s in ss && Same(s, x)
  }

  /** A running or observed session is never released, nor is the one whose output grew. */
  predicate ReleasesFinished(ss: seq<Session>, source: nat, r: seq<Session>) {
    forall s :: s in ss && !HasId(r, s.id) ==> s.Releasable() && s.id != source
  }

  predicate ReleasesOldest(ss: seq<Session>, source: nat, r: seq<Session>) {
    forall s, q :: s in ss && !HasId(r, s.id) && q in ss && HasId(r, q.id) && q.Releasable() && q.id != source
      ==> s.touched <= q.touched
  }

  /** Output is dropped only after every other finished session was released. */
  predicate ReleasesBeforeDropping(ss: seq<Session>, source: nat, r: seq<Session>) {
    forall x, q :: x in r && x !in ss && q in ss && q.Releasable() && q.id != source ==> !HasId(r, q.id)
  }

  /** What `enforceBudget` promises about the sessions it leaves. */
  ghost predicate Enforced(total: nat, ss: seq<Session>, source: nat, r: seq<Session>) {
    && Settled(total, r)
    && (Retained(ss) <= total ==> r == ss)
    && SameSessions(ss, r)
    && ReleasesFinished(ss, source, r)
    && ReleasesOldest(ss, source, r)
    && ReleasesBeforeDropping(ss, source, r)
  }

  lemma EnforceKeepsPromise(total: nat, ss: seq<Session>, source: nat)
    requires Distinct(ss)
    ensures Enforced(total, ss, source, Enforce(total, ss, source))
  {
    hide Distinct, Retained, Release, ShedEach, ReleaseOrder, ShedOrder, Settled,
         SameSessions, ReleasesFinished, ReleasesOldest, ReleasesBeforeDropping;
    var excess := Retained(ss) - total;
    if excess > 0 {
      var (kept, left) := Release(ss, ReleaseOrder(ss), source, excess);
      var r := ShedEach(kept, ShedOrder(kept, source), left);
      ReleaseSettles(total, ss, source, kept, left);
      ReleasePromises(ss, source, excess, kept, left, r);
    } else {
      WithinBudget(total, ss, source);
    }
  }

  lemma ReleaseSettles(total: nat, ss: seq<Session>, source: nat, kept: seq<Session>, left: int)
    requires Distinct(ss) && (kept, left) == Release(ss, ReleaseOrder(ss), source, Retained(ss) - total)
    ensures var r := ShedEach(kept, ShedOrder(kept, source), left);
            && Settled(total, r) && Distinct(kept) && OnlyShed(kept, r) && (left <= 0 ==> r == kept)
  {
    hide Distinct, Retained, Release, ReleaseOrder, ShedOrder, Settled, OnlyShed, Turns;
    OrdersListed(ss, source);
    ReleaseFacts(ss, ReleaseOrder(ss), source, Retained(ss) - total);
    ShedSettles(total, kept, source, left);
  }

  lemma ReleasePromises(ss: seq<Session>, source: nat, excess: int, kept: seq<Session>, left: int, r: seq<Session>)
    requires Distinct(ss) && (kept, left) == Release(ss, ReleaseOrder(ss), source, excess)
    requires Distinct(kept) && OnlyShed(kept, r) && (left <= 0 ==> r == kept)
    ensures SameSessions(ss, r) && ReleasesFinished(ss, source, r)
    ensures ReleasesOldest(ss, source, r) && ReleasesBeforeDropping(ss, source, r)
  {
    hide *;
    var queue := ReleaseOrder(ss);
    var k := Turns(queue, source, excess);
    ChosenFrom(ss, source, excess, kept, left, r);
    FinishedOnly(ss, queue, source, k, kept, r);
    ReleasedOldestFirst(ss, queue, source, k, kept, r);
    AllReleased(ss, queue, source, k, kept, left, r);
  }

  /** `kept` are the sessions that the first `k` of the queue leave, and `r` has the same ids. */
  ghost predicate Chosen(ss: seq<Session>, queue: seq<Session>, source: nat, k: nat, kept: seq<Session>, r: seq<Session>) {
    && k <= |queue| && (forall q :: q in queue <==> q in ss && q.Releasable())
    && (forall s :: s in kept <==> s in ss && !(s.id != source && s in queue[..k]))
    && (forall s :: s in ss ==> (HasId(r, s.id) <==> s in kept))
  }

  lemma ChosenFrom(ss: seq<Session>, source: nat, excess: int, kept: seq<Session>, left: int, r: seq<Session>)
    requires Distinct(ss) && (kept, left) == Release(ss, ReleaseOrder(ss), source, excess)
    requires Distinct(kept) && OnlyShed(kept, r)
    ensures var queue := ReleaseOrder(ss); var k := Turns(queue, source, excess);
      Sorted(queue) && Chosen(ss, queue, source, k, kept, r) && (left > 0 ==> k == |queue|)
    ensures SameSessions(ss, r)
  {
    hide Distinct, Retained, ReleaseOrder, Release, Sorted, Listed, HasId, Same, OnlyShed, Turns, Session.Releasable, SameSessions;
    OrdersListed(ss, source);
    ReleaseFacts(ss, ReleaseOrder(ss), source, excess);
    SurvivorIds(kept, r);
    ReleasedIds(ss, kept, r);
    SurvivorsSame(ss, kept, r);
  }

  lemma SurvivorsSame(ss: seq<Session>, kept: seq<Session>, r: seq<Session>)
    requires |r| == |kept| <= |ss| && Distinct(r) && forall s :: s in kept ==> s in ss
    requires forall x :: x in r ==> exists s :: s in kept && Same(s, x)
    ensures SameSessions(ss, r)
  {
    hide Same, Distinct;
  }

  lemma FinishedOnly(ss: seq<Session>, queue: seq<Session>, source: nat, k: nat, kept: seq<Session>, r: seq<Session>)
    requires Chosen(ss, queue, source, k, kept, r)
    ensures ReleasesFinished(ss, source, r)
  {
    hide HasId;
    assert forall s :: s in queue[..k] ==> s in queue;
  }

  lemma WithinBudget(total: nat, ss: seq<Session>, source: nat)
    requires Retained(ss) <= total && Distinct(ss)
    ensures Enforced(total, ss, source, ss)
  {
    SelfSame(ss);
  }

  lemma ShedSettles(total: nat, kept: seq<Session>, source: nat, left: int)
    requires Distinct(kept) && left == Retained(kept) - total
    ensures var r := ShedEach(kept, ShedOrder(kept, source), left);
            OnlyShed(kept, r) && |r| == |kept| && Settled(total, r)
  {
    hide Distinct, Retained, Same, ShedOrder, ShedEach, Listed;
    OrdersListed(kept, source);
    ShedFacts(kept, ShedOrder(kept, source), left, total);
    assert forall i :: 0 <= i < |kept| ==> kept[i] in ShedOrder(kept, source);
  }

  lemma AllReleased(ss: seq<Session>, queue: seq<Session>, source: nat, k: nat, kept: seq<Session>, left: int, r: seq<Session>)
    requires Chosen(ss, queue, source, k, kept, r)
    requires left <= 0 ==> r == kept
    requires left > 0 ==> k == |queue|
    ensures ReleasesBeforeDropping(ss, source, r)
  {
    hide HasId;
    assert queue[..|queue|] == queue;
  }

  lemma SelfSame(ss: seq<Session>)
    ensures forall x :: x in ss ==> Same(x, x) && HasId(ss, x.id)
  {
  }

  lemma SurvivorIds(kept: seq<Session>, r: seq<Session>)
    requires OnlyShed(kept, r) && Distinct(kept)
    ensures Distinct(r) && |r| == |kept|
    ensures forall id :: HasId(r, id) <==> HasId(kept, id)
    ensures forall x :: x in r ==> exists s :: s in kept && Same(s, x)
  {
    forall x | x in r
      ensures exists s :: s in kept && Same(s, x)
    {
      var i :| 0 <= i < |r| && r[i] == x;
      assert Same(kept[i], x);
    }
    assert forall i :: 0 <= i < |kept| ==> r[i].id == kept[i].id;
  }

  lemma ReleasedIds(ss: seq<Session>, kept: seq<Session>, r: seq<Session>)
    requires Distinct(ss) && forall s :: s in kept ==> s in ss
    requires forall id :: HasId(r, id) <==> HasId(kept, id)
    ensures forall s :: s in ss ==> (HasId(r, s.id) <==> s in kept)
  {
    forall s | s in ss && HasId(kept, s.id)
      ensures s in kept
    {
      var i :| 0 <= i < |kept| && kept[i].id == s.id;
      assert kept[i] in ss;
      SameId(ss, s);
    }
    SelfSame(kept);
  }

  lemma ReleasedOldestFirst(ss: seq<Session>, queue: seq<Session>, source: nat, k: nat, kept: seq<Session>, r: seq<Session>)
    requires Sorted(queue) && Chosen(ss, queue, source, k, kept, r)
    ensures ReleasesOldest(ss, source, r)
  {
    forall s, q | s in ss && !HasId(r, s.id) && q in ss && HasId(r, q.id) && q.Releasable() && q.id != source
      ensures s.touched <= q.touched
    {
      assert s in queue[..k] && q in queue && q !in queue[..k];
      var i :| 0 <= i < k && queue[..k][i] == s;
      var j :| 0 <= j < |queue| && queue[j] == q;
      assert forall n :: 0 <= n < k ==> queue[..k][n] == queue[n];
    }
  }

  // ---- the operations ----

  predicate Full(cfg: Config, ss: seq<Session>) {
    |ss| >= cfg.maxSessions || Retained(ss) >= cfg.total
  }

  /** Release finished sessions, oldest first, while there is no room for one more. */
  function MakeRoom(cfg: Config, ss: seq<Session>, queue: seq<Session>): seq<Session>
    decreases |queue|
  {
    if queue == [] || !Full(cfg, ss) then ss
    else MakeRoom(cfg, Without(ss, queue[0].id), queue[1..])
  }

  function Admit(cfg: Config, ss: seq<Session>): seq<Session> {
    if Full(cfg, ss) then MakeRoom(cfg, ss, ReleaseOrder(ss)) else ss
  }

  lemma {:induction false} MakeRoomFacts(cfg: Config, ss: seq<Session>, queue: seq<Session>)
    requires Distinct(ss) && Listed(queue, ss)
    ensures var r := MakeRoom(cfg, ss, queue);
            && Distinct(r) && |r| <= |ss| && Retained(r) <= Retained(ss)
            && (forall s :: s in r ==> s in ss)
            && (forall s :: s in ss && s !in r ==> s in queue)
            && (Full(cfg, r) ==> forall q :: q in queue ==> q !in r)
    decreases |queue|
  {
    hide Distinct, Retained, Without;
    if queue != [] && Full(cfg, ss) {
      var q, rest := queue[0], queue[1..];
      assert queue == [q] + rest;
      ListedTail(ss, queue, q.id);
      RetainedWithout(ss, q);
      MakeRoomFacts(cfg, Without(ss, q.id), rest);
    }
  }

  datatype Operation =
    | Start(id: nat, now: int)
    | Append(id: nat, data: seq<byte>)
    | Exit(id: nat, now: int)
    | BeginRead(id: nat, now: int)
    | Collect(id: nat, now: int, tokens: Option<nat>)
    | EndRead(id: nat, touch: Option<int>)
    | Sweep(deadline: int)
    | Remove(id: nat)

  function Find(ss: seq<Session>, id: nat): Option<Session> {
    if ss == [] then None
    else if ss[|ss| - 1].id == id then Some(ss[|ss| - 1])
    else Find(ss[..|ss| - 1], id)
  }

  function Started(cfg: Config, ss: seq<Session>, id: nat, now: int): seq<Session> {
    var room := Admit(cfg, ss);
    if Full(cfg, room) || HasId(ss, id) then room else room + [Session(id, EmptyView, now, 1, false)]
  }

  function Appended(cfg: Config, ss: seq<Session>, id: nat, data: seq<byte>): seq<Session>
    requires AllValid(cfg, ss)
  {
    var s := Find(ss, id);
    if s.None? || s.value.exited then ss
    else
      FindIn(ss, id);
      var buffer := AppendView(cfg.limits, s.value.buffer, data);
      Enforce(cfg.total, Change(ss, id, (x: Session) => x.(buffer := buffer)), id)
  }

  /** `collect`: the session stays while it runs or has more to read. */
  function Collected(ss: seq<Session>, id: nat, now: int): seq<Session> {
    var s := Find(ss, id);
    if s.None? then ss
    else
      var buffer := ReadView(s.value.buffer, TERMINAL_READ_BYTES);
      if s.value.exited && !buffer.Pending() then Without(ss, id)
      else Change(ss, id, (x: Session) => x.(buffer := buffer, touched := now))
  }

  predicate AllValid(cfg: Config, ss: seq<Session>) {
    forall i :: 0 <= i < |ss| ==> ss[i].buffer.Valid(cfg.limits)
  }

  lemma {:induction false} FindIn(ss: seq<Session>, id: nat)
    ensures Find(ss, id).Some? ==> Find(ss, id).value in ss && Find(ss, id).value.id == id
    ensures Find(ss, id).None? <==> !HasId(ss, id)
  {
    if ss != [] && ss[|ss| - 1].id != id {
      FindIn(ss[..|ss| - 1], id);
      assert forall i :: 0 <= i < |ss| - 1 ==> ss[i] == ss[..|ss| - 1][i];
    }
  }

  function Step(cfg: Config, ss: seq<Session>, op: Operation): seq<Session>
    requires AllValid(cfg, ss)
  {
    match op
    case Start(id, now) => Started(cfg, ss, id, now)
    case Append(id, data) => Appended(cfg, ss, id, data)
    case Exit(id, now) => Change(ss, id, (x: Session) => if x.exited then x else x.(exited := true, touched := now))
    case BeginRead(id, now) => Change(ss, id, (x: Session) => x.(observers := x.observers + 1, touched := now))
    case Collect(id, now, _) => Collected(ss, id, now)
    case EndRead(id, touch) =>
      Change(ss, id, (x: Session) => x.(
        observers := if x.observers > 0 then x.observers - 1 else 0,
        touched := if touch.Some? then touch.value else x.touched))
    case Sweep(deadline) => Select(ss, (x: Session) => !(x.Releasable() && x.touched <= deadline))
    case Remove(id) => Without(ss, id)
  }

  /** At most `maxSessions` sessions, each within its own buffer, and together within the shared
      budget or within the first outputs that are never dropped. */
  ghost predicate Inv(cfg: Config, ss: seq<Session>) {
    && Distinct(ss) && AllValid(cfg, ss)
    && |ss| <= cfg.maxSessions
    && Retained(ss) <= Max(cfg.total, cfg.maxSessions * cfg.limits.head)
  }

  lemma {:induction false} SelectRetained(ss: seq<Session>, keep: Session -> bool)
    ensures Retained(Select(ss, keep)) <= Retained(ss)
  {
    if ss != [] {
      SelectRetained(ss[..|ss| - 1], keep);
      var r := Select(ss[..|ss| - 1], keep);
      assert (r + [ss[|ss| - 1]])[..|r|] == r;
    }
  }

  lemma {:induction false} ChangeKeepsBytes(ss: seq<Session>, id: nat, f: Session -> Session)
    requires forall s :: s in ss ==> f(s).buffer.Bytes() <= s.buffer.Bytes()
    ensures Retained(Change(ss, id, f)) <= Retained(ss)
  {
    if ss != [] {
      var init := ss[..|ss| - 1];
      assert Change(ss, id, f)[..|ss| - 1] == Change(init, id, f);
      assert ss[|ss| - 1] in ss;
      ChangeKeepsBytes(init, id, f);
    }
  }

  lemma SelectInv(cfg: Config, ss: seq<Session>, keep: Session -> bool)
    requires Inv(cfg, ss)
    ensures Inv(cfg, Select(ss, keep))
  {
    SelectDistinct(ss, keep);
    SelectRetained(ss, keep);
    var r := Select(ss, keep);
    forall i | 0 <= i < |r|
      ensures r[i].buffer.Valid(cfg.limits)
    {
      assert r[i] in r;
    }
  }

  lemma ChangeInv(cfg: Config, ss: seq<Session>, id: nat, f: Session -> Session)
    requires Inv(cfg, ss)
    requires forall s :: s in ss ==> f(s).id == s.id && f(s).buffer.Valid(cfg.limits) && f(s).buffer.Bytes() <= s.buffer.Bytes()
    ensures Inv(cfg, Change(ss, id, f))
  {
    ChangeKeepsBytes(ss, id, f);
    assert forall i :: 0 <= i < |ss| ==> ss[i] in ss;
  }

  lemma SettledBound(cfg: Config, ss: seq<Session>)
    requires AllValid(cfg, ss) && |ss| <= cfg.maxSessions && Settled(cfg.total, ss)
    ensures Retained(ss) <= Max(cfg.total, cfg.maxSessions * cfg.limits.head)
  {
    hide Retained, HeadBytes;
    if Retained(ss) > cfg.total {
      RetainedHeads(ss);
      HeadBound(ss, cfg.limits.head);
      Scaled(|ss|, cfg.maxSessions, cfg.limits.head);
    }
  }

  lemma Scaled(a: nat, b: nat, c: nat)
    requires a <= b
    ensures a * c <= b * c
  {
  }

  lemma AdmitFacts(cfg: Config, ss: seq<Session>)
    requires Distinct(ss)
    ensures var r := Admit(cfg, ss);
            && Distinct(r) && |r| <= |ss| && Retained(r) <= Retained(ss)
            && (forall s :: s in r ==> s in ss)
            && (forall s :: s in ss && s !in r ==> s.Releasable())
            && (Full(cfg, r) ==> forall s :: s in r ==> !s.Releasable())
  {
    hide Distinct, Retained, Sorted, Listed, MakeRoom, ReleaseOrder, Full;
    OrdersListed(ss, 0);
    MakeRoomFacts(cfg, ss, ReleaseOrder(ss));
    if !Full(cfg, ss) {
      assert Admit(cfg, ss) == ss;
    }
  }

  lemma AllValidMembers(cfg: Config, ss: seq<Session>, r: seq<Session>)
    requires AllValid(cfg, ss) && forall s :: s in r ==> s in ss
    ensures AllValid(cfg, r)
  {
    forall i | 0 <= i < |r|
      ensures r[i].buffer.Valid(cfg.limits)
    {
      assert r[i] in ss;
    }
  }

  lemma StartKeeps(cfg: Config, ss: seq<Session>, id: nat, now: int)
    requires cfg.limits.Valid() && Inv(cfg, ss)
    ensures Inv(cfg, Started(cfg, ss, id, now))
  {
    var room := Admit(cfg, ss);
    AdmitFacts(cfg, ss);
    AllValidMembers(cfg, ss, room);
    if !Full(cfg, room) && !HasId(ss, id) {
      var s := Session(id, EmptyView, now, 1, false);
      assert (room + [s])[..|room|] == room;
      assert forall i :: 0 <= i < |room| ==> room[i] in ss;
    }
  }

  lemma AppendKeeps(cfg: Config, ss: seq<Session>, id: nat, data: seq<byte>)
    requires cfg.limits.Valid() && Inv(cfg, ss)
    ensures Inv(cfg, Appended(cfg, ss, id, data))
    ensures Find(ss, id).Some? && !Find(ss, id).value.exited ==> Settled(cfg.total, Appended(cfg, ss, id, data))
  {
    hide Distinct, Retained, Enforce, AppendView, Same, Settled, View.Valid, HasId;
    FindIn(ss, id);
    var s := Find(ss, id);
    if s.Some? && !s.value.exited {
      var buffer := AppendView(cfg.limits, s.value.buffer, data);
      var grown := Change(ss, id, (x: Session) => x.(buffer := buffer));
      OutputHistories.AppendValid(cfg.limits, s.value.buffer, data);
      ChangeDistinct(ss, id, (x: Session) => x.(buffer := buffer));
      EnforceKeepsPromise(cfg.total, grown, id);
      SurvivorsValid(cfg, grown, Enforce(cfg.total, grown, id));
      SettledBound(cfg, Enforce(cfg.total, grown, id));
    }
  }

  lemma ChangeDistinct(ss: seq<Session>, id: nat, f: Session -> Session)
    requires Distinct(ss) && forall s :: s in ss ==> f(s).id == s.id
    ensures Distinct(Change(ss, id, f))
  {
    assert forall i :: 0 <= i < |ss| ==> ss[i] in ss;
  }

  lemma SurvivorsValid(cfg: Config, ss: seq<Session>, r: seq<Session>)
    requires AllValid(cfg, ss) && SameSessions(ss, r)
    ensures AllValid(cfg, r)
  {
    hide Distinct;
    forall i | 0 <= i < |r|
      ensures r[i].buffer.Valid(cfg.limits)
    {
      assert r[i] in r;
      var s :| s in ss && Same(s, r[i]);
    }
  }

  lemma CollectKeeps(cfg: Config, ss: seq<Session>, id: nat, now: int)
    requires cfg.limits.Valid() && Inv(cfg, ss)
    ensures Inv(cfg, Collected(ss, id, now))
  {
    hide Take, AppendView, Distinct, Retained;
    FindIn(ss, id);
    var s := Find(ss, id);
    if s.Some? {
      var buffer := ReadView(s.value.buffer, TERMINAL_READ_BYTES);
      if s.value.exited && !buffer.Pending() {
        SelectInv(cfg, ss, (x: Session) => x.id != id);
      } else {
        SameId(ss, s.value);
        var f := (x: Session) => if x.id == id then x.(buffer := buffer, touched := now) else x;
        ChangeInv(cfg, ss, id, f);
        assert Change(ss, id, f) == Change(ss, id, (x: Session) => x.(buffer := buffer, touched := now));
      }
    }
  }

  lemma StepKeeps(cfg: Config, ss: seq<Session>, op: Operation)
    requires cfg.limits.Valid() && Inv(cfg, ss)
    ensures Inv(cfg, Step(cfg, ss, op))
  {
    hide Inv, Started, Appended, Collected;
    match op
    case Start(id, now) => StartKeeps(cfg, ss, id, now);
    case Append(id, data) => AppendKeeps(cfg, ss, id, data);
    case Collect(id, now, _) => CollectKeeps(cfg, ss, id, now);
    case Sweep(deadline) => SelectInv(cfg, ss, (x: Session) => !(x.Releasable() && x.touched <= deadline));
    case Remove(id) => SelectInv(cfg, ss, (s: Session) => s.id != id);
    case _ => QuietKeeps(cfg, ss, op);
  }

  /** Steps that touch no output. */
  lemma QuietKeeps(cfg: Config, ss: seq<Session>, op: Operation)
    requires Inv(cfg, ss) && (op.Exit? || op.BeginRead? || op.EndRead?)
    ensures Inv(cfg, Step(cfg, ss, op))
  {
    hide View.Valid, Distinct, Retained;
    assert forall s :: s in ss ==> s.buffer.Valid(cfg.limits);
    match op
    case Exit(id, now) =>
      ChangeInv(cfg, ss, id, (x: Session) => if x.exited then x else x.(exited := true, touched := now));
    case BeginRead(id, now) =>
      ChangeInv(cfg, ss, id, (x: Session) => x.(observers := x.observers + 1, touched := now));
    case EndRead(id, touch) =>
      ChangeInv(cfg, ss, id, (x: Session) => x.(
        observers := if x.observers > 0 then x.observers - 1 else 0,
        touched := if touch.Some? then touch.value else x.touched));
  }

  function Run(cfg: Config, ops: seq<Operation>): (ss: seq<Session>)
    requires cfg.limits.Valid()
    ensures Inv(cfg, ss)
  {
    if ops == [] then
      []
    else
      var ss := Run(cfg, ops[..|ops| - 1]);
      StepKeeps(cfg, ss, ops[|ops| - 1]);
      Step(cfg, ss, ops[|ops| - 1])
  }

  /** In every reachable state the shared budget holds, up to the first outputs; so it holds
      outright when the first outputs of all sessions fit in it. */
  lemma SharedBudget(cfg: Config, ops: seq<Operation>)
    requires cfg.limits.Valid()
    ensures var ss := Run(cfg, ops);
            && |ss| <= cfg.maxSessions
            && Retained(ss) <= Max(cfg.total, cfg.maxSessions * cfg.limits.head)
            && (cfg.maxSessions * cfg.limits.head <= cfg.total ==> Retained(ss) <= cfg.total)
  {
    hide Run;
  }

  /** A new session, more output and the idle sweep never remove a running session or one that a
      call is reading. */
  lemma RunningStays(cfg: Config, ss: seq<Session>, op: Operation, s: Session)
    requires cfg.limits.Valid() && Inv(cfg, ss) && (op.Start? || op.Append? || op.Sweep?)
    requires s in ss && !s.Releasable()
    ensures HasId(Step(cfg, ss, op), s.id)
  {
    hide Distinct, Retained, AppendView, Same, Settled, Admit, Enforce, Full;
    match op
    case Start(id, now) =>
      AdmitFacts(cfg, ss);
      assert s in Admit(cfg, ss);
      assert s in Started(cfg, ss, id, now);
    case Append(id, data) =>
      FindIn(ss, id);
      var found := Find(ss, id);
      if found.Some? && !found.value.exited {
        var buffer := AppendView(cfg.limits, found.value.buffer, data);
        var f := (x: Session) => x.(buffer := buffer);
        var grown := Change(ss, id, f);
        ChangeDistinct(ss, id, f);
        EnforceKeepsPromise(cfg.total, grown, id);
        var i :| 0 <= i < |ss| && ss[i] == s;
        assert grown[i].id == s.id && !grown[i].Releasable();
        assert grown[i] in grown;
      }
    case Sweep(deadline) =>
      assert s in Step(cfg, ss, op);
  }

  class TerminalManager {
    const cfg: Config
    var sessions: seq<Session>

    ghost predicate Valid()
      reads this
    {
      cfg.limits.Valid() && Inv(cfg, sessions)
    }

    /** The preconditions are the limits that the program's constructor checks. */
    constructor (bufferBytes: nat, totalBufferBytes: nat, maxSessions: nat)
      requires 64 <= bufferBytes && 1 <= totalBufferBytes && 1 <= maxSessions
      ensures Valid() && sessions == []
      ensures cfg == Config(LimitsOf(bufferBytes), Max(totalBufferBytes, bufferBytes), maxSessions)
    {
      cfg := Config(LimitsOf(bufferBytes), Max(totalBufferBytes, bufferBytes), maxSessions);
      sessions := [];
    }

    method RetainedBytes() returns (total: nat)
      ensures total == Retained(sessions)
    {
      total := 0;
      for i := 0 to |sessions|
        invariant total == Retained(sessions[..i])
      {
        assert sessions[..i + 1][..i] == sessions[..i];
        total := total + sessions[i].buffer.Bytes();
      }
      assert sessions[..|sessions|] == sessions;
    }

    method IsFull() returns (full: bool)
      ensures full == Full(cfg, sessions)
    {
      var total := RetainedBytes();
      full := |sessions| >= cfg.maxSessions || total >= cfg.total;
    }

    /** `enforceBudget`: releases, then sheds, until the unread bytes of all sessions fit. */
    method EnforceBudget(source: nat)
      modifies this
      ensures sessions == Enforce(cfg.total, old(sessions), source)
    {
      hide Retained, ReleaseOrder, ShedOrder, Without, Change, Shed, ShedSession;
      var total := RetainedBytes();
      var excess := total - cfg.total;
      if excess <= 0 {
        return;
      }
      var queue := ReleaseOrder(sessions);
      while queue != [] && excess > 0
        invariant Release(sessions, queue, source, excess)
               == Release(old(sessions), ReleaseOrder(old(sessions)), source, Retained(old(sessions)) - cfg.total)
        decreases |queue|
      {
        var session := queue[0];
        queue := queue[1..];
        if session.id != source {
          excess := excess - session.buffer.Bytes();
          sessions := Without(sessions, session.id);
        }
      }
      ghost var kept, left := sessions, excess;
      queue := ShedOrder(sessions, source);
      while queue != [] && excess > 0
        invariant ShedEach(sessions, queue, excess) == ShedEach(kept, ShedOrder(kept, source), left)
        decreases |queue|
      {
        var session := queue[0];
        queue := queue[1..];
        var limit := excess;
        sessions := Change(sessions, session.id, (x: Session) => ShedSession(x, limit));
        excess := excess - Shed(session, limit);
      }
    }

    /** `data` events: output of a running, still listed session. */
    method Append(id: nat, data: seq<byte>)
      requires Valid()
      modifies this
      ensures Valid() && sessions == Step(cfg, old(sessions), Operation.Append(id, data))
      ensures Find(old(sessions), id).Some? && !Find(old(sessions), id).value.exited ==> Settled(cfg.total, sessions)
    {
      hide Inv, AppendView, Enforce, Settled, Retained;
      StepKeeps(cfg, sessions, Operation.Append(id, data));
      AppendKeeps(cfg, sessions, id, data);
      FindIn(sessions, id);
      assert AllValid(cfg, sessions) by { InvValid(cfg, sessions); }
      var found := Find(sessions, id);
      if found.None? || found.value.exited {
        return;
      }
      var buffer := AppendView(cfg.limits, found.value.buffer, data);
      sessions := Change(sessions, id, (x: Session) => x.(buffer := buffer));
      EnforceBudget(id);
    }

    /** `admit` and the insertion that follows it; false stands for the two limit errors. */
    method Start(id: nat, now: int) returns (started: bool)
      requires Valid() && !HasId(sessions, id)
      modifies this
      ensures Valid() && sessions == Step(cfg, old(sessions), Operation.Start(id, now))
      ensures started == HasId(sessions, id)
    {
      hide Inv, Retained, ByTouched;
      StepKeeps(cfg, sessions, Operation.Start(id, now));
      AdmitFacts(cfg, sessions) by { InvValid(cfg, sessions); }
      var full := IsFull();
      var queue := if full then ReleaseOrder(sessions) else [];
      while queue != [] && full
        invariant full == Full(cfg, sessions)
        invariant full ==> MakeRoom(cfg, sessions, queue) == Admit(cfg, old(sessions))
        invariant !full ==> sessions == Admit(cfg, old(sessions))
        decreases |queue|
      {
        sessions := Without(sessions, queue[0].id);
        queue := queue[1..];
        full := IsFull();
      }
      NotThere(old(sessions), sessions, id);
      if full {
        return false;
      }
      sessions := sessions + [Session(id, EmptyView, now, 1, false)];
      assert sessions[|sessions| - 1].id == id;
      return true;
    }

    /** `sweep`: what has ended, is not observed and was last touched before the deadline leaves. */
    method Sweep(deadline: int)
      requires Valid()
      modifies this
      ensures Valid() && sessions == Step(cfg, old(sessions), Operation.Sweep(deadline))
    {
      hide Inv;
      StepKeeps(cfg, sessions, Operation.Sweep(deadline));
      var keep := (x: Session) => !(x.Releasable() && x.touched <= deadline);
      var kept: seq<Session> := [];
      for i := 0 to |sessions|
        invariant kept == Select(sessions[..i], keep)
      {
        assert sessions[..i + 1][..i] == sessions[..i];
        if keep(sessions[i]) {
          kept := kept + [sessions[i]];
        }
      }
      assert sessions[..|sessions|] == sessions;
      sessions := kept;
    }

    /** `collect`: hand out up to one read and forget a finished session that has no more. */
    method Collect(id: nat, now: int, tokens: Option<nat>) returns (batch: Option<Batch>)
      requires Valid()
      modifies this
      ensures Valid() && sessions == Step(cfg, old(sessions), Operation.Collect(id, now, tokens))
      ensures batch == match Find(old(sessions), id)
                       case None => None
                       case Some(s) => Some(Render(Take(s.buffer, TERMINAL_READ_BYTES), tokens))
    {
      hide Inv, Render, Take;
      StepKeeps(cfg, sessions, Operation.Collect(id, now, tokens));
      var found := Find(sessions, id);
      if found.None? {
        return None;
      }
      var buffer := ReadView(found.value.buffer, TERMINAL_READ_BYTES);
      batch := Some(Render(Take(found.value.buffer, TERMINAL_READ_BYTES), tokens));
      if found.value.exited && !buffer.Pending() {
        sessions := Without(sessions, id);
      } else {
        sessions := Change(sessions, id, (x: Session) => x.(buffer := buffer, touched := now));
      }
    }
  }

  lemma InvValid(cfg: Config, ss: seq<Session>)
    requires Inv(cfg, ss)
    ensures AllValid(cfg, ss) && Distinct(ss)
  {
  }

  lemma NotThere(ss: seq<Session>, r: seq<Session>, id: nat)
    requires !HasId(ss, id) && forall s :: s in r ==> s in ss
    ensures !HasId(r, id)
  {
    assert forall i :: 0 <= i < |r| ==> r[i] in ss;
  }
}
