/** The audit's incremental bookkeeping equals its recomputation in every reachable state. */
module ActivityProofs {
  import opened ActivityStates

  // ---- what every reachable state satisfies ----

  predicate Ids(s: State) {
    && (forall i :: 0 <= i < |s.calls| ==> s.calls[i].id < s.next)
    && Descending(s.calls)
  }

  predicate Descending(calls: seq<Call>) {
    forall i, j :: 0 <= i < j < |calls| ==> calls[i].id > calls[j].id
  }

  function Recorded(s: State, id: nat): int {
    if id in s.sizes then s.sizes[id] else 0
  }

  predicate Holds(calls: seq<Call>, id: nat) {
    exists i :: 0 <= i < |calls| && calls[i].id == id
  }

  predicate SizeAt(s: State, c: Call, id: nat, delta: int) {
    if c.id == id then Recorded(s, id) + delta == CallSize(c)
    else c.id in s.sizes && s.sizes[c.id] == CallSize(c)
  }

  predicate AllSizes(s: State, id: nat, delta: int) {
    forall i :: 0 <= i < |s.calls| ==> SizeAt(s, s.calls[i], id, delta)
  }

  predicate KeysHeld(s: State) {
    forall k :: k in s.sizes ==> Holds(s.calls, k)
  }

  /** The recorded sizes are those of the calls, except that call `id` still owes `delta`. */
  predicate SizesOff(s: State, id: nat, delta: int) {
    s.bytes + delta == Total(s.calls) && KeysHeld(s) && AllSizes(s, id, delta)
  }

  /** Nobody owes anything: no call has the next id. */
  predicate Sizes(s: State) {
    SizesOff(s, s.next, 0)
  }

  predicate IndexedAt(s: State, session: nat) {
    && (session in s.sessions <==> Count(s.calls, session) > 0)
    && (session in s.sessions ==> s.sessions[session] == Summarize(s.calls, session))
  }

  /** The session index is exactly its recomputation from the calls. */
  ghost predicate Indexed(s: State) {
    forall session: nat :: IndexedAt(s, session)
  }

  predicate Within(s: State, limits: Limits) {
    |s.calls| <= limits.calls && (s.bytes <= limits.bytes || |s.calls| <= 1)
  }

  function Numbers(subs: seq<Sub>): (r: seq<nat>)
    ensures |r| == |subs|
  {
    seq(|subs|, k requires 0 <= k < |subs| => subs[k].number)
  }

  function Range(a: nat, b: nat): (r: seq<nat>)
    requires a <= b
    ensures |r| == b - a && forall k :: 0 <= k < b - a ==> r[k] == a + k
  {
    seq(b - a, k requires 0 <= k < b - a => a + k)
  }

  /** The first fifth, at least one, and the newest, in order. */
  function Retained(pushed: nat, maxSubs: nat): seq<nat>
    requires maxSubs >= 2
  {
    if pushed <= maxSubs then Range(0, pushed)
    else Range(0, Head(maxSubs)) + Range(pushed - (maxSubs - Head(maxSubs)), pushed)
  }

  predicate Shaped(calls: seq<Call>, maxSubs: nat)
    requires maxSubs >= 2
  {
    forall i :: 0 <= i < |calls| ==> Numbers(calls[i].subs) == Retained(calls[i].pushed, maxSubs)
  }

  ghost predicate Inv(s: State, limits: Limits) {
    limits.Valid() && Ids(s) && Sizes(s) && Indexed(s) && Within(s, limits) && Shaped(s.calls, limits.subs)
  }

  // ---- one call changes ----

  lemma {:induction false} UpdateCounts(calls: seq<Call>, i: nat, d: Call, k: nat)
    requires i < |calls| && d.id == calls[i].id && d.session == calls[i].session && Descending(calls)
    ensures Count(calls[i := d], k) == Count(calls, k)
    ensures Errors(calls[i := d], k) + (if calls[i].session == k && calls[i].status == Failure then 1 else 0)
         == Errors(calls, k) + (if d.session == k && d.status == Failure then 1 else 0)
    ensures Newest(calls[i := d], k)
         == if Newest(calls, k).Some? && Newest(calls, k).value.id == d.id then Some(d) else Newest(calls, k)
  {
    var n := |calls| - 1;
    if i < n {
      assert calls[i := d][..n] == calls[..n][i := d];
      UpdateCounts(calls[..n], i, d, k);
    } else {
      assert calls[i := d][..n] == calls[..n];
      if Newest(calls[..n], k).Some? {
        var c := Newest(calls[..n], k).value;
        var j :| 0 <= j < n && calls[..n][j] == c;
        assert calls[j].id > calls[i].id;
      }
    }
  }

  lemma {:induction false} PrependCounts(c: Call, calls: seq<Call>, k: nat)
    ensures Count([c] + calls, k) == Count(calls, k) + (if c.session == k then 1 else 0)
    ensures Errors([c] + calls, k) == Errors(calls, k) + (if c.session == k && c.status == Failure then 1 else 0)
    ensures Newest([c] + calls, k) == if c.session == k then Some(c) else Newest(calls, k)
    ensures Total([c] + calls) == Total(calls) + CallSize(c)
  {
    if calls == [] {
      assert ([c] + calls)[..0] == [];
    } else {
      var n := |calls| - 1;
      assert ([c] + calls)[..|calls|] == [c] + calls[..n];
      PrependCounts(c, calls[..n], k);
    }
  }

  lemma {:induction false} UpdateTotal(calls: seq<Call>, i: nat, d: Call)
    requires i < |calls|
    ensures Total(calls[i := d]) + CallSize(calls[i]) == Total(calls) + CallSize(d)
  {
    hide CallSize;
    var n := |calls| - 1;
    if i < n {
      assert calls[i := d][..n] == calls[..n][i := d];
      UpdateTotal(calls[..n], i, d);
    } else {
      assert calls[i := d][..n] == calls[..n];
    }
  }

  // ---- eviction ----

  lemma EvictIndexed(s: State)
    requires s.calls != [] && Indexed(s)
    ensures Indexed(Evict(s))
  {
    var n := |s.calls| - 1;
    var removed := s.calls[n];
    var r := Evict(s);
    forall k: nat ensures IndexedAt(r, k) {
      assert IndexedAt(s, k);
      if k != removed.session { EvictOther(s.calls, k); }
    }
  }

  lemma EvictOther(calls: seq<Call>, k: nat)
    requires calls != [] && calls[|calls| - 1].session != k
    ensures Count(calls[..|calls| - 1], k) == Count(calls, k) && Errors(calls[..|calls| - 1], k) == Errors(calls, k)
    ensures Newest(calls[..|calls| - 1], k) == Newest(calls, k)
  {
  }

  lemma EvictShape(s: State)
    requires s.calls != []
    ensures var n := |s.calls| - 1; var r := Evict(s);
      && r.calls == s.calls[..n] && r.sizes == s.sizes - {s.calls[n].id} && r.next == s.next && r.enabled == s.enabled
      && r.bytes == s.bytes - Recorded(s, s.calls[n].id)
  {
    hide Count, Summarize;
  }

  lemma HoldsPrefix(calls: seq<Call>, k: nat)
    requires calls != [] && Holds(calls, k) && calls[|calls| - 1].id != k
    ensures Holds(calls[..|calls| - 1], k)
  {
    var i :| 0 <= i < |calls| && calls[i].id == k;
    assert calls[..|calls| - 1][i] == calls[i];
  }

  /** Eviction keeps the sizes, also while the new call's size is still owed. */
  lemma EvictSizesOff(s: State, id: nat, delta: int)
    requires s.calls != [] && SizesOff(s, id, delta) && Ids(s) && s.calls[|s.calls| - 1].id != id
    ensures SizesOff(Evict(s), id, delta) && Ids(Evict(s))
  {
    hide *;
    var r := Evict(s);
    EvictShape(s);
    OffParts(s, id, delta);
    EvictKeys(s, r);
    EvictAll(s, r, id, delta);
    EvictTotal(s, r, id, delta);
    EvictIds(s, r);
    SizesFrom(r, id, delta);
  }

  lemma OffParts(s: State, id: nat, delta: int)
    requires SizesOff(s, id, delta)
    ensures KeysHeld(s) && AllSizes(s, id, delta)
  {
  }

  lemma EvictIds(s: State, r: State)
    requires s.calls != [] && Ids(s) && r.calls == s.calls[..|s.calls| - 1] && r.next == s.next
    ensures Ids(r)
  {
  }

  lemma EvictKeys(s: State, r: State)
    requires s.calls != [] && KeysHeld(s)
    requires r.calls == s.calls[..|s.calls| - 1] && r.sizes == s.sizes - {s.calls[|s.calls| - 1].id}
    ensures KeysHeld(r)
  {
    hide Holds;
    forall k | k in r.sizes ensures Holds(r.calls, k) { HoldsPrefix(s.calls, k); }
  }

  lemma EvictAll(s: State, r: State, id: nat, delta: int)
    requires s.calls != [] && AllSizes(s, id, delta) && Ids(s) && s.calls[|s.calls| - 1].id != id
    requires r.calls == s.calls[..|s.calls| - 1] && r.sizes == s.sizes - {s.calls[|s.calls| - 1].id}
    ensures AllSizes(r, id, delta)
  {
    hide CallSize;
    forall i | 0 <= i < |r.calls| ensures SizeAt(r, r.calls[i], id, delta) {
      assert SizeAt(s, s.calls[i], id, delta) && s.calls[i].id > s.calls[|s.calls| - 1].id;
    }
  }

  lemma EvictTotal(s: State, r: State, id: nat, delta: int)
    requires s.calls != [] && SizesOff(s, id, delta) && s.calls[|s.calls| - 1].id != id
    requires r.calls == s.calls[..|s.calls| - 1] && r.bytes == s.bytes - Recorded(s, s.calls[|s.calls| - 1].id)
    ensures r.bytes + delta == Total(r.calls)
  {
    hide CallSize, KeysHeld;
    assert SizeAt(s, s.calls[|s.calls| - 1], id, delta);
  }

  lemma EvictSizes(s: State)
    requires s.calls != [] && Sizes(s) && Ids(s)
    ensures Sizes(Evict(s)) && Ids(Evict(s))
  {
    EvictShape(s);
    hide SizesOff, Evict;
    EvictSizesOff(s, s.next, 0);
  }

  lemma {:induction false} ShrinkKeeps(s: State, limits: Limits)
    requires limits.Valid() && Ids(s) && Sizes(s) && Indexed(s) && Shaped(s.calls, limits.subs) && |s.calls| <= limits.calls
    ensures Inv(Shrink(s, limits), limits)
    decreases |s.calls|
  {
    hide Evict, Indexed, Sizes, Ids, Shaped;
    if s.bytes > limits.bytes && |s.calls| > 1 {
      EvictIndexed(s);
      EvictSizes(s);
      EvictShape(s);
      ShapedPrefix(s.calls, |s.calls| - 1, limits.subs);
      ShrinkKeeps(Evict(s), limits);
    }
  }

  /** Paying what is owed makes the sizes exact. */
  lemma PaySizes(s: State, id: nat, delta: int, t: State)
    requires SizesOff(s, id, delta) && Holds(s.calls, id) && Ids(s)
    requires t == s.(sizes := s.sizes[id := Recorded(s, id) + delta], bytes := s.bytes + delta)
    ensures Sizes(t)
  {
    hide CallSize, Holds, Total;
    forall i | 0 <= i < |t.calls| ensures SizeAt(t, t.calls[i], t.next, 0) {
      assert SizeAt(s, s.calls[i], id, delta);
    }
  }

  lemma SettledSizes(s: State, id: nat)
    requires SizesOff(s, id, 0) && id in s.sizes && Ids(s)
    ensures Sizes(s)
  {
    hide CallSize, Holds, Total;
    forall i | 0 <= i < |s.calls| ensures SizeAt(s, s.calls[i], s.next, 0) {
      assert SizeAt(s, s.calls[i], id, 0);
    }
  }

  lemma ResizeKeeps(s: State, id: nat, delta: int, limits: Limits)
    requires limits.Valid() && Ids(s) && SizesOff(s, id, delta) && Holds(s.calls, id) && Indexed(s)
    requires Shaped(s.calls, limits.subs) && |s.calls| <= limits.calls
    requires delta == 0 ==> id in s.sizes && (s.bytes <= limits.bytes || |s.calls| <= 1)
    ensures Inv(Resize(s, id, delta, limits), limits)
  {
    hide *;
    FoundHolds(s.calls, id);
    ResizeIs(s, id, delta, limits);
    if delta == 0 {
      SettledSizes(s, id);
      ValidParts(limits);
      InvFrom(s, limits);
    } else {
      var t := s.(sizes := s.sizes[id := Recorded(s, id) + delta], bytes := s.bytes + delta);
      PaySizes(s, id, delta, t);
      SameIndex(s, t);
      SameIds(s, t);
      ShrinkKeeps(t, limits);
    }
  }

  lemma ResizeIs(s: State, id: nat, delta: int, limits: Limits)
    requires Find(s.calls, id) < |s.calls|
    ensures Resize(s, id, delta, limits) == if delta == 0 then s
      else Shrink(s.(sizes := s.sizes[id := Recorded(s, id) + delta], bytes := s.bytes + delta), limits)
  {
    hide Shrink;
  }

  lemma ValidParts(limits: Limits)
    requires limits.Valid()
    ensures limits.subs >= 2
  {
  }

  lemma SameIds(s: State, t: State)
    requires Ids(s) && t.calls == s.calls && t.next == s.next
    ensures Ids(t)
  {
  }

  lemma InvFrom(s: State, limits: Limits)
    requires limits.Valid() && Ids(s) && Sizes(s) && Indexed(s) && limits.subs >= 2 && Shaped(s.calls, limits.subs)
    requires |s.calls| <= limits.calls && (s.bytes <= limits.bytes || |s.calls| <= 1)
    ensures Inv(s, limits)
  {
  }

  lemma FoundHolds(calls: seq<Call>, id: nat)
    ensures Find(calls, id) < |calls| <==> Holds(calls, id)
  {
  }

  lemma SameIndex(s: State, t: State)
    requires Indexed(s) && t.calls == s.calls && t.sessions == s.sessions
    ensures Indexed(t)
  {
    hide Count, Summarize;
    forall k: nat ensures IndexedAt(t, k) { assert IndexedAt(s, k); }
  }

  // ---- start ----

  lemma StartIndexed(s: State, session: nat, call: Call, t: State)
    requires Indexed(s) && call.session == session && call.status == Running
    requires t == s.(calls := [call] + s.calls, sessions := s.sessions[session := Counted(s, session, call.id)], next := t.next)
    ensures Indexed(t)
  {
    forall k: nat ensures IndexedAt(t, k) {
      assert IndexedAt(s, k);
      PrependCounts(call, s.calls, k);
      if k == session && Count(s.calls, k) == 0 { NoErrors(s.calls, k); }
    }
  }

  lemma {:induction false} NoErrors(calls: seq<Call>, k: nat)
    requires Count(calls, k) == 0
    ensures Errors(calls, k) == 0
  {
    if calls != [] { NoErrors(calls[..|calls| - 1], k); }
  }

  lemma StartSizes(s: State, call: Call, t: State)
    requires Sizes(s) && Ids(s) && call.id == s.next
    requires t.calls == [call] + s.calls && t.sizes == s.sizes && t.bytes == s.bytes && t.next == s.next + 1
    ensures SizesOff(t, call.id, CallSize(call)) && Ids(t) && Holds(t.calls, call.id)
  {
    hide *;
    PrependCounts(call, s.calls, 0);
    SizesParts(s);
    StartKeys(s, call, t);
    StartAll(s, call, t);
    StartIds(s, call, t);
    assert t.calls[0] == call;
    HoldsFirst(t.calls, call.id);
    SizesFrom(t, call.id, CallSize(call));
  }

  lemma SizesParts(s: State)
    requires Sizes(s)
    ensures s.bytes == Total(s.calls) && KeysHeld(s) && AllSizes(s, s.next, 0)
  {
  }

  lemma SizesFrom(s: State, id: nat, delta: int)
    requires s.bytes + delta == Total(s.calls) && KeysHeld(s) && AllSizes(s, id, delta)
    ensures SizesOff(s, id, delta)
  {
  }

  lemma StartIds(s: State, call: Call, t: State)
    requires Ids(s) && call.id == s.next && t.calls == [call] + s.calls && t.next == s.next + 1
    ensures Ids(t)
  {
  }

  lemma StartKeys(s: State, call: Call, t: State)
    requires KeysHeld(s) && t.calls == [call] + s.calls && t.sizes == s.sizes
    ensures KeysHeld(t)
  {
    forall k | k in t.sizes ensures Holds(t.calls, k) {
      assert Holds(s.calls, k);
      var i :| 0 <= i < |s.calls| && s.calls[i].id == k;
      assert t.calls[i + 1].id == k;
    }
  }

  lemma StartAll(s: State, call: Call, t: State)
    requires Sizes(s) && Ids(s) && call.id == s.next && t.calls == [call] + s.calls && t.sizes == s.sizes
    ensures AllSizes(t, call.id, CallSize(call))
  {
    hide CallSize, Total;
    assert call.id in s.sizes ==> Holds(s.calls, call.id);
    forall i | 0 <= i < |t.calls| ensures SizeAt(t, t.calls[i], call.id, CallSize(call)) {
      if i > 0 { assert SizeAt(s, s.calls[i - 1], s.next, 0); }
    }
  }

  lemma StartKeeps(s: State, session: nat, size: nat, limits: Limits)
    requires Inv(s, limits) && s.enabled
    ensures Inv(StartCall(s, session, size, limits), limits)
  {
    hide *;
    var id := s.next;
    var call := Call(id, session, Running, 512 + size, [], 0);
    var t := s.(calls := [call] + s.calls, sessions := s.sessions[session := Counted(s, session, id)], next := id + 1);
    var u := if |t.calls| > limits.calls then Evict(t) else t;
    StartIs(s, session, size, limits);
    InvParts(s, limits);
    StartIndexed(s, session, call, t);
    StartSizes(s, call, t);
    NewShape(call, s.calls, limits.subs);
    NewSize(call);
    if |t.calls| > limits.calls {
      LastIsOlder(t);
      EvictSizesOff(t, id, 512 + size);
      EvictIndexed(t);
      EvictShape(t);
      ShapedPrefix(t.calls, |t.calls| - 1, limits.subs);
      HoldsFirst(u.calls, id);
    }
    ResizeKeeps(u, id, 512 + size, limits);
  }

  lemma NewSize(call: Call)
    requires call.subs == []
    ensures CallSize(call) == call.own
  {
  }

  lemma StartIs(s: State, session: nat, size: nat, limits: Limits)
    requires s.enabled
    ensures var id := s.next;
      var call := Call(id, session, Running, 512 + size, [], 0);
      var t := s.(calls := [call] + s.calls, sessions := s.sessions[session := Counted(s, session, id)], next := id + 1);
      StartCall(s, session, size, limits) == Resize(if |t.calls| > limits.calls then Evict(t) else t, id, 512 + size, limits)
  {
    hide Resize, Evict, Counted;
  }

  lemma InvParts(s: State, limits: Limits)
    requires Inv(s, limits)
    ensures limits.Valid() && limits.calls >= 1 && limits.subs >= 2
    ensures Ids(s) && Sizes(s) && Indexed(s) && Shaped(s.calls, limits.subs) && |s.calls| <= limits.calls
    ensures s.bytes <= limits.bytes || |s.calls| <= 1
  {
  }

  lemma HoldsFirst(calls: seq<Call>, id: nat)
    requires calls != [] && calls[0].id == id
    ensures Holds(calls, id)
  {
  }

  lemma LastIsOlder(t: State)
    requires Ids(t) && |t.calls| > 1
    ensures t.calls[|t.calls| - 1].id != t.calls[0].id
  {
  }

  lemma NewShape(call: Call, calls: seq<Call>, maxSubs: nat)
    requires maxSubs >= 2 && call.subs == [] && call.pushed == 0 && Shaped(calls, maxSubs)
    ensures Shaped([call] + calls, maxSubs)
  {
    assert Numbers([]) == Range(0, 0);
    hide Numbers, Retained;
  }

  lemma ShapedPrefix(calls: seq<Call>, n: nat, maxSubs: nat)
    requires maxSubs >= 2 && n <= |calls| && Shaped(calls, maxSubs)
    ensures Shaped(calls[..n], maxSubs)
  {
    hide Numbers, Retained;
  }

  // ---- nested calls and ends ----

  lemma UpdateIndexed(s: State, i: nat, d: Call, t: State)
    requires Indexed(s) && i < |s.calls| && Descending(s.calls)
    requires d.id == s.calls[i].id && d.session == s.calls[i].session && d.status == s.calls[i].status
    requires t.calls == s.calls[i := d] && t.sessions == s.sessions
    ensures Indexed(t)
  {
    forall k: nat ensures IndexedAt(t, k) {
      assert IndexedAt(s, k);
      UpdateCounts(s.calls, i, d, k);
      if Newest(s.calls, k).Some? && Newest(s.calls, k).value.id == d.id { SameCall(s.calls, i, Newest(s.calls, k).value); }
    }
  }

  lemma SameCall(calls: seq<Call>, i: nat, c: Call)
    requires Descending(calls) && i < |calls| && c in calls && c.id == calls[i].id
    ensures c == calls[i]
  {
    var j :| 0 <= j < |calls| && calls[j] == c;
  }

  lemma UpdateSizes(s: State, i: nat, d: Call, t: State)
    requires Sizes(s) && Ids(s) && i < |s.calls| && d.id == s.calls[i].id
    requires t.calls == s.calls[i := d] && t.sizes == s.sizes && t.bytes == s.bytes && t.next == s.next
    ensures SizesOff(t, d.id, CallSize(d) - CallSize(s.calls[i])) && Ids(t) && Holds(t.calls, d.id) && d.id in t.sizes
  {
    hide *;
    UpdateTotal(s.calls, i, d);
    SizesParts(s);
    UpdateKeys(s, i, d, t);
    UpdateAll(s, i, d, t);
    UpdateIds(s, i, d, t);
    SizesFrom(t, d.id, CallSize(d) - CallSize(s.calls[i]));
  }

  lemma UpdateKeys(s: State, i: nat, d: Call, t: State)
    requires KeysHeld(s) && i < |s.calls| && d.id == s.calls[i].id && t.calls == s.calls[i := d] && t.sizes == s.sizes
    ensures KeysHeld(t) && Holds(t.calls, d.id)
  {
    assert t.calls[i].id == d.id;
    forall k | k in t.sizes ensures Holds(t.calls, k) {
      assert Holds(s.calls, k);
      var j :| 0 <= j < |s.calls| && s.calls[j].id == k;
      assert t.calls[j].id == k;
    }
  }

  lemma UpdateAll(s: State, i: nat, d: Call, t: State)
    requires AllSizes(s, s.next, 0) && Ids(s) && i < |s.calls| && d.id == s.calls[i].id
    requires t.calls == s.calls[i := d] && t.sizes == s.sizes
    ensures AllSizes(t, d.id, CallSize(d) - CallSize(s.calls[i])) && d.id in t.sizes
  {
    hide CallSize;
    assert SizeAt(s, s.calls[i], s.next, 0);
    forall j | 0 <= j < |t.calls| ensures SizeAt(t, t.calls[j], d.id, CallSize(d) - CallSize(s.calls[i])) {
      assert SizeAt(s, s.calls[j], s.next, 0);
    }
  }

  lemma UpdateIds(s: State, i: nat, d: Call, t: State)
    requires Ids(s) && i < |s.calls| && d.id == s.calls[i].id && t.calls == s.calls[i := d] && t.next == s.next
    ensures Ids(t)
  {
  }

  lemma UpdateShaped(calls: seq<Call>, i: nat, d: Call, maxSubs: nat)
    requires maxSubs >= 2 && i < |calls| && Shaped(calls, maxSubs) && Numbers(d.subs) == Retained(d.pushed, maxSubs)
    ensures Shaped(calls[i := d], maxSubs)
  {
    hide Numbers, Retained;
  }

  /** A full list drops the number just behind its head. */
  lemma PushedShape(subs: seq<Sub>, pushed: nat, size: nat, maxSubs: nat)
    requires maxSubs >= 2 && Numbers(subs) == Retained(pushed, maxSubs)
    ensures Numbers(Pushed(subs, Sub(pushed, size), maxSubs)) == Retained(pushed + 1, maxSubs)
  {
    var h := Head(maxSubs);
    assert 1 <= h < maxSubs;
    assert |subs| == if pushed <= maxSubs then pushed else maxSubs;
    assert forall k :: 0 <= k < |subs| ==> subs[k].number == Numbers(subs)[k];
    hide Head;
    var a, b := Numbers(Pushed(subs, Sub(pushed, size), maxSubs)), Retained(pushed + 1, maxSubs);
    assert |a| == |b|;
    forall k | 0 <= k < |a| ensures a[k] == b[k] {
    }
  }

  lemma {:induction false} SubSizesUpdate(subs: seq<Sub>, k: nat, sub: Sub)
    requires k < |subs|
    ensures SubSizes(subs[k := sub]) + subs[k].size == SubSizes(subs) + sub.size
  {
    var n := |subs| - 1;
    if k < n {
      assert subs[k := sub][..n] == subs[..n][k := sub];
      SubSizesUpdate(subs[..n], k, sub);
    } else {
      assert subs[k := sub][..n] == subs[..n];
    }
  }

  lemma ChangeKeeps(s: State, i: nat, d: Call, limits: Limits)
    requires Inv(s, limits) && i < |s.calls|
    requires d.id == s.calls[i].id && d.session == s.calls[i].session && d.status == s.calls[i].status
    requires limits.subs >= 2 && Numbers(d.subs) == Retained(d.pushed, limits.subs)
    ensures Inv(Resize(s.(calls := s.calls[i := d]), d.id, CallSize(d) - CallSize(s.calls[i]), limits), limits)
  {
    hide *;
    var t := s.(calls := s.calls[i := d]);
    InvParts(s, limits);
    IdsParts(s);
    UpdateIndexed(s, i, d, t);
    UpdateSizes(s, i, d, t);
    UpdateShaped(s.calls, i, d, limits.subs);
    ResizeKeeps(t, d.id, CallSize(d) - CallSize(s.calls[i]), limits);
  }

  lemma IdsParts(s: State)
    requires Ids(s)
    ensures Descending(s.calls)
  {
  }

  lemma ShapedAt(calls: seq<Call>, i: nat, maxSubs: nat)
    requires maxSubs >= 2 && i < |calls| && Shaped(calls, maxSubs)
    ensures Numbers(calls[i].subs) == Retained(calls[i].pushed, maxSubs)
  {
  }

  lemma PushKeeps(s: State, id: nat, size: nat, limits: Limits)
    requires Inv(s, limits)
    ensures Inv(PushSub(s, id, size, limits), limits)
  {
    hide Inv, Resize, CallSize, Pushed;
    var i := Find(s.calls, id);
    if i < |s.calls| {
      InvParts(s, limits);
      var c := s.calls[i];
      ShapedAt(s.calls, i, limits.subs);
      PushedShape(c.subs, c.pushed, size, limits.subs);
      ChangeKeeps(s, i, c.(subs := Pushed(c.subs, Sub(c.pushed, size), limits.subs), pushed := c.pushed + 1), limits);
    }
  }

  lemma EndSubKeeps(s: State, id: nat, number: nat, size: nat, limits: Limits)
    requires Inv(s, limits)
    ensures Inv(FinishSub(s, id, number, size, limits), limits)
  {
    hide Inv, Resize, SubSizes;
    var i := Find(s.calls, id);
    if i < |s.calls| {
      InvParts(s, limits);
      var c := s.calls[i];
      var k := FindSub(c.subs, number);
      if k < |c.subs| {
        ShapedAt(s.calls, i, limits.subs);
        var d := c.(subs := c.subs[k := Sub(number, size)]);
        SubSizesUpdate(c.subs, k, Sub(number, size));
        assert Numbers(d.subs) == Numbers(c.subs);
        ChangeKeeps(s, i, d, limits);
      }
    }
  }

  lemma EndIndexed(s: State, i: nat, d: Call, t: State)
    requires Indexed(s) && i < |s.calls| && Descending(s.calls)
    requires d.id == s.calls[i].id && d.session == s.calls[i].session && s.calls[i].status == Running && d.status != Running
    requires d.session in s.sessions
    requires t.calls == s.calls[i := d]
    requires t.sessions == s.sessions[d.session := Finished(s.sessions[d.session], d.id, d.status)]
    ensures Indexed(t)
  {
    forall k: nat ensures IndexedAt(t, k) {
      assert IndexedAt(s, k);
      UpdateCounts(s.calls, i, d, k);
      if Newest(s.calls, k).Some? && Newest(s.calls, k).value.id == d.id { SameCall(s.calls, i, Newest(s.calls, k).value); }
    }
  }

  lemma {:induction false} CountedCall(calls: seq<Call>, i: nat)
    requires i < |calls|
    ensures Count(calls, calls[i].session) > 0
  {
    if i < |calls| - 1 { CountedCall(calls[..|calls| - 1], i); }
  }

  lemma SessionKnown(s: State, i: nat)
    requires Indexed(s) && i < |s.calls|
    ensures s.calls[i].session in s.sessions
  {
    CountedCall(s.calls, i);
    assert IndexedAt(s, s.calls[i].session);
  }

  lemma EndKeeps(s: State, id: nat, status: Status, added: nat, limits: Limits)
    requires Inv(s, limits)
    ensures Inv(FinishCall(s, id, status, added, limits), limits)
  {
    hide *;
    var i := Find(s.calls, id);
    EndIs(s, id, status, added, limits);
    if i < |s.calls| && s.calls[i].status == Running && status != Running {
      InvParts(s, limits);
      IdsParts(s);
      SessionKnown(s, i);
      var c := s.calls[i];
      var d := c.(status := status, own := c.own + added);
      var t := s.(calls := s.calls[i := d], sessions := s.sessions[c.session := Finished(s.sessions[c.session], id, status)]);
      MoreOwn(c, d, added);
      EndIndexed(s, i, d, t);
      UpdateSizes(s, i, d, t);
      ShapedAt(s.calls, i, limits.subs);
      UpdateShaped(s.calls, i, d, limits.subs);
      ResizeKeeps(t, id, added, limits);
    }
  }

  lemma MoreOwn(c: Call, d: Call, added: nat)
    requires d.own == c.own + added && d.subs == c.subs
    ensures CallSize(d) == CallSize(c) + added
  {
  }

  lemma EndIs(s: State, id: nat, status: Status, added: nat, limits: Limits)
    ensures var i := Find(s.calls, id);
      if i == |s.calls| || s.calls[i].status != Running || status == Running then FinishCall(s, id, status, added, limits) == s
      else s.calls[i].session in s.sessions ==>
        FinishCall(s, id, status, added, limits)
        == Resize(s.(calls := s.calls[i := s.calls[i].(status := status, own := s.calls[i].own + added)],
                     sessions := s.sessions[s.calls[i].session := Finished(s.sessions[s.calls[i].session], id, status)]),
                  id, added, limits)
  {
    hide Resize, Finished;
  }

  lemma ClearInv(s: State, t: State, limits: Limits)
    requires Inv(s, limits) && t.calls == [] && t.sessions == map[] && t.sizes == map[] && t.bytes == 0
    ensures Inv(t, limits)
  {
  }

  lemma SameInv(s: State, t: State, limits: Limits)
    requires Inv(s, limits) && t == s.(enabled := t.enabled)
    ensures Inv(t, limits)
  {
    SameIndex(s, t);
    hide Indexed, CallSize, Holds, Total, Numbers, Retained;
    assert AllSizes(t, t.next, 0) by {
      assert AllSizes(s, s.next, 0);
      forall i | 0 <= i < |t.calls| ensures SizeAt(t, t.calls[i], t.next, 0) { assert SizeAt(s, s.calls[i], s.next, 0); }
    }
  }

  lemma StepKeeps(s: State, ev: Event, limits: Limits)
    requires Inv(s, limits)
    ensures Inv(Step(s, ev, limits), limits)
  {
    hide Inv, StartCall, PushSub, FinishSub, FinishCall;
    match ev
    case Starts(session, size) => if s.enabled { StartKeeps(s, session, size, limits); } else { StartDisabled(s, session, size, limits); }
    case Pushes(id, size) => PushKeeps(s, id, size, limits);
    case EndsSub(id, number, size) => EndSubKeeps(s, id, number, size, limits);
    case Ends(id, status, added) => EndKeeps(s, id, status, added, limits);
    case Clears => ClearInv(s, Clear(s), limits);
    case Disables => if s.enabled { ClearInv(s, Clear(s).(enabled := false), limits); }
    case Enables => SameInv(s, s.(enabled := true), limits);
  }

  lemma StartDisabled(s: State, session: nat, size: nat, limits: Limits)
    requires !s.enabled
    ensures StartCall(s, session, size, limits) == s
  {
  }

  lemma {:induction false} RunKeeps(s: State, events: seq<Event>, limits: Limits)
    requires Inv(s, limits)
    ensures Inv(Run(s, events, limits), limits)
    decreases |events|
  {
    if events != [] {
      StepKeeps(s, events[0], limits);
      hide Inv, Step;
      RunKeeps(Step(s, events[0], limits), events[1..], limits);
    }
  }

  // ---- the promises ----

  /** After every run a session is listed exactly when it has calls, and its counts and last call
      are what counting again would give. */
  lemma IndexIsRecomputation(events: seq<Event>, limits: Limits, session: nat)
    requires limits.Valid()
    ensures var s := Run(Empty, events, limits);
      && (session in s.sessions <==> Count(s.calls, session) > 0)
      && (session in s.sessions ==> s.sessions[session] == Summarize(s.calls, session))
  {
    ClearInvEmpty(limits);
    RunKeeps(Empty, events, limits);
    assert IndexedAt(Run(Empty, events, limits), session);
  }

  lemma ClearInvEmpty(limits: Limits)
    requires limits.Valid()
    ensures Inv(Empty, limits)
  {
  }

  /** After every run the bytes are the sum of the calls' sizes, within the budget or of one call;
      and each call keeps its first fifth and its newest nested calls. */
  lemma BytesAndSubs(events: seq<Event>, limits: Limits, i: nat)
    requires limits.Valid()
    ensures var s := Run(Empty, events, limits);
      && s.bytes == Total(s.calls) && |s.calls| <= limits.calls
      && (s.bytes <= limits.bytes || |s.calls| <= 1)
      && (i < |s.calls| ==> Numbers(s.calls[i].subs) == Retained(s.calls[i].pushed, limits.subs))
  {
    ClearInvEmpty(limits);
    RunKeeps(Empty, events, limits);
    hide Run, Total, Numbers, Retained;
  }
}
