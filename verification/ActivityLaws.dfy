/** What each event makes of the recorded calls, and that no more of them leave than must. */
module ActivityLaws {
  import opened ActivityStates
  import opened ActivityProofs

  // ---- how many calls leave ----

  /** The newest of these calls: all of them, or as many as the limits leave room for, at least one. */
  predicate Keeps(kept: seq<Call>, calls: seq<Call>, limits: Limits) {
    && |kept| <= |calls| && kept == calls[..|kept|]
    && (|kept| < |calls| ==> kept != [] && (|kept| == limits.calls || Total(calls[..|kept| + 1]) > limits.bytes))
  }

  lemma {:induction false} ShrinkCuts(s: State, limits: Limits)
    requires Ids(s) && Sizes(s)
    ensures Keeps(Shrink(s, limits).calls, s.calls, limits)
    decreases |s.calls|
  {
    hide Evict, Sizes, Ids, Total;
    SizesParts(s);
    if s.bytes > limits.bytes && |s.calls| > 1 {
      EvictSizes(s);
      EvictShape(s);
      ShrinkCuts(Evict(s), limits);
      var n, k := |s.calls| - 1, |Shrink(s, limits).calls|;
      assert s.calls[..n][..k] == s.calls[..k];
      if k < n { assert s.calls[..n][..k + 1] == s.calls[..k + 1]; } else { assert s.calls[..k + 1] == s.calls; }
    } else {
      assert s.calls[..|s.calls|] == s.calls;
    }
  }

  lemma ResizeCuts(s: State, id: nat, delta: int, limits: Limits)
    requires Ids(s) && SizesOff(s, id, delta) && Holds(s.calls, id)
    ensures Keeps(Resize(s, id, delta, limits).calls, s.calls, limits)
  {
    hide *;
    FoundHolds(s.calls, id);
    ResizeIs(s, id, delta, limits);
    if delta == 0 {
      AllKept(s.calls, limits);
    } else {
      var t := s.(sizes := s.sizes[id := Recorded(s, id) + delta], bytes := s.bytes + delta);
      PaySizes(s, id, delta, t);
      SameIds(s, t);
      ShrinkCuts(t, limits);
    }
  }

  lemma AllKept(calls: seq<Call>, limits: Limits)
    ensures Keeps(calls, calls, limits)
  {
    assert calls[..|calls|] == calls;
  }

  // ---- one event ----

  /** The call with this id, changed. */
  function With(calls: seq<Call>, id: nat, change: Call -> Call): (r: seq<Call>)
    ensures |r| == |calls|
  {
    seq(|calls|, i requires 0 <= i < |calls| => if calls[i].id == id then change(calls[i]) else calls[i])
  }

  /** The nested calls with one more; of a full list the one behind the first fifth leaves. */
  function OneMore(subs: seq<Sub>, sub: Sub, maxSubs: nat): seq<Sub> {
    var first := if maxSubs < 10 then 1 else maxSubs / 5;
    if |subs| >= maxSubs && first < |subs| then subs[..first] + subs[first + 1..] + [sub] else subs + [sub]
  }

  function Resized(subs: seq<Sub>, number: nat, size: nat): (r: seq<Sub>)
    ensures |r| == |subs|
  {
    seq(|subs|, k requires 0 <= k < |subs| => if subs[k].number == number then Sub(number, size) else subs[k])
  }

  /** All calls after the event, before any leaves. */
  function After(s: State, ev: Event, maxSubs: nat): seq<Call> {
    match ev
    case Starts(session, size) => if s.enabled then [Call(s.next, session, Running, 512 + size, [], 0)] + s.calls else s.calls
    case Pushes(id, size) =>
      With(s.calls, id, (c: Call) => c.(subs := OneMore(c.subs, Sub(c.pushed, size), maxSubs), pushed := c.pushed + 1))
    case EndsSub(id, number, size) => With(s.calls, id, (c: Call) => c.(subs := Resized(c.subs, number, size)))
    case Ends(id, status, added) =>
      With(s.calls, id, (c: Call) =>
        if c.status == Running && status != Running then c.(status := status, own := c.own + added) else c)
    case Clears => []
    case Disables => if s.enabled then [] else s.calls
    case Enables => s.calls
  }

  lemma WithOne(calls: seq<Call>, i: nat, change: Call -> Call)
    requires i < |calls| && Descending(calls)
    ensures With(calls, calls[i].id, change) == calls[i := change(calls[i])]
  {
  }

  lemma WithNone(calls: seq<Call>, id: nat, change: Call -> Call)
    requires forall j :: 0 <= j < |calls| ==> calls[j].id != id
    ensures With(calls, id, change) == calls
  {
  }

  lemma PushedIs(subs: seq<Sub>, sub: Sub, maxSubs: nat)
    requires maxSubs >= 2
    ensures Pushed(subs, sub, maxSubs) == OneMore(subs, sub, maxSubs)
  {
  }

  /** The numbers of the nested calls of one call are different. */
  lemma NumbersApart(c: Call, maxSubs: nat)
    requires maxSubs >= 2 && Numbers(c.subs) == Retained(c.pushed, maxSubs)
    ensures forall j, k :: 0 <= j < k < |c.subs| ==> c.subs[j].number != c.subs[k].number
  {
    assert forall k :: 0 <= k < |c.subs| ==> c.subs[k].number == Numbers(c.subs)[k];
    assert Head(maxSubs) < maxSubs;
    hide Head;
  }

  lemma {:induction false} FindSubIs(subs: seq<Sub>, number: nat)
    ensures FindSub(subs, number) == |subs| ==> forall k :: 0 <= k < |subs| ==> subs[k].number != number
  {
    if subs != [] && subs[0].number != number { FindSubIs(subs[1..], number); }
  }

  lemma ResizedIs(subs: seq<Sub>, number: nat, size: nat)
    requires forall j, k :: 0 <= j < k < |subs| ==> subs[j].number != subs[k].number
    ensures var k := FindSub(subs, number); Resized(subs, number, size) == if k == |subs| then subs else subs[k := Sub(number, size)]
  {
    FindSubIs(subs, number);
  }

  lemma StartExactly(s: State, session: nat, size: nat, limits: Limits)
    requires Inv(s, limits) && s.enabled
    ensures Keeps(StartCall(s, session, size, limits).calls, After(s, Starts(session, size), limits.subs), limits)
  {
    hide *;
    var id := s.next;
    var call := Call(id, session, Running, 512 + size, [], 0);
    var t := s.(calls := [call] + s.calls, sessions := s.sessions[session := Counted(s, session, id)], next := id + 1);
    var u := if |t.calls| > limits.calls then Evict(t) else t;
    StartIs(s, session, size, limits);
    AfterStart(s, session, size, limits.subs);
    InvParts(s, limits);
    StartSizes(s, call, t);
    NewSize(call);
    if |t.calls| > limits.calls {
      LastIsOlder(t);
      EvictSizesOff(t, id, 512 + size);
      EvictShape(t);
      HoldsFirst(u.calls, id);
    }
    ResizeCuts(u, id, 512 + size, limits);
    if |t.calls| > limits.calls { OneGone(StartCall(s, session, size, limits).calls, t.calls, limits); }
  }

  lemma AfterStart(s: State, session: nat, size: nat, maxSubs: nat)
    requires s.enabled
    ensures After(s, Starts(session, size), maxSubs) == [Call(s.next, session, Running, 512 + size, [], 0)] + s.calls
  {
  }

  /** The oldest call left for the limit on calls, and perhaps more for the bytes. */
  lemma OneGone(kept: seq<Call>, calls: seq<Call>, limits: Limits)
    requires |calls| == limits.calls + 1 && limits.calls >= 1 && Keeps(kept, calls[..|calls| - 1], limits)
    ensures Keeps(kept, calls, limits)
  {
    var n := |calls| - 1;
    assert calls[..n][..|kept|] == calls[..|kept|];
    if |kept| < n { assert calls[..n][..|kept| + 1] == calls[..|kept| + 1]; }
    hide Total;
  }

  /** A call that changes in place. */
  lemma ChangeExactly(s: State, i: nat, d: Call, limits: Limits)
    requires Inv(s, limits) && i < |s.calls| && d.id == s.calls[i].id
    ensures Keeps(Resize(s.(calls := s.calls[i := d]), d.id, CallSize(d) - CallSize(s.calls[i]), limits).calls, s.calls[i := d], limits)
  {
    hide *;
    var t := s.(calls := s.calls[i := d]);
    InvParts(s, limits);
    UpdateSizes(s, i, d, t);
    ResizeCuts(t, d.id, CallSize(d) - CallSize(s.calls[i]), limits);
  }

  lemma PushExactly(s: State, id: nat, size: nat, limits: Limits)
    requires Inv(s, limits)
    ensures Keeps(PushSub(s, id, size, limits).calls, After(s, Pushes(id, size), limits.subs), limits)
  {
    hide Inv, Resize, CallSize, Pushed, OneMore, With, Keeps;
    InvParts(s, limits);
    IdsParts(s);
    var change := (c: Call) => c.(subs := OneMore(c.subs, Sub(c.pushed, size), limits.subs), pushed := c.pushed + 1);
    var i := Find(s.calls, id);
    assert After(s, Pushes(id, size), limits.subs) == With(s.calls, id, change);
    if i < |s.calls| {
      var c := s.calls[i];
      WithOne(s.calls, i, change);
      PushedIs(c.subs, Sub(c.pushed, size), limits.subs);
      ChangeExactly(s, i, change(c), limits);
    } else {
      WithNone(s.calls, id, change);
      AllKept(s.calls, limits);
    }
  }

  lemma EndSubExactly(s: State, id: nat, number: nat, size: nat, limits: Limits)
    requires Inv(s, limits)
    ensures Keeps(FinishSub(s, id, number, size, limits).calls, After(s, EndsSub(id, number, size), limits.subs), limits)
  {
    hide Inv, Resize, SubSizes, With, Keeps, Resized, Numbers, Retained;
    InvParts(s, limits);
    IdsParts(s);
    var change := (c: Call) => c.(subs := Resized(c.subs, number, size));
    var i := Find(s.calls, id);
    assert After(s, EndsSub(id, number, size), limits.subs) == With(s.calls, id, change);
    if i < |s.calls| {
      var c := s.calls[i];
      WithOne(s.calls, i, change);
      ShapedAt(s.calls, i, limits.subs);
      NumbersApart(c, limits.subs);
      ResizedIs(c.subs, number, size);
      var k := FindSub(c.subs, number);
      if k < |c.subs| {
        SubSizesUpdate(c.subs, k, Sub(number, size));
        ChangeExactly(s, i, change(c), limits);
      } else {
        assert s.calls[i := c] == s.calls;
        AllKept(s.calls, limits);
      }
    } else {
      WithNone(s.calls, id, change);
      AllKept(s.calls, limits);
    }
  }

  lemma EndExactly(s: State, id: nat, status: Status, added: nat, limits: Limits)
    requires Inv(s, limits)
    ensures Keeps(FinishCall(s, id, status, added, limits).calls, After(s, Ends(id, status, added), limits.subs), limits)
  {
    hide Inv, Resize, With, Keeps, CallSize, Finished, Indexed, Sizes, Shaped, FinishCall;
    InvParts(s, limits);
    IdsParts(s);
    EndIs(s, id, status, added, limits);
    var change := (c: Call) => if c.status == Running && status != Running then c.(status := status, own := c.own + added) else c;
    var i := Find(s.calls, id);
    assert After(s, Ends(id, status, added), limits.subs) == With(s.calls, id, change);
    if i == |s.calls| {
      WithNone(s.calls, id, change);
      AllKept(s.calls, limits);
    } else {
      var c := s.calls[i];
      WithOne(s.calls, i, change);
      if c.status == Running && status != Running {
        SessionKnown(s, i);
        MoreOwn(c, change(c), added);
        EndedCuts(s, i, change(c), added, limits);
      } else {
        assert s.calls[i := c] == s.calls;
        AllKept(s.calls, limits);
      }
    }
  }

  lemma EndedCuts(s: State, i: nat, d: Call, added: nat, limits: Limits)
    requires Inv(s, limits) && i < |s.calls| && d.id == s.calls[i].id && CallSize(d) == CallSize(s.calls[i]) + added
    requires s.calls[i].session in s.sessions
    ensures var t := s.(calls := s.calls[i := d],
                        sessions := s.sessions[s.calls[i].session := Finished(s.sessions[s.calls[i].session], d.id, d.status)]);
      Keeps(Resize(t, d.id, added, limits).calls, s.calls[i := d], limits)
  {
    hide *;
    var t := s.(calls := s.calls[i := d],
                sessions := s.sessions[s.calls[i].session := Finished(s.sessions[s.calls[i].session], d.id, d.status)]);
    InvParts(s, limits);
    UpdateSizes(s, i, d, t);
    ResizeCuts(t, d.id, added, limits);
  }

  /** The recorded calls after any event: a new call in front, or one call with one more nested call,
      with another size of a nested call, or ended; of these the newest, as many as the limits allow. */
  lemma StepExactly(s: State, ev: Event, limits: Limits)
    requires Inv(s, limits)
    ensures Keeps(Step(s, ev, limits).calls, After(s, ev, limits.subs), limits)
    ensures Step(s, ev, limits).enabled == (ev.Enables? || (s.enabled && !ev.Disables?))
  {
    EnabledSame(s, ev, limits);
    AllKept(s.calls, limits);
    AllKept([], limits);
    hide Inv, StartCall, PushSub, FinishSub, FinishCall, Keeps;
    match ev
    case Starts(session, size) => if s.enabled { StartExactly(s, session, size, limits); } else { StartDisabled(s, session, size, limits); }
    case Pushes(id, size) => PushExactly(s, id, size, limits);
    case EndsSub(id, number, size) => EndSubExactly(s, id, number, size, limits);
    case Ends(id, status, added) => EndExactly(s, id, status, added, limits);
    case _ =>
  }

  lemma {:induction false} ShrinkEnabled(s: State, limits: Limits)
    ensures Shrink(s, limits).enabled == s.enabled
    decreases |s.calls|
  {
    hide Count, Summarize;
    if s.bytes > limits.bytes && |s.calls| > 1 { ShrinkEnabled(Evict(s), limits); }
  }

  lemma ResizeEnabled(s: State, id: nat, delta: int, limits: Limits)
    ensures Resize(s, id, delta, limits).enabled == s.enabled
  {
    hide Shrink, Find;
    ShrinkEnabled(s.(sizes := s.sizes[id := (if id in s.sizes then s.sizes[id] else 0) + delta], bytes := s.bytes + delta), limits);
  }

  lemma EnabledSame(s: State, ev: Event, limits: Limits)
    ensures Step(s, ev, limits).enabled == (ev.Enables? || (s.enabled && !ev.Disables?))
  {
    hide Shrink, Find, FindSub, Pushed, CallSize, Count, Summarize;
    forall t: State, id: nat, delta: int ensures Resize(t, id, delta, limits).enabled == t.enabled { ResizeEnabled(t, id, delta, limits); }
    hide Resize;
  }
}
