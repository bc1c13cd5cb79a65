/** The audit as the object that tool calls report to. */
module ActivityStores {
  import opened ActivityStates

  class ActivityStore {
    const limits: Limits
    var calls: seq<Call>
    var sessions: map<nat, Summary>
    var sizes: map<nat, int>
    var bytes: int
    var next: nat
    var enabled: bool

    ghost function View(): State
      reads this
    {
      State(calls, sessions, sizes, bytes, next, enabled)
    }

    constructor (limits: Limits)
      requires limits.Valid()
      ensures View() == Empty && this.limits == limits
    {
      this.limits := limits;
      calls, sessions, sizes, bytes, next, enabled := [], map[], map[], 0, 0, true;
    }

    /** `rebuildSession`: one pass counts the session's calls and errors. */
    method RebuildSession(session: nat)
      modifies this`sessions
      ensures View() == Rebuild(old(View()), session)
    {
      var count, errors, newest, i := 0, 0, None, 0;
      while i < |calls|
        invariant 0 <= i <= |calls|
        invariant count == Count(calls[..i], session) && errors == Errors(calls[..i], session) && newest == Newest(calls[..i], session)
      {
        assert calls[..i + 1][..i] == calls[..i];
        var c := calls[i];
        if c.session == session {
          count := count + 1;
          if c.status == Failure { errors := errors + 1; }
          if newest.None? { newest := Some(c); }
        }
        i := i + 1;
      }
      assert calls[..i] == calls;
      if count == 0 {
        sessions := sessions - {session};
      } else {
        sessions := sessions[session := Summary(count, errors, newest.value.id, newest.value.status)];
      }
    }

    method EvictOldest()
      requires calls != []
      modifies this
      ensures View() == Evict(old(View()))
    {
      var removed := calls[|calls| - 1];
      calls := calls[..|calls| - 1];
      bytes := bytes - (if removed.id in sizes then sizes[removed.id] else 0);
      sizes := sizes - {removed.id};
      RebuildSession(removed.session);
    }

    method ResizeCall(id: nat, delta: int)
      modifies this
      ensures View() == Resize(old(View()), id, delta, limits)
    {
      hide Evict;
      if Find(calls, id) == |calls| || delta == 0 { return; }
      sizes := sizes[id := (if id in sizes then sizes[id] else 0) + delta];
      bytes := bytes + delta;
      ghost var was := View();
      while bytes > limits.bytes && |calls| > 1
        invariant Shrink(View(), limits) == Shrink(was, limits)
        decreases |calls|
      {
        ghost var before := View();
        EvictOldest();
        assert |calls| == |before.calls| - 1 by { EvictShorter(before); }
      }
    }

    lemma EvictShorter(s: State)
      requires s.calls != []
      ensures |Evict(s).calls| == |s.calls| - 1
    {
    }

    method Start(session: nat, size: nat) returns (id: nat)
      modifies this
      ensures View() == StartCall(old(View()), session, size, limits)
      ensures id == old(next)
    {
      hide Evict, Resize;
      id := next;
      if !enabled { return; }
      var call := Call(id, session, Running, 512 + size, [], 0);
      var counted := if session in sessions
        then Summary(sessions[session].calls + 1, sessions[session].errors, id, Running)
        else Summary(1, 0, id, Running);
      calls, sessions, next := [call] + calls, sessions[session := counted], id + 1;
      if |calls| > limits.calls { EvictOldest(); }
      ResizeCall(id, 512 + size);
    }

    method Push(id: nat, size: nat)
      modifies this
      ensures View() == PushSub(old(View()), id, size, limits)
    {
      hide Resize, SubSizes;
      var i := Find(calls, id);
      if i == |calls| { return; }
      var c := calls[i];
      var sub := Sub(c.pushed, size);
      var subs := c.subs;
      if |subs| >= limits.subs && Head(limits.subs) < |subs| {
        subs := subs[..Head(limits.subs)] + subs[Head(limits.subs) + 1..];
      }
      var d := c.(subs := subs + [sub], pushed := c.pushed + 1);
      assert d.subs == Pushed(c.subs, sub, limits.subs);
      calls := calls[i := d];
      ResizeCall(id, CallSize(d) - CallSize(c));
    }

    method Finish(id: nat, status: Status, added: nat)
      modifies this
      ensures View() == FinishCall(old(View()), id, status, added, limits)
    {
      hide Resize;
      var i := Find(calls, id);
      if i == |calls| || calls[i].status != Running || status == Running { return; }
      var c := calls[i];
      calls := calls[i := c.(status := status, own := c.own + added)];
      if c.session in sessions {
        var u := sessions[c.session];
        var errors := if status == Failure then u.errors + 1 else u.errors;
        sessions := sessions[c.session := Summary(u.calls, errors, u.lastId, if u.lastId == id then status else u.lastStatus)];
      }
      ResizeCall(id, added);
    }
  }
}
