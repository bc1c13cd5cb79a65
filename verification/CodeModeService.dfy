/** The service as it runs: fields updated in place by the steps of `LeaseStates`. */
module CodeModeServices {
  import opened LeaseStates
  import opened LeaseInvariants

  class CodeModeService {
    const idleMs: nat
    var shared: map<nat, Binding>
    var entries: map<nat, Entry>
    var generation: nat
    var calls: map<nat, Call>
    var cells: map<nat, nat>
    var closed: bool

    ghost function Value(): State
      reads this
    {
      State(shared, entries, generation, calls, cells, closed)
    }

    ghost predicate Valid()
      reads this
    {
      Running(Value())
    }

    constructor (idleMs: nat)
      requires idleMs > 0
      ensures Valid() && Value() == Initial && this.idleMs == idleMs
    {
      this.idleMs := idleMs;
      shared, entries, generation, calls, cells, closed := map[], map[], 0, map[], map[], false;
    }

    /** `release()` of one lease. */
    method Release(call: nat, now: int)
      requires call in calls && calls[call].Holding() && calls[call].generation in entries
      modifies this`entries, this`calls, this`cells
      ensures Value() == ReleaseCalls(old(Value()), {call}, now)
    {
      hide ReleaseCalls, OfGeneration;
      var g := calls[call].generation;
      var e := entries[g].(users := entries[g].users - 1);
      if e.users == 0 {
        e := e.(idleSince := now);
        if e.scope.None? && e.retired.None? {
          e := e.(retired := Some(Unscoped));
        }
      }
      assert e == ReleaseEntry(entries[g], 1, now);
      ReleaseOne(Value(), call, now);
      entries := entries[g := e];
      cells := map h | h in cells && cells[h] != call :: cells[h];
      calls := calls[call := calls[call].(phase := Done)];
    }

    /** `CellRegistry.retireSession`: end every cell of the sessions `gens`. */
    method EndCells(gens: set<nat>, now: int)
      requires Known(Value()) && Counted(Value()) && CellsMatch(Value())
      modifies this`entries, this`calls, this`cells
      ensures Value() == ReleaseCalls(old(Value()), TrackedIn(old(Value()), gens), now)
    {
      hide Known, Counted, CellsMatch, ReleaseCalls;
      TrackedListed(Value(), gens);
      var handles := cells.Keys;
      ghost var ended: set<nat> := {};
      ReleaseNone(Value(), now);
      while handles != {}
        invariant Value() == ReleaseCalls(old(Value()), ended, now)
        invariant ended <= TrackedIn(old(Value()), gens)
        invariant handles <= old(cells).Keys
        invariant forall c :: c in TrackedIn(old(Value()), gens) && c !in ended ==> old(calls)[c].phase.cell in handles
        invariant forall c :: c in ended ==> old(calls)[c].phase.cell !in handles
        decreases handles
      {
        var h :| h in handles;
        handles := handles - {h};
        CellKept(old(Value()), ended, now, h, gens);
        var c := cells[h];
        if calls[c].generation in gens {
          HolderKnown(old(Value()), c);
          ReleaseMore(old(Value()), ended, c, now);
          Release(c, now);
          ended := ended + {c};
        }
      }
      assert ended == TrackedIn(old(Value()), gens);
    }

    /** `#retire` of one entry: unbind its scope, then end its cells. */
    method RetireEntry(g: nat, reason: Reason, now: int)
      requires Known(Value()) && Counted(Value()) && CellsMatch(Value())
      modifies this`entries, this`calls, this`cells, this`shared
      ensures Value() == Retire(old(Value()), {g}, reason, now)
    {
      hide Known, Counted, CellsMatch, ReleaseCalls, Mark, TrackedIn;
      if g !in entries || entries[g].retired.Some? {
        RetireNothing(Value(), g, reason, now);
        return;
      }
      ghost var marked := Mark(Value(), {g}, reason, now);
      assert Victims(Value(), {g}) == {g};
      MarkKnown(Value(), {g}, reason, now);
      MarkOne(Value(), g, reason, now);
      var e := entries[g];
      entries := entries[g := e.(retired := Some(reason))];
      var bound := set sc | sc in shared && shared[sc] == Live(g);
      if LeavesNotice(e, reason) {
        var notice := Notice(if e.previous.Some? then e.previous.value else g, now);
        shared := map sc | sc in shared :: if sc in bound then notice else shared[sc];
      } else {
        shared := shared - bound;
      }
      assert Value() == marked;
      EndCells({g}, now);
    }

    /** Retire several sessions whose cells, if any, have already ended. */
    method RetireEach(gens: set<nat>, reason: Reason, now: int)
      requires Known(Value()) && Counted(Value()) && CellsMatch(Value()) && TrackedIn(Value(), Victims(Value(), gens)) == {}
      modifies this`entries, this`calls, this`cells, this`shared
      ensures Value() == Retire(old(Value()), gens, reason, now)
    {
      hide Known, Counted, CellsMatch, Retire, Mark, Victims, TrackedIn;
      var todo := gens;
      ghost var done: set<nat> := {};
      RetireNobody(Value(), reason, now);
      while todo != {}
        invariant done + todo == gens && done !! todo
        invariant Value() == Retire(old(Value()), done, reason, now)
        invariant Known(Value()) && Counted(Value()) && CellsMatch(Value())
        decreases todo
      {
        var g :| g in todo;
        todo := todo - {g};
        RetireMore(old(Value()), gens, done, g, reason, now);
        RetireEntry(g, reason, now);
        done := done + {g};
        RetireKnown(old(Value()), gens, done, reason, now);
      }
      assert done == gens;
    }

    /** `#sweep`: idle sessions end, and notices that are too old are dropped. */
    method SweepIdle(deadline: int, now: int)
      requires Valid()
      modifies this
      ensures Valid() && Value() == Sweep(old(Value()), deadline, now)
    {
      hide Known, Bound, Exclusive, Counted, CellsMatch, UnscopedUsed, Cautious, Pending, TrackedLive, Retire;
      SweepRunning(Value(), deadline, now);
      IdleUntracked(Value(), deadline);
      var idle := set g | g in entries && entries[g].users == 0 && entries[g].idleSince <= deadline;
      assert idle == IdleEntries(Value(), deadline);
      RetireEach(idle, Idle, now);
      var scopes, kept := shared.Keys, shared;
      while scopes != {}
        invariant scopes <= shared.Keys
        invariant kept == map sc | sc in shared && (sc in scopes || !Expired(shared[sc], deadline)) :: shared[sc]
        decreases scopes
      {
        var sc :| sc in scopes;
        scopes := scopes - {sc};
        if Expired(shared[sc], deadline) {
          kept := kept - {sc};
        }
      }
      assert kept == map sc | sc in shared && !Expired(shared[sc], deadline) :: shared[sc];
      shared := kept;
      assert Value() == Sweep(old(Value()), deadline, now);
    }

    /** `captureGeneration`, before any request queue; the number is remembered by the call. */
    method CaptureGeneration(call: nat, scope: Option<nat>, now: int) returns (seen: Option<nat>)
      requires Valid() && call !in calls
      modifies this
      ensures Valid() && Value() == Capture(old(Value()), call, scope, now - idleMs, now)
      ensures seen == calls[call].expected
    {
      hide Running, Sweep;
      CaptureRunning(Value(), call, scope, now - idleMs, now);
      SweepIdle(now - idleMs, now);
      seen := SeenGeneration(State(shared, entries, generation, calls, cells, closed), scope);
      calls := calls[call := Call(scope, seen, 0, Captured)];
    }

    /** `acquire` up to its first suspension. */
    method Acquire(call: nat, now: int)
      requires Valid() && call in calls && calls[call].phase.Captured?
      modifies this
      ensures Valid() && Value() == StartAcquire(old(Value()), call, now - idleMs, now)
    {
      hide Running, Sweep, Join;
      StartAcquireRunning(Value(), call, now - idleMs, now);
      SweepWaiting(Value(), call, now - idleMs, now);
      SweepIdle(now - idleMs, now);
      JoinSession(call, now);
    }

    method JoinSession(call: nat, now: int)
      requires call in calls
      modifies this`entries, this`calls, this`shared, this`generation
      ensures Value() == Join(old(Value()), call, now)
    {
      var c := calls[call];
      if c.expected.None? {
        c := c.(expected := SeenGeneration(State(shared, entries, generation, calls, cells, closed), c.scope));
      }
      var binding := if c.scope.Some? && c.scope.value in shared then Some(shared[c.scope.value]) else None;
      var g, e := 0, Entry(c.scope, 0, now, now, None, false, false, None);
      if binding.Some? && binding.value.Live? {
        g := binding.value.generation;
        e := if g in entries then entries[g] else e.(previous := Some(g));
      } else {
        generation := generation + 1;
        g := generation;
        if binding.Some? {
          e := e.(previous := Some(binding.value.generation));
        }
        if c.scope.Some? {
          shared := shared[c.scope.value := Live(g)];
        }
      }
      entries := entries[g := e.(users := e.users + 1, lastUsed := now)];
      calls := calls[call := c.(generation := g, phase := Opening)];
    }

    /** The rest of `acquire`; true when the lease is granted. */
    method Resume(call: nat, result: OpenResult, now: int) returns (granted: bool)
      requires Valid() && call in calls && calls[call].phase.Opening?
      modifies this
      ensures call in old(calls) && old(calls)[call].generation in old(entries)
      ensures Valid() && Value() == FinishAcquire(old(Value()), call, result, now)
      ensures granted == (call in calls && calls[call].phase.Executing?)
    {
      hide Known, Bound, Exclusive, Counted, CellsMatch, UnscopedUsed, Cautious, Pending, TrackedLive, ReleaseCalls, Retire;
      HolderKnown(Value(), call);
      FinishAcquireRunning(Value(), call, result, now);
      var g := calls[call].generation;
      var expected := calls[call].expected;
      if !result.OpenFailed? {
        entries := entries[g := entries[g].(ready := true)];
      }
      RefreshRunning(old(Value()), Value(), g);
      if result != OpenUsable || entries[g].retired.Some? {
        ReleaseKeeps(Value(), {call}, now);
        ReleaseDone(Value(), call, now);
        Release(call, now);
        RetireDone(Value(), call, g, now);
        RetireEntry(g, Failure, now);
        return false;
      }
      entries := entries[g := entries[g].(previous := None)];
      if expected.Some? && expected.value != g {
        ReleaseDone(Value(), call, now);
        Release(call, now);
        return false;
      }
      entries := entries[g := entries[g].(announced := true)];
      calls := calls[call := calls[call].(phase := Executing)];
      assert entries == old(entries)[g := entries[g]];
      assert Value() == FinishAcquire(old(Value()), call, result, now);
      return true;
    }

    /** `reclaimOldest`: the candidate that sorts first is retired for its memory. */
    method ReclaimOldest(idleOnly: bool, through: nat, now: int) returns (victim: Option<nat>)
      requires Valid()
      modifies this
      ensures Valid() && Value() == Reclaim(old(Value()), idleOnly, through, now)
      ensures victim == Oldest(old(Value()), idleOnly, through)
    {
      hide Running, Retire;
      ReclaimRunning(Value(), idleOnly, through, now);
      victim := None;
      for g := 0 to through + 1
        invariant g > 0 ==> victim == Oldest(Value(), idleOnly, g - 1)
        invariant g == 0 ==> victim == None
        invariant victim.Some? ==> victim.value in entries
      {
        if g in entries && entries[g].retired.None? && (idleOnly ==> entries[g].users == 0) {
          if victim.None? || !Before(idleOnly, victim.value, g) {
            victim := Some(g);
          }
        }
      }
      if victim.Some? {
        RunningParts(Value());
        RetireEntry(victim.value, Memory, now);
      }
    }

    predicate Before(idleOnly: bool, a: nat, b: nat)
      requires a in entries && b in entries
      reads this
    {
      var p := if idleOnly then entries[a].idleSince else entries[a].lastUsed;
      var q := if idleOnly then entries[b].idleSince else entries[b].lastUsed;
      p < q || (p == q && a <= b)
    }

    /** `#invalidateSession`. */
    method InvalidateSession(g: nat, now: int)
      requires Valid()
      modifies this
      ensures Valid() && Value() == FailSession(old(Value()), g, now)
    {
      hide Known, Bound, Exclusive, Counted, CellsMatch, UnscopedUsed, Cautious, Pending, TrackedLive, ReleaseCalls, Retire;
      FailSessionRunning(Value(), g, now);
      EndCellsRunning(Value(), {g}, now);
      EndCells({g}, now);
      RetireEntry(g, Failure, now);
    }

    /** `#invalidateSessions`. */
    method InvalidateSessions(memory: bool, now: int)
      requires Valid()
      modifies this
      ensures Valid() && Value() == FailAll(old(Value()), memory, now)
    {
      hide Known, Bound, Exclusive, Counted, CellsMatch, UnscopedUsed, Cautious, Pending, TrackedLive, ReleaseCalls, Retire;
      FailAllRunning(Value(), memory, now);
      EndCellsRunning(Value(), entries.Keys, now);
      AllEnded(Value(), now);
      var all := entries.Keys;
      EndCells(all, now);
      assert entries.Keys == all;
      RetireEach(all, if memory then Memory else Failure, now);
    }

    /** `#trackOutcome` and `#modelResult` after exec. */
    method EndExec(call: nat, outcome: Outcome, now: int)
      requires Valid() && call in calls && calls[call].phase.Executing?
      modifies this
      ensures Valid() && Value() == FinishExec(old(Value()), call, outcome, now)
    {
      hide Running, ReleaseCalls;
      FinishExecRunning(Value(), call, outcome, now);
      RunningParts(Value());
      HolderKnown(Value(), call);
      var c := calls[call];
      if outcome.Yielded? && entries[c.generation].retired.None? && outcome.cell !in cells {
        if outcome.deliverable {
          cells := cells[outcome.cell := call];
          calls := calls[call := c.(phase := Tracked(outcome.cell))];
        } else {
          calls := calls[call := c.(phase := Terminating)];
        }
      } else {
        Release(call, now);
      }
    }

    /** The end of a wait call. */
    method EndWait(cell: nat, outcome: Outcome, now: int)
      requires Valid()
      modifies this
      ensures Valid() && Value() == FinishWait(old(Value()), cell, outcome, now)
    {
      hide Running, ReleaseCalls, TakeCells;
      FinishWaitRunning(Value(), cell, outcome, now);
      RunningParts(Value());
      if cell !in cells || outcome.Failed? {
        return;
      }
      var call := cells[cell];
      assert call in calls && calls[call].phase == Tracked(cell) by { CellCall(Value(), cell); }
      if outcome.Finished? {
        HolderKnown(Value(), call);
        Release(call, now);
      } else if !outcome.deliverable {
        StopCells({cell});
      }
    }

    /** `takeUnobserved` and `take`: cells leave the registry, their leases stay held. */
    method StopCells(taken: set<nat>)
      requires Valid()
      modifies this`calls, this`cells
      ensures Valid() && Value() == TakeCells(old(Value()), taken)
    {
      hide Running, TakeCells;
      TakeCellsRunning(Value(), taken);
      RunningParts(Value());
      cells, calls := TakeEach(Value(), cells, calls, taken);
    }

    /** The loop over the registry. */
    static method TakeEach(ghost s: State, cells: map<nat, nat>, calls: map<nat, Call>, taken: set<nat>)
      returns (left: map<nat, nat>, marked: map<nat, Call>)
      requires CellsMatch(s) && cells == s.cells && calls == s.calls
      ensures TakeCells(s, taken) == s.(cells := left, calls := marked)
    {
      hide CellsMatch;
      left, marked := cells, calls;
      var handles := taken * cells.Keys;
      ghost var ended: set<nat> := {};
      while handles != {}
        invariant handles <= taken * cells.Keys && left.Keys == cells.Keys - (taken - handles)
        invariant forall h :: h in left ==> left[h] == cells[h]
        invariant ended == CallsOf(s, taken - handles)
        invariant marked == Terminated(calls, ended)
        decreases handles
      {
        var h :| h in handles;
        CellCall(s, h);
        assert CallsOf(s, taken - (handles - {h})) == ended + {left[h]};
        marked := marked[left[h] := marked[left[h]].(phase := Terminating)];
        ended := ended + {left[h]};
        left := left - {h};
        handles := handles - {h};
      }
      assert taken - {} == taken;
      assert ended == set h | h in taken && h in s.cells :: s.cells[h];
    }

    /** `#terminateOwner` after the host answered, or failed to. */
    method EndTerminate(call: nat, confirmed: bool, now: int)
      requires Valid() && call in calls && calls[call].phase.Terminating?
      modifies this
      ensures Valid() && Value() == FinishTerminate(old(Value()), call, confirmed, now)
    {
      hide Running, ReleaseCalls, FailSession;
      FinishTerminateRunning(Value(), call, confirmed, now);
      if !confirmed {
        StaysTerminating(Value(), call, calls[call].generation, now);
        InvalidateSession(calls[call].generation, now);
      }
      RunningParts(Value());
      HolderKnown(Value(), call);
      Release(call, now);
    }
  }

  lemma ReleaseOne(s: State, call: nat, now: int)
    requires call in s.calls && s.calls[call].generation in s.entries
    ensures var g := s.calls[call].generation;
            var r := ReleaseCalls(s, {call}, now);
            r == s.(entries := s.entries[g := ReleaseEntry(s.entries[g], 1, now)],
                    calls := s.calls[call := s.calls[call].(phase := Done)],
                    cells := map h | h in s.cells && s.cells[h] != call :: s.cells[h])
  {
    hide ReleaseEntry, OfGeneration;
    var g, r := s.calls[call].generation, ReleaseCalls(s, {call}, now);
    forall x | x in s.entries
      ensures r.entries[x] == if x == g then ReleaseEntry(s.entries[g], 1, now) else s.entries[x]
    {
      OneOf(s, call, x);
      NoneReleased(s.entries[x], now);
    }
    assert r.entries == s.entries[g := ReleaseEntry(s.entries[g], 1, now)];
    assert r.calls == s.calls[call := s.calls[call].(phase := Done)];
  }

  lemma OneOf(s: State, call: nat, g: nat)
    requires call in s.calls
    ensures |OfGeneration(s, {call}, g)| == if s.calls[call].generation == g then 1 else 0
  {
    assert OfGeneration(s, {call}, g) == if s.calls[call].generation == g then {call} else {};
  }

  lemma NoneReleased(e: Entry, now: int)
    ensures ReleaseEntry(e, 0, now) == e
  {
  }

  lemma ReleaseNone(s: State, now: int)
    ensures ReleaseCalls(s, {}, now) == s
  {
    assert forall x :: OfGeneration(s, {}, x) == {};
  }

  lemma TrackedListed(s: State, gens: set<nat>)
    requires CellsMatch(s)
    ensures forall c :: c in TrackedIn(s, gens) ==> s.calls[c].phase.cell in s.cells && s.cells[s.calls[c].phase.cell] == c
    ensures Releasable(s, TrackedIn(s, gens))
  {
  }

  /** Leases can be released one after another. */
  lemma ReleaseMore(s: State, cs: set<nat>, c: nat, now: int)
    requires Known(s) && Counted(s) && Releasable(s, cs + {c}) && c !in cs
    ensures var t := ReleaseCalls(s, cs, now);
            && t.calls[c] == s.calls[c]
            && ReleaseCalls(t, {c}, now) == ReleaseCalls(s, cs + {c}, now)
  {
    hide Known, Counted, OfGeneration, ReleaseEntry;
    var t := ReleaseCalls(s, cs, now);
    var a, b := ReleaseCalls(t, {c}, now), ReleaseCalls(s, cs + {c}, now);
    forall g | g in s.entries
      ensures a.entries[g] == b.entries[g]
    {
      OneMore(s, cs, c, g);
      SameGeneration(s, t, c, g);
      EntryTwice(s.entries[g], |OfGeneration(s, cs, g)|, |OfGeneration(s, {c}, g)|, now);
    }
    assert a.entries == b.entries;
    MoreCells(s, cs, c, now);
  }

  lemma SameGeneration(s: State, t: State, c: nat, g: nat)
    requires c in s.calls && c in t.calls && s.calls[c] == t.calls[c]
    ensures OfGeneration(t, {c}, g) == OfGeneration(s, {c}, g)
  {
  }

  lemma EntryTwice(e: Entry, m: nat, n: nat, now: int)
    requires m + n <= e.users && n <= 1
    ensures ReleaseEntry(ReleaseEntry(e, m, now), n, now) == ReleaseEntry(e, m + n, now)
  {
  }

  lemma MoreCells(s: State, cs: set<nat>, c: nat, now: int)
    ensures var t := ReleaseCalls(s, cs, now);
            var a, b := ReleaseCalls(t, {c}, now), ReleaseCalls(s, cs + {c}, now);
            a.calls == b.calls && a.cells == b.cells && a.shared == b.shared && a.generation == b.generation && a.closed == b.closed
  {
    hide OfGeneration, ReleaseEntry;
  }

  lemma OneMore(s: State, cs: set<nat>, c: nat, g: nat)
    requires Known(s) && Counted(s) && Releasable(s, cs + {c}) && c !in cs && g in s.entries
    ensures |OfGeneration(s, cs + {c}, g)| == |OfGeneration(s, cs, g)| + |OfGeneration(s, {c}, g)|
    ensures |OfGeneration(s, cs + {c}, g)| <= s.entries[g].users && |OfGeneration(s, {c}, g)| <= 1
  {
    assert OfGeneration(s, cs + {c}, g) == OfGeneration(s, cs, g) + OfGeneration(s, {c}, g);
    assert OfGeneration(s, cs, g) !! OfGeneration(s, {c}, g);
    assert OfGeneration(s, {c}, g) <= {c};
    assert OfGeneration(s, cs + {c}, g) <= Holders(s, g);
    SizeAtMost(OfGeneration(s, cs + {c}, g), Holders(s, g));
    SizeAtMost(OfGeneration(s, {c}, g), {c});
  }

  lemma SizeAtMost(a: set<nat>, b: set<nat>)
    requires a <= b
    ensures |a| <= |b|
  {
    SubsetSize(a, b);
  }

  /** A cell that was not ended yet is still listed, on the call that owns it. */
  lemma CellKept(s: State, ended: set<nat>, now: int, h: nat, gens: set<nat>)
    requires CellsMatch(s) && h in s.cells && ended <= TrackedIn(s, gens)
    requires forall c :: c in ended ==> s.calls[c].phase.cell != h
    ensures var t := ReleaseCalls(s, ended, now);
            && h in t.cells && t.cells[h] == s.cells[h] && t.cells[h] !in ended
            && t.cells[h] in t.calls && t.calls[t.cells[h]] == s.calls[s.cells[h]] && s.calls[s.cells[h]].phase == Tracked(h)
  {
  }

  lemma RetireNothing(s: State, g: nat, reason: Reason, now: int)
    requires !Unretired(s, g)
    ensures Retire(s, {g}, reason, now) == s
  {
    hide ReleaseCalls, Mark;
    var victims := Victims(s, {g});
    assert victims == {};
    assert TrackedIn(s, victims) == {};
    RetireNobody(s, reason, now);
    ReleaseNone(s, now);
  }

  lemma RetireNobody(s: State, reason: Reason, now: int)
    ensures Mark(s, {}, reason, now) == s
    ensures Retire(s, {}, reason, now) == s
  {
    hide ReleaseCalls;
    assert Victims(s, {}) == {};
    var marked := Mark(s, {}, reason, now);
    assert marked.entries == s.entries && marked.shared == s.shared;
    assert TrackedIn(s, {}) == {};
    ReleaseNone(s, now);
  }

  lemma MarkOne(s: State, g: nat, reason: Reason, now: int)
    requires g in s.entries
    ensures var e, r := s.entries[g], Mark(s, {g}, reason, now);
            && r.entries == s.entries[g := e.(retired := Some(reason))]
            && r == s.(entries := r.entries, shared := r.shared)
            && r.shared == if LeavesNotice(e, reason)
                           then map sc | sc in s.shared :: if s.shared[sc] == Live(g) then Notice(if e.previous.Some? then e.previous.value else g, now) else s.shared[sc]
                           else map sc | sc in s.shared && s.shared[sc] != Live(g) :: s.shared[sc]
  {
  }

  /** With no cells left to end, sessions can be retired one after another. */
  lemma RetireMore(s: State, gens: set<nat>, done: set<nat>, g: nat, reason: Reason, now: int)
    requires TrackedIn(s, Victims(s, gens)) == {} && done <= gens && g in gens && g !in done
    ensures Retire(Retire(s, done, reason, now), {g}, reason, now) == Retire(s, done + {g}, reason, now)
  {
    hide Mark, ReleaseCalls;
    var t := Retire(s, done, reason, now);
    UntrackedRetire(s, gens, done, reason, now);
    UntrackedRetire(s, gens, done + {g}, reason, now);
    assert t == Mark(s, Victims(s, done), reason, now);
    MarkTwice(s, done, g, reason, now);
    assert TrackedIn(Mark(t, Victims(t, {g}), reason, now), Victims(t, {g})) == {} by {
      MarkCalls(s, Victims(s, done), reason, now);
      MarkCalls(t, Victims(t, {g}), reason, now);
    }
    ReleaseNone(Mark(t, Victims(t, {g}), reason, now), now);
  }

  lemma MarkCalls(s: State, victims: set<nat>, reason: Reason, now: int)
    ensures Mark(s, victims, reason, now).calls == s.calls
    ensures forall g :: Unretired(Mark(s, victims, reason, now), g) ==> Unretired(s, g)
  {
  }

  lemma UntrackedRetire(s: State, gens: set<nat>, done: set<nat>, reason: Reason, now: int)
    requires TrackedIn(s, Victims(s, gens)) == {} && done <= gens
    ensures Retire(s, done, reason, now) == Mark(s, Victims(s, done), reason, now)
  {
    hide Mark, ReleaseCalls;
    var marked := Mark(s, Victims(s, done), reason, now);
    MarkCalls(s, Victims(s, done), reason, now);
    assert TrackedIn(marked, Victims(s, done)) == {} by {
      assert TrackedIn(marked, Victims(s, done)) <= TrackedIn(s, Victims(s, gens));
    }
    ReleaseNone(marked, now);
  }

  lemma MarkTwice(s: State, done: set<nat>, g: nat, reason: Reason, now: int)
    ensures var t := Mark(s, Victims(s, done), reason, now);
            Mark(t, Victims(t, {g}), reason, now) == Mark(s, Victims(s, done + {g}), reason, now)
  {
    hide Rebound, Unbinds;
    var t := Mark(s, Victims(s, done), reason, now);
    var a, b := Mark(t, Victims(t, {g}), reason, now), Mark(s, Victims(s, done + {g}), reason, now);
    assert a.entries == b.entries;
    forall sc | sc in s.shared
      ensures sc in a.shared <==> sc in b.shared
      ensures sc in a.shared && sc in b.shared ==> a.shared[sc] == b.shared[sc]
    {
      BindingTwice(s, done, g, reason, now, sc);
    }
    assert a.shared == b.shared;
  }

  lemma BindingTwice(s: State, done: set<nat>, g: nat, reason: Reason, now: int, sc: nat)
    requires sc in s.shared
    ensures var t := Mark(s, Victims(s, done), reason, now);
            var v, w, u := Victims(s, done), Victims(t, {g}), Victims(s, done + {g});
            && (Unbinds(s, sc, u, reason) <==> Unbinds(s, sc, v, reason) || Unbinds(t, sc, w, reason))
            && (!Unbinds(s, sc, v, reason) ==> Rebound(t, t.shared[sc], w, reason, now) == Rebound(s, s.shared[sc], u, reason, now))
  {
  }

  lemma RetireKnown(s: State, gens: set<nat>, done: set<nat>, reason: Reason, now: int)
    requires Known(s) && Counted(s) && CellsMatch(s) && TrackedIn(s, Victims(s, gens)) == {} && done <= gens
    ensures var r := Retire(s, done, reason, now); Known(r) && Counted(r) && CellsMatch(r)
  {
    hide Known, Counted, CellsMatch, Mark;
    UntrackedRetire(s, gens, done, reason, now);
    MarkKnown(s, Victims(s, done), reason, now);
  }

  lemma IdleUntracked(s: State, deadline: int)
    requires Counted(s) && Known(s)
    ensures TrackedIn(s, Victims(s, IdleEntries(s, deadline))) == {}
  {
    hide Counted, Known;
    forall c | c in TrackedIn(s, Victims(s, IdleEntries(s, deadline)))
      ensures false
    {
      HolderCounts(s, c);
    }
  }

  function CallsOf(s: State, handles: set<nat>): set<nat> {
    set h | h in handles && h in s.cells :: s.cells[h]
  }

  function Terminated(calls: map<nat, Call>, ended: set<nat>): map<nat, Call> {
    map c | c in calls :: if c in ended then calls[c].(phase := Terminating) else calls[c]
  }

  lemma RunningParts(s: State)
    requires Running(s)
    ensures Known(s) && Counted(s) && CellsMatch(s) && TrackedLive(s) && Bound(s)
  {
  }

  lemma CellCall(s: State, cell: nat)
    requires CellsMatch(s) && cell in s.cells
    ensures s.cells[cell] in s.calls && s.calls[s.cells[cell]].phase == Tracked(cell)
  {
  }

  lemma ReleaseDone(s: State, call: nat, now: int)
    requires call in s.calls
    ensures var r := ReleaseCalls(s, {call}, now); call in r.calls && r.calls[call].phase == Done
  {
  }

  lemma RetireDone(s: State, call: nat, g: nat, now: int)
    requires call in s.calls && s.calls[call].phase == Done
    ensures var r := Retire(s, {g}, Failure, now); call in r.calls && r.calls[call].phase == Done
  {
    hide Rebound, Unbinds, ReleaseEntry, OfGeneration;
  }

  /** After every cell ended there is nothing left for retirement to end. */
  lemma AllEnded(s: State, now: int)
    requires Known(s)
    ensures var t := ReleaseCalls(s, TrackedIn(s, s.entries.Keys), now);
            TrackedIn(t, Victims(t, s.entries.Keys)) == {}
  {
    hide OfGeneration, ReleaseEntry;
  }
}
