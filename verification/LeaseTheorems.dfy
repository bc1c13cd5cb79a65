/** What callers of the service rely on, in every run. */
module LeaseTheorems {
  import opened LeaseStates
  import opened LeaseInvariants

  // ---- every lease is somewhere ----

  function InPhase(s: State, g: nat, phase: Phase): set<nat> {
    set c | c in s.calls && s.calls[c].generation == g && s.calls[c].phase == phase
  }

  /** The tracked cells of one session, as the registry lists them. */
  function CellsOf(s: State, g: nat): set<nat> {
    set h | h in s.cells && s.cells[h] in s.calls && s.calls[s.cells[h]].generation == g
  }

  lemma {:induction false} SameSize(a: set<nat>, b: set<nat>, f: map<nat, nat>)
    requires forall x :: x in a ==> x in f && f[x] in b
    requires forall x, y :: x in a && y in a && f[x] == f[y] ==> x == y
    requires forall y :: y in b ==> exists x :: x in a && f[x] == y
    ensures |a| == |b|
    decreases |a|
  {
    if a != {} {
      var x :| x in a;
      SameSize(a - {x}, b - {f[x]}, f);
    } else {
      assert b == {};
    }
  }

  lemma DisjointSizes(a: set<nat>, b: set<nat>)
    requires a !! b
    ensures |a + b| == |a| + |b|
  {
  }

  lemma HoldersSplit(s: State, g: nat)
    ensures |Holders(s, g)| == |InPhase(s, g, Opening)| + |InPhase(s, g, Executing)| + |TrackedIn(s, {g})| + |InPhase(s, g, Terminating)|
  {
    hide *;
    var a, b, t, d := InPhase(s, g, Opening), InPhase(s, g, Executing), TrackedIn(s, {g}), InPhase(s, g, Terminating);
    forall c ensures c in Holders(s, g) <==> c in a + b + t + d {
      HolderIn(s, g, c);
    }
    forall c ensures !(c in a && c in b) && !(c in a + b && c in t) && !(c in a + b + t && c in d) {
      HolderIn(s, g, c);
    }
    assert Holders(s, g) == a + b + t + d;
    DisjointSizes(a, b);
    DisjointSizes(a + b, t);
    DisjointSizes(a + b + t, d);
  }

  /** A holder is in exactly one of the four places. */
  lemma HolderIn(s: State, g: nat, c: nat)
    ensures c in InPhase(s, g, Opening) ==> c !in InPhase(s, g, Executing) && c !in TrackedIn(s, {g}) && c !in InPhase(s, g, Terminating)
    ensures c in InPhase(s, g, Executing) ==> c !in TrackedIn(s, {g}) && c !in InPhase(s, g, Terminating)
    ensures c in TrackedIn(s, {g}) ==> c !in InPhase(s, g, Terminating)
    ensures c in Holders(s, g) <==>
      c in InPhase(s, g, Opening) || c in InPhase(s, g, Executing) || c in TrackedIn(s, {g}) || c in InPhase(s, g, Terminating)
  {
  }

  lemma TrackedAreCells(s: State, g: nat)
    requires CellsMatch(s)
    ensures |CellsOf(s, g)| == |TrackedIn(s, {g})|
  {
    forall c | c in TrackedIn(s, {g})
      ensures exists h :: h in CellsOf(s, g) && s.cells[h] == c
    {
      assert s.calls[c].phase.cell in CellsOf(s, g);
    }
    SameSize(CellsOf(s, g), TrackedIn(s, {g}), s.cells);
  }

  /** `users` is exactly the acquires in flight, the running execs, the tracked cells and the
      terminations in flight of that session. */
  lemma LeasesAccounted(idleMs: nat, events: seq<Event>, g: nat)
    ensures var s := Run(idleMs, events);
            g in s.entries && !s.closed ==>
              s.entries[g].users == |InPhase(s, g, Opening)| + |InPhase(s, g, Executing)| + |CellsOf(s, g)| + |InPhase(s, g, Terminating)|
  {
    hide Run, Holders, TrackedIn, InPhase, CellsOf, Known, Bound, Exclusive, CellsMatch, UnscopedUsed, Cautious, Pending, TrackedLive;
    var s := Run(idleMs, events);
    if g in s.entries && !s.closed {
      HoldersSplit(s, g);
      TrackedAreCells(s, g);
    }
  }

  lemma OneSessionPerScope(idleMs: nat, events: seq<Event>, g: nat, h: nat)
    ensures var s := Run(idleMs, events);
            !s.closed && Unretired(s, g) && Unretired(s, h) && s.entries[g].scope == s.entries[h].scope && s.entries[g].scope.Some?
            ==> g == h
  {
    hide Run;
  }

  /** The idle sweep ends no session that anyone holds a lease on, and no cell. */
  lemma SweepSparesUsers(idleMs: nat, events: seq<Event>, now: int, c: nat)
    ensures var s := Run(idleMs, events);
            var r := Step(idleMs, s, SweepIdle(now));
            !s.closed && c in s.calls && s.calls[c].Holding() && Unretired(s, s.calls[c].generation) ==>
              c in r.calls && r.calls[c] == s.calls[c] && Unretired(r, s.calls[c].generation)
  {
    hide Run, Known, Bound, Exclusive, UnscopedUsed, Cautious, Pending, Counted, CellsMatch, TrackedLive, Sweep;
    var s := Run(idleMs, events);
    if !s.closed && c in s.calls && s.calls[c].Holding() && Unretired(s, s.calls[c].generation) {
      SweepKeepsUsed(s, now - idleMs, now, c);
    }
  }

  lemma SweepKeepsUsed(s: State, deadline: int, now: int, c: nat)
    requires Counted(s) && TrackedLive(s) && c in s.calls && s.calls[c].Holding() && Unretired(s, s.calls[c].generation)
    ensures var r := Sweep(s, deadline, now);
            c in r.calls && r.calls[c] == s.calls[c] && Unretired(r, s.calls[c].generation)
  {
    hide Rebound, Unbinds;
    var g := s.calls[c].generation;
    HolderCounts(s, c);
    var victims := Victims(s, IdleEntries(s, deadline));
    var marked := Mark(s, victims, Idle, now);
    assert g !in victims;
    NoTracked(s, marked, victims);
  }

  lemma NoTracked(s: State, marked: State, victims: set<nat>)
    requires Counted(s) && s.calls == marked.calls && forall g :: g in victims ==> g in s.entries && s.entries[g].users == 0
    ensures TrackedIn(marked, victims) == {}
  {
    forall c | c in TrackedIn(marked, victims)
      ensures false
    {
      HolderCounts(s, c);
    }
  }

  /** The step ends an acquire with a lease. */
  predicate Granted(s: State, r: State, c: nat) {
    c in s.calls && c in r.calls && s.calls[c].phase.Opening? && r.calls[c].phase.Executing?
  }

  lemma GrantOnlyByResume(idleMs: nat, s: State, ev: Event, c: nat)
    requires Granted(s, Step(idleMs, s, ev), c)
    ensures ev.Resume? && ev.call == c && !s.closed && ev.result == OpenUsable && s.calls[c].generation in s.entries
    ensures Unretired(s, s.calls[c].generation) && !Replaced(s, c)
  {
    hide Rebound, Unbinds, ReleaseEntry, OfGeneration, Oldest, IdleEntries;
  }

  /** Neither a session nor a notice is bound to the scope, after the sweep of that moment. */
  predicate Unbound(idleMs: nat, s: State, scope: Option<nat>, now: int) {
    !s.closed && BindingOf(Sweep(s, now - idleMs, now), scope).None?
  }

  /** `events[i]` captured the generation of the call on an unbound scope. */
  predicate CapturedUnbound(idleMs: nat, events: seq<Event>, c: nat, scope: Option<nat>, i: nat)
    requires i < |events|
  {
    && events[i].CaptureGeneration? && events[i].call == c && events[i].scope == scope
    && Unbound(idleMs, Run(idleMs, events[..i]), scope, events[i].now)
  }

  /** `events[j]` started the acquire of the call, and the scope was still unbound. */
  predicate AcquiredUnbound(idleMs: nat, events: seq<Event>, c: nat, scope: Option<nat>, j: nat)
    requires j < |events|
  {
    events[j].Acquire? && events[j].call == c && Unbound(idleMs, Run(idleMs, events[..j]), scope, events[j].now)
  }

  ghost predicate SawNothing(idleMs: nat, events: seq<Event>, c: nat, scope: Option<nat>) {
    exists i: nat :: i < |events| && CapturedUnbound(idleMs, events, c, scope, i)
  }

  ghost predicate FoundNothing(idleMs: nat, events: seq<Event>, c: nat, scope: Option<nat>) {
    exists j: nat :: j < |events| && AcquiredUnbound(idleMs, events, c, scope, j)
  }

  lemma LongerRun(idleMs: nat, events: seq<Event>, ev: Event, c: nat, scope: Option<nat>)
    ensures SawNothing(idleMs, events, c, scope) ==> SawNothing(idleMs, events + [ev], c, scope)
    ensures FoundNothing(idleMs, events, c, scope) ==> FoundNothing(idleMs, events + [ev], c, scope)
  {
    hide Run, Unbound;
    var all := events + [ev];
    assert forall k: nat :: k < |events| ==> all[..k] == events[..k] && all[k] == events[k];
    if SawNothing(idleMs, events, c, scope) {
      var i: nat :| i < |events| && CapturedUnbound(idleMs, events, c, scope, i);
      assert CapturedUnbound(idleMs, all, c, scope, i);
    }
    if FoundNothing(idleMs, events, c, scope) {
      var j: nat :| j < |events| && AcquiredUnbound(idleMs, events, c, scope, j);
      assert AcquiredUnbound(idleMs, all, c, scope, j);
    }
  }

  predicate SameCall(a: Call, b: Call) {
    && b.scope == a.scope && b.expected == a.expected
    && (b.phase.Captured? ==> a.phase.Captured?) && (b.phase.Opening? ==> a.phase.Opening?)
  }

  /** No call is new, looks for another scope, or goes back to an earlier phase. */
  predicate CallsGoOn(s: State, r: State) {
    forall c :: c in r.calls ==> c in s.calls && SameCall(s.calls[c], r.calls[c])
  }

  lemma GoOnChain(s: State, m: State, r: State)
    requires CallsGoOn(s, m) && CallsGoOn(m, r)
    ensures CallsGoOn(s, r)
  {
  }

  lemma ReleaseGoesOn(s: State, cs: set<nat>, now: int)
    ensures CallsGoOn(s, ReleaseCalls(s, cs, now))
  {
    hide ReleaseEntry, OfGeneration;
  }

  lemma RetireGoesOn(s: State, gens: set<nat>, reason: Reason, now: int)
    ensures CallsGoOn(s, Retire(s, gens, reason, now))
  {
    hide Rebound, Unbinds, ReleaseCalls;
    var marked := Mark(s, Victims(s, gens), reason, now);
    assert marked.calls == s.calls;
    ReleaseGoesOn(marked, TrackedIn(marked, Victims(s, gens)), now);
  }

  lemma SweepGoesOn(s: State, deadline: int, now: int)
    ensures CallsGoOn(s, Sweep(s, deadline, now))
  {
    hide Retire;
    RetireGoesOn(s, IdleEntries(s, deadline), Idle, now);
  }

  lemma FailGoesOn(s: State, g: nat, now: int)
    ensures CallsGoOn(s, FailSession(s, g, now))
  {
    hide Retire, ReleaseCalls, CallsGoOn;
    var t := ReleaseCalls(s, TrackedIn(s, {g}), now);
    ReleaseGoesOn(s, TrackedIn(s, {g}), now);
    RetireGoesOn(t, {g}, Failure, now);
    GoOnChain(s, t, FailSession(s, g, now));
  }

  lemma FailAllGoesOn(s: State, memory: bool, now: int)
    ensures CallsGoOn(s, FailAll(s, memory, now))
  {
    hide Retire, ReleaseCalls, CallsGoOn;
    var t := ReleaseCalls(s, TrackedIn(s, s.entries.Keys), now);
    ReleaseGoesOn(s, TrackedIn(s, s.entries.Keys), now);
    RetireGoesOn(t, t.entries.Keys, if memory then Memory else Failure, now);
    GoOnChain(s, t, FailAll(s, memory, now));
  }

  lemma TerminateGoesOn(s: State, call: nat, confirmed: bool, now: int)
    requires call in s.calls
    ensures CallsGoOn(s, FinishTerminate(s, call, confirmed, now))
  {
    hide FailSession, ReleaseCalls, CallsGoOn;
    var t := if confirmed then s else FailSession(s, s.calls[call].generation, now);
    FailGoesOn(s, s.calls[call].generation, now);
    SameGoesOn(s);
    ReleaseGoesOn(t, {call}, now);
    GoOnChain(s, t, FinishTerminate(s, call, confirmed, now));
  }

  lemma SameGoesOn(s: State)
    ensures CallsGoOn(s, s)
  {
  }

  lemma EqualCallsGoOn(s: State, t: State, r: State)
    requires t.calls == s.calls && CallsGoOn(t, r)
    ensures CallsGoOn(s, r)
  {
  }

  lemma FinishGoesOn(s: State, call: nat, result: OpenResult, now: int)
    requires call in s.calls && s.calls[call].generation in s.entries
    ensures CallsGoOn(s, FinishAcquire(s, call, result, now))
  {
    var g := s.calls[call].generation;
    var e := s.entries[g].(ready := s.entries[g].ready || !result.OpenFailed?);
    var t := s.(entries := s.entries[g := e]);
    var u := t.(entries := t.entries[g := e.(previous := None)]);
    hide Retire, ReleaseCalls;
    var r := FinishAcquire(s, call, result, now);
    if result != OpenUsable || e.retired.Some? {
      hide FinishAcquire, CallsGoOn;
      var m := ReleaseCalls(t, {call}, now);
      ReleaseGoesOn(t, {call}, now);
      RetireGoesOn(m, {g}, Failure, now);
      GoOnChain(t, m, Retire(m, {g}, Failure, now));
      EqualCallsGoOn(s, t, Retire(m, {g}, Failure, now));
      FinishFails(s, call, result, now);
    } else if Replaced(s, call) {
      hide CallsGoOn;
      ReleaseGoesOn(u, {call}, now);
      EqualCallsGoOn(s, u, r);
    }
  }

  lemma FinishFails(s: State, call: nat, result: OpenResult, now: int)
    requires call in s.calls && s.calls[call].generation in s.entries
    ensures var g := s.calls[call].generation;
      var e := s.entries[g].(ready := s.entries[g].ready || !result.OpenFailed?);
      (result != OpenUsable || e.retired.Some?) ==>
        FinishAcquire(s, call, result, now) ==
          Retire(ReleaseCalls(s.(entries := s.entries[g := e]), {call}, now), {g}, Failure, now)
  {
    hide Retire, ReleaseCalls;
  }

  lemma ExecGoesOn(s: State, call: nat, outcome: Outcome, now: int)
    requires call in s.calls
    ensures CallsGoOn(s, FinishExec(s, call, outcome, now))
  {
    ReleaseGoesOn(s, {call}, now);
    hide ReleaseCalls;
  }

  lemma TakeGoesOn(s: State, taken: set<nat>)
    ensures CallsGoOn(s, TakeCells(s, taken))
  {
  }

  lemma WaitGoesOn(s: State, cell: nat, outcome: Outcome, now: int)
    ensures CallsGoOn(s, FinishWait(s, cell, outcome, now))
  {
    SameGoesOn(s);
    TakeGoesOn(s, {cell});
    if cell in s.cells { ReleaseGoesOn(s, {s.cells[cell]}, now); }
    hide ReleaseCalls, CallsGoOn, TakeCells;
  }

  lemma CloseGoesOn(s: State, now: int)
    ensures CallsGoOn(s, Close(s, now))
  {
    var t := s.(cells := map[], calls := map c | c in s.calls :: if s.calls[c].phase.Tracked? then s.calls[c].(phase := Done) else s.calls[c]);
    assert CallsGoOn(s, t);
    hide Retire;
    RetireGoesOn(t, t.entries.Keys, Shutdown, now);
    GoOnChain(s, t, Close(s, now));
  }

  lemma OtherStepsGoOn(idleMs: nat, s: State, ev: Event)
    requires s.closed || (!ev.CaptureGeneration? && !ev.Acquire?)
    ensures CallsGoOn(s, Step(idleMs, s, ev))
  {
    hide CallsGoOn, FinishAcquire, FinishExec, FinishWait, TakeCells, FinishTerminate, FailSession, FailAll, Sweep, Retire, Oldest, Close;
    SameGoesOn(s);
    match ev
    case Resume(call, result, now) =>
      if call in s.calls && s.calls[call].generation in s.entries { FinishGoesOn(s, call, result, now); }
    case ExecEnds(call, outcome, now) => if call in s.calls { ExecGoesOn(s, call, outcome, now); }
    case WaitEnds(cell, outcome, now) => WaitGoesOn(s, cell, outcome, now);
    case StopCells(cells) => TakeGoesOn(s, cells);
    case TerminateEnds(call, confirmed, now) => if call in s.calls { TerminateGoesOn(s, call, confirmed, now); }
    case SessionFails(g, now) => FailGoesOn(s, g, now);
    case HostStops(memory, now) => FailAllGoesOn(s, memory, now);
    case SweepIdle(now) => SweepGoesOn(s, now - idleMs, now);
    case ReclaimOldest(idleOnly, through, now) =>
      if Oldest(s, idleOnly, through).Some? { RetireGoesOn(s, {Oldest(s, idleOnly, through).value}, Memory, now); }
    case CloseService(now) => CloseGoesOn(s, now);
    case Touch(_, _) => TouchGoesOn(idleMs, s, ev);
    case _ =>
  }

  lemma TouchGoesOn(idleMs: nat, s: State, ev: Event)
    requires ev.Touch?
    ensures CallsGoOn(s, Step(idleMs, s, ev))
  {
  }

  /** What a call expects is set where its generation is captured and where it acquires, and only
      by the look at its scope there. */
  lemma ExpectationStep(idleMs: nat, s: State, ev: Event, c: nat)
    requires c in Step(idleMs, s, ev).calls
    ensures var k := Step(idleMs, s, ev).calls[c];
      || (c in s.calls && SameCall(s.calls[c], k))
      || (ev.CaptureGeneration? && ev.call == c && k.scope == ev.scope && !k.phase.Opening?
          && (k.expected.None? ==> Unbound(idleMs, s, k.scope, ev.now)))
      || (ev.Acquire? && ev.call == c && c in s.calls && s.calls[c].phase.Captured? && k.scope == s.calls[c].scope
          && !k.phase.Captured? && (k.expected.None? ==> s.calls[c].expected.None? && Unbound(idleMs, s, k.scope, ev.now)))
  {
    hide CallsGoOn, Sweep, Unbound, SameCall;
    if s.closed || (!ev.CaptureGeneration? && !ev.Acquire?) {
      hide Step;
      OtherStepsGoOn(idleMs, s, ev);
      GoesOn(s, Step(idleMs, s, ev), c);
    } else {
      SweepGoesOn(s, ev.now - idleMs, ev.now);
      if ev.CaptureGeneration? {
        if ev.call in s.calls { SameGoesOn(s); GoesOn(s, s, c); } else { CaptureLooks(idleMs, s, ev, c); }
      } else if ev.call in s.calls && s.calls[ev.call].phase.Captured? {
        AcquireLooks(idleMs, s, ev, c);
      } else {
        SameGoesOn(s);
        GoesOn(s, s, c);
      }
    }
  }

  lemma GoesOn(s: State, r: State, c: nat)
    requires CallsGoOn(s, r) && c in r.calls
    ensures c in s.calls && SameCall(s.calls[c], r.calls[c])
  {
  }

  lemma CaptureLooks(idleMs: nat, s: State, ev: Event, c: nat)
    requires ev.CaptureGeneration? && !s.closed && ev.call !in s.calls
    requires c in Capture(s, ev.call, ev.scope, ev.now - idleMs, ev.now).calls
    ensures var k := Capture(s, ev.call, ev.scope, ev.now - idleMs, ev.now).calls[c];
      || (c in s.calls && SameCall(s.calls[c], k))
      || (ev.call == c && k.scope == ev.scope && !k.phase.Opening? && (k.expected.None? ==> Unbound(idleMs, s, k.scope, ev.now)))
  {
    SweepGoesOn(s, ev.now - idleMs, ev.now);
    hide Sweep, SameCall;
  }

  lemma AcquireLooks(idleMs: nat, s: State, ev: Event, c: nat)
    requires ev.Acquire? && !s.closed && ev.call in s.calls && s.calls[ev.call].phase.Captured?
    requires c in StartAcquire(s, ev.call, ev.now - idleMs, ev.now).calls
    ensures var k := StartAcquire(s, ev.call, ev.now - idleMs, ev.now).calls[c];
      || (c in s.calls && SameCall(s.calls[c], k))
      || (ev.call == c && k.scope == s.calls[c].scope && !k.phase.Captured?
          && (k.expected.None? ==> s.calls[c].expected.None? && Unbound(idleMs, s, k.scope, ev.now)))
  {
    hide Sweep, Join, CallsGoOn, SameCall, BindingOf;
    var t := Sweep(s, ev.now - idleMs, ev.now);
    SweepGoesOn(s, ev.now - idleMs, ev.now);
    if c == ev.call {
      GoesOn(s, t, c);
      SameExpectation(s.calls[c], t.calls[c]);
      JoinLooks(t, c, ev.now);
    } else {
      JoinKeepsOthers(t, ev.call, ev.now, c);
      GoesOn(s, t, c);
    }
  }

  lemma SameExpectation(a: Call, b: Call)
    requires SameCall(a, b)
    ensures b.scope == a.scope && b.expected == a.expected
  {
  }

  lemma JoinKeepsOthers(t: State, call: nat, now: int, c: nat)
    requires call in t.calls && c != call
    ensures c in Join(t, call, now).calls ==> c in t.calls && Join(t, call, now).calls[c] == t.calls[c]
  {
  }

  lemma JoinLooks(t: State, call: nat, now: int)
    requires call in t.calls
    ensures call in Join(t, call, now).calls
    ensures var k := Join(t, call, now).calls[call];
      && k.scope == t.calls[call].scope && k.phase.Opening?
      && (k.expected.None? ==> t.calls[call].expected.None? && BindingOf(t, k.scope).None?)
  {
  }

  /** A call that expects nothing found its scope unbound whenever it looked. */
  lemma {:induction false} ExpectsNothing(idleMs: nat, events: seq<Event>, c: nat)
    ensures var s := Run(idleMs, events);
      c in s.calls && s.calls[c].expected.None? && (s.calls[c].phase.Captured? || s.calls[c].phase.Opening?) ==>
        && SawNothing(idleMs, events, c, s.calls[c].scope)
        && (s.calls[c].phase.Opening? ==> FoundNothing(idleMs, events, c, s.calls[c].scope))
    decreases |events|
  {
    if events != [] {
      var n := |events| - 1;
      var before, ev := events[..n], events[n];
      assert events == before + [ev];
      var s, r := Run(idleMs, before), Run(idleMs, events);
      assert r == Step(idleMs, s, ev);
      ExpectsNothing(idleMs, before, c);
      if c in r.calls && r.calls[c].expected.None? {
        var scope := r.calls[c].scope;
        LongerRun(idleMs, before, ev, c, scope);
        ExpectationStep(idleMs, s, ev, c);
        hide Run, Step, Unbound, Inv;
        if ev.CaptureGeneration? && Unbound(idleMs, s, scope, ev.now) && ev.call == c && ev.scope == scope {
          assert CapturedUnbound(idleMs, events, c, scope, n);
        }
        if ev.Acquire? && Unbound(idleMs, s, scope, ev.now) && ev.call == c {
          assert AcquiredUnbound(idleMs, events, c, scope, n);
        }
      }
    }
  }

  /** A granted lease is on the generation the caller expected, or the scope had neither a session
      nor a notice when the caller captured its generation and when it acquired; either way no loss
      of an earlier session is left unreported. */
  lemma GrantIsExpected(idleMs: nat, events: seq<Event>, ev: Event, c: nat)
    ensures var s := Run(idleMs, events);
            Granted(s, Step(idleMs, s, ev), c) ==>
              var g := s.calls[c].generation;
              && Unretired(s, g) && s.entries[g].previous.None?
              && (s.calls[c].expected == Some(g)
                  || (SawNothing(idleMs, events, c, s.calls[c].scope) && FoundNothing(idleMs, events, c, s.calls[c].scope)))
  {
    ExpectsNothing(idleMs, events, c);
    hide SawNothing, FoundNothing, Run, Step, Known, Bound, Exclusive, UnscopedUsed, Cautious, Pending, Counted, CellsMatch, TrackedLive;
    var s := Run(idleMs, events);
    if Granted(s, Step(idleMs, s, ev), c) {
      GrantOnlyByResume(idleMs, s, ev, c);
      NothingUnreported(s, c);
    }
  }

  lemma NothingUnreported(s: State, c: nat)
    requires Known(s) && Cautious(s) && c in s.calls && s.calls[c].phase.Opening?
    requires Unretired(s, s.calls[c].generation) && !Replaced(s, c)
    ensures s.entries[s.calls[c].generation].previous.None?
  {
    assert Waiting(s, c);
  }

  // ---- a lost session is reported before the next lease ----

  /** The scope still has to report the loss of an announced session. */
  predicate Owed(s: State, sc: nat) {
    sc in s.shared &&
    match s.shared[sc]
    case Notice(_, _) => true
    case Live(g) => g in s.entries && s.entries[g].previous.Some?
  }

  /** An announced session of the scope ends by failure or to free memory. */
  predicate Loses(s: State, r: State, sc: nat, g: nat) {
    && Unretired(s, g) && s.entries[g].scope == Some(sc) && s.entries[g].announced
    && g in r.entries && (r.entries[g].retired == Some(Failure) || r.entries[g].retired == Some(Memory))
  }

  /** An acquire of the scope is answered with the replaced notice. */
  predicate Reports(s: State, ev: Event, sc: nat) {
    && ev.Resume? && ev.result == OpenUsable
    && ev.call in s.calls && s.calls[ev.call].phase.Opening? && s.calls[ev.call].scope == Some(sc)
    && Unretired(s, s.calls[ev.call].generation) && Replaced(s, ev.call)
  }

  /** A sweep meets a notice that is older than the idle retention. */
  predicate AgesOut(idleMs: nat, s: State, ev: Event, sc: nat) {
    && sc in s.shared
    && match ev
       case CaptureGeneration(_, _, now) => Expired(s.shared[sc], now - idleMs)
       case Acquire(_, now) => Expired(s.shared[sc], now - idleMs)
       case SweepIdle(now) => Expired(s.shared[sc], now - idleMs)
       case _ => false
  }

  predicate Explains(idleMs: nat, s: State, ev: Event, sc: nat) {
    Reports(s, ev, sc) || AgesOut(idleMs, s, ev, sc) || ev.CloseService?
  }

  predicate Reporting(reason: Reason) {
    reason == Failure || reason == Memory
  }

  lemma RetireOwed(s: State, gens: set<nat>, reason: Reason, now: int, sc: nat)
    requires Owed(s, sc)
    requires Reporting(reason) || (s.shared[sc].Live? ==> s.shared[sc].generation !in gens)
    ensures Owed(Retire(s, gens, reason, now), sc)
  {
    hide OfGeneration, ReleaseEntry, TrackedIn;
  }

  /** Retiring an announced session by failure or for memory leaves its scope owing the report. */
  lemma RetireLoses(s: State, gens: set<nat>, reason: Reason, now: int, sc: nat, g: nat)
    requires Bound(s) && Exclusive(s) && Reporting(reason) && g in gens
    requires Unretired(s, g) && s.entries[g].scope == Some(sc) && s.entries[g].announced
    ensures Owed(Retire(s, gens, reason, now), sc)
  {
    hide OfGeneration, ReleaseEntry, TrackedIn;
    assert s.shared[sc] == Live(g);
  }

  lemma ReleaseOwed(s: State, cs: set<nat>, now: int, sc: nat)
    requires Owed(s, sc)
    ensures Owed(ReleaseCalls(s, cs, now), sc)
  {
    hide OfGeneration, ReleaseEntry;
  }

  lemma SweepOwed(s: State, deadline: int, now: int, sc: nat)
    requires Running(s) && Owed(s, sc) && !Expired(s.shared[sc], deadline)
    ensures Owed(Sweep(s, deadline, now), sc)
  {
    hide Known, Exclusive, UnscopedUsed, Cautious, CellsMatch, TrackedLive, Retire;
    var b := s.shared[sc];
    if b.Live? {
      var g := b.generation;
      assert Unretired(s, g);
      var c :| OpeningOn(s, c, g);
      HolderCounts(s, c) by { OpeningKnown(s, c, g); }
    }
    RetireOwed(s, IdleEntries(s, deadline), Idle, now, sc);
    SweepBinding(s, deadline, now, sc);
  }

  lemma OpeningKnown(s: State, c: nat, g: nat)
    requires OpeningOn(s, c, g) && g in s.entries
    ensures c in s.calls && s.calls[c].Holding() && s.calls[c].generation in s.entries
  {
  }

  /** An idle retirement leaves no new notice. */
  lemma SweepBinding(s: State, deadline: int, now: int, sc: nat)
    requires sc in s.shared && !Expired(s.shared[sc], deadline)
    ensures var t := Retire(s, IdleEntries(s, deadline), Idle, now);
            sc in t.shared ==> t.shared[sc] == s.shared[sc]
  {
    hide OfGeneration, ReleaseEntry, TrackedIn;
  }

  lemma ResumeOwed(s: State, call: nat, result: OpenResult, now: int, sc: nat)
    requires Running(s) && Owed(s, sc) && call in s.calls && s.calls[call].phase.Opening? && s.calls[call].generation in s.entries
    requires !(result == OpenUsable && Unretired(s, s.calls[call].generation) && Replaced(s, call) && s.calls[call].scope == Some(sc))
    ensures Owed(FinishAcquire(s, call, result, now), sc)
  {
    hide CellsMatch, UnscopedUsed, Counted, Pending, TrackedLive, ReleaseCalls, Retire;
    var g := s.calls[call].generation;
    var e := s.entries[g].(ready := s.entries[g].ready || !result.OpenFailed?);
    var t := s.(entries := s.entries[g := e]);
    assert Owed(t, sc);
    if result != OpenUsable || e.retired.Some? {
      ReleaseOwed(t, {call}, now, sc);
      RetireOwed(ReleaseCalls(t, {call}, now), {g}, Failure, now, sc);
    } else {
      ResumeElsewhere(s, call, sc);
      var u := t.(entries := t.entries[g := e.(previous := None)]);
      assert Owed(u, sc);
      ReleaseOwed(u, {call}, now, sc);
    }
  }

  /** A session whose opening is answered is not the one that still owes a report, unless the
      answer is that report. */
  lemma ResumeElsewhere(s: State, call: nat, sc: nat)
    requires Known(s) && Bound(s) && Exclusive(s) && Cautious(s) && Owed(s, sc)
    requires call in s.calls && s.calls[call].phase.Opening? && Unretired(s, s.calls[call].generation)
    requires Replaced(s, call) ==> s.calls[call].scope != Some(sc)
    ensures s.shared[sc] != Live(s.calls[call].generation)
  {
    assert Waiting(s, call);
  }

  lemma AcquireOwed(s: State, call: nat, deadline: int, now: int, sc: nat)
    requires Running(s) && Owed(s, sc) && !Expired(s.shared[sc], deadline) && call in s.calls && s.calls[call].phase.Captured?
    ensures Owed(StartAcquire(s, call, deadline, now), sc)
  {
    hide Sweep, Counted, CellsMatch, UnscopedUsed, Cautious, Pending, TrackedLive;
    SweepOwed(s, deadline, now, sc);
    SweepRunning(s, deadline, now);
    var t := Sweep(s, deadline, now);
    ShareKnown(t, t.calls[call].scope);
  }

  /** A debt stays until it is explained. */
  lemma OwedStays(idleMs: nat, s: State, ev: Event, sc: nat)
    requires Running(s) && Owed(s, sc) && !Explains(idleMs, s, ev, sc)
    ensures Owed(Step(idleMs, s, ev), sc)
  {
    hide Base, TrackedLive, Pending, StartAcquire, FinishAcquire, Retire, ReleaseCalls, Sweep, Oldest, TrackedIn;
    match ev
    case CaptureGeneration(call, scope, now) => SweepOwed(s, now - idleMs, now, sc);
    case Acquire(call, now) =>
      if call in s.calls && s.calls[call].phase.Captured? {
        AcquireOwed(s, call, now - idleMs, now, sc);
      }
    case Resume(call, result, now) =>
      if call in s.calls && s.calls[call].phase.Opening? && s.calls[call].generation in s.entries {
        ResumeOwed(s, call, result, now, sc);
      }
    case ExecEnds(call, outcome, now) => ReleaseOwed(s, {call}, now, sc);
    case WaitEnds(cell, outcome, now) =>
      if cell in s.cells {
        ReleaseOwed(s, {s.cells[cell]}, now, sc);
      }
    case TerminateEnds(call, confirmed, now) =>
      if call in s.calls {
        FailOwed(s, s.calls[call].generation, now, sc);
        ReleaseOwed(if confirmed then s else FailSession(s, s.calls[call].generation, now), {call}, now, sc);
      }
    case SessionFails(g, now) => FailOwed(s, g, now, sc);
    case HostStops(memory, now) =>
      ReleaseOwed(s, TrackedIn(s, s.entries.Keys), now, sc);
      var t := ReleaseCalls(s, TrackedIn(s, s.entries.Keys), now);
      RetireOwed(t, t.entries.Keys, if memory then Memory else Failure, now, sc);
    case SweepIdle(now) => SweepOwed(s, now - idleMs, now, sc);
    case ReclaimOldest(idleOnly, through, now) =>
      if Oldest(s, idleOnly, through).Some? {
        RetireOwed(s, {Oldest(s, idleOnly, through).value}, Memory, now, sc);
      }
    case _ =>
  }

  lemma FailOwed(s: State, g: nat, now: int, sc: nat)
    requires Owed(s, sc)
    ensures Owed(FailSession(s, g, now), sc)
  {
    hide Retire, ReleaseCalls, TrackedIn;
    ReleaseOwed(s, TrackedIn(s, {g}), now, sc);
    RetireOwed(ReleaseCalls(s, TrackedIn(s, {g}), now), {g}, Failure, now, sc);
  }

  /** A scoped session is retired by `#retire` alone, with its reason. */
  lemma RetireReason(s: State, gens: set<nat>, reason: Reason, now: int, g: nat)
    requires g in s.entries && s.entries[g].scope.Some?
    ensures var r := Retire(s, gens, reason, now);
            && r.entries[g].retired == (if g in gens && Unretired(s, g) then Some(reason) else s.entries[g].retired)
            && r.entries[g].scope == s.entries[g].scope && r.entries[g].announced == s.entries[g].announced
  {
    hide Rebound, Unbinds, OfGeneration, TrackedIn;
  }

  lemma ReleaseReason(s: State, cs: set<nat>, now: int, g: nat)
    requires g in s.entries && s.entries[g].scope.Some?
    ensures var r := ReleaseCalls(s, cs, now);
            r.entries[g].retired == s.entries[g].retired && r.entries[g].scope == s.entries[g].scope && r.entries[g].announced == s.entries[g].announced
  {
    hide OfGeneration;
  }

  /** Releasing leases first and retiring afterwards still leaves the report owed. */
  lemma ReleaseThenRetireLoses(s: State, cs: set<nat>, gens: set<nat>, reason: Reason, now: int, sc: nat, g: nat)
    requires Bound(s) && Exclusive(s) && Reporting(reason)
    ensures Loses(s, Retire(ReleaseCalls(s, cs, now), gens, reason, now), sc, g) ==>
      Owed(Retire(ReleaseCalls(s, cs, now), gens, reason, now), sc)
  {
    hide Retire, ReleaseCalls;
    if Loses(s, Retire(ReleaseCalls(s, cs, now), gens, reason, now), sc, g) {
      var t := ReleaseCalls(s, cs, now);
      ReleaseReason(s, cs, now, g);
      RetireReason(t, gens, reason, now, g);
      ReleaseBound(s, cs, now);
      RetireLoses(t, gens, reason, now, sc, g);
    }
  }

  lemma RetireAloneLoses(s: State, gens: set<nat>, reason: Reason, now: int, sc: nat, g: nat)
    requires Bound(s) && Exclusive(s) && Reporting(reason) && Loses(s, Retire(s, gens, reason, now), sc, g)
    ensures Owed(Retire(s, gens, reason, now), sc)
  {
    hide Retire;
    RetireReason(s, gens, reason, now, g);
    RetireLoses(s, gens, reason, now, sc, g);
  }

  lemma SweepLosesNothing(s: State, deadline: int, now: int, sc: nat, g: nat)
    ensures !Loses(s, Sweep(s, deadline, now), sc, g)
  {
    hide Retire, IdleEntries;
    if g in s.entries && s.entries[g].scope.Some? {
      RetireReason(s, IdleEntries(s, deadline), Idle, now, g);
    }
  }

  lemma ResumeLoses(s: State, call: nat, result: OpenResult, now: int, sc: nat, g: nat)
    requires Running(s) && call in s.calls && s.calls[call].phase.Opening? && s.calls[call].generation in s.entries
    ensures Loses(s, FinishAcquire(s, call, result, now), sc, g) ==>
      Owed(FinishAcquire(s, call, result, now), sc)
  {
    hide Known, CellsMatch, UnscopedUsed, Counted, Cautious, Pending, TrackedLive, ReleaseCalls, Retire;
    if Loses(s, FinishAcquire(s, call, result, now), sc, g) {
      var h := s.calls[call].generation;
      var e := s.entries[h].(ready := s.entries[h].ready || !result.OpenFailed?);
      var t := s.(entries := s.entries[h := e]);
      var u := t.(entries := t.entries[h := e.(previous := None)]);
      assert Bound(t) && Exclusive(t) by {
        assert forall x :: Unretired(t, x) <==> Unretired(s, x);
      }
      if result != OpenUsable || e.retired.Some? {
        ReleaseThenRetireLoses(t, {call}, {h}, Failure, now, sc, g);
      } else {
        ReleaseReason(u, {call}, now, g);
      }
    }
  }

  lemma TerminateLoses(s: State, call: nat, confirmed: bool, now: int, sc: nat, g: nat)
    requires Running(s) && call in s.calls
    ensures Loses(s, FinishTerminate(s, call, confirmed, now), sc, g) ==>
      Owed(FinishTerminate(s, call, confirmed, now), sc)
  {
    hide Base, TrackedLive, Pending, ReleaseCalls, Retire, TrackedIn;
    if Loses(s, FinishTerminate(s, call, confirmed, now), sc, g) {
      var h := s.calls[call].generation;
      if confirmed {
        ReleaseReason(s, {call}, now, g);
      } else {
        var f := FailSession(s, h, now);
        ReleaseReason(s, TrackedIn(s, {h}), now, g);
        RetireReason(ReleaseCalls(s, TrackedIn(s, {h}), now), {h}, Failure, now, g);
        ReleaseReason(f, {call}, now, g);
        FailLoses(s, h, now, sc, g);
        ReleaseOwed(f, {call}, now, sc);
      }
    }
  }

  lemma FailLoses(s: State, h: nat, now: int, sc: nat, g: nat)
    requires Running(s)
    ensures Loses(s, FailSession(s, h, now), sc, g) ==>
      Owed(FailSession(s, h, now), sc)
  {
    hide Known, CellsMatch, UnscopedUsed, Counted, Cautious, Pending, TrackedLive, ReleaseCalls, Retire, TrackedIn;
    if Loses(s, FailSession(s, h, now), sc, g) {
      ReleaseThenRetireLoses(s, TrackedIn(s, {h}), {h}, Failure, now, sc, g);
    }
  }

  /** Every loss of an announced session is owed to its scope. */
  lemma LossIsOwed(idleMs: nat, s: State, ev: Event, sc: nat, g: nat)
    requires Running(s) && !ev.CloseService? && Loses(s, Step(idleMs, s, ev), sc, g)
    ensures Owed(Step(idleMs, s, ev), sc)
  {
    hide Known, CellsMatch, UnscopedUsed, Counted, Cautious, Pending, TrackedLive,
         FinishAcquire, FinishTerminate, FailSession, Retire, ReleaseCalls, Sweep, Oldest, TrackedIn, Owed;
    match ev
    case CaptureGeneration(call, scope, now) => SweepLosesNothing(s, now - idleMs, now, sc, g);
    case Acquire(call, now) => SweepLosesNothing(s, now - idleMs, now, sc, g);
    case SweepIdle(now) => SweepLosesNothing(s, now - idleMs, now, sc, g);
    case Resume(call, result, now) =>
      if call in s.calls && s.calls[call].phase.Opening? && s.calls[call].generation in s.entries {
        ResumeLoses(s, call, result, now, sc, g);
      }
    case ExecEnds(call, outcome, now) => ReleaseReason(s, {call}, now, g);
    case WaitEnds(cell, outcome, now) =>
      if cell in s.cells {
        ReleaseReason(s, {s.cells[cell]}, now, g);
      }
    case TerminateEnds(call, confirmed, now) =>
      if call in s.calls && s.calls[call].phase.Terminating? {
        TerminateLoses(s, call, confirmed, now, sc, g);
      }
    case SessionFails(h, now) =>
      if h in s.entries && s.entries[h].ready {
        FailLoses(s, h, now, sc, g);
      }
    case HostStops(memory, now) =>
      ReleaseThenRetireLoses(s, TrackedIn(s, s.entries.Keys), s.entries.Keys, if memory then Memory else Failure, now, sc, g);
    case ReclaimOldest(idleOnly, through, now) =>
      if Oldest(s, idleOnly, through).Some? {
        RetireAloneLoses(s, {Oldest(s, idleOnly, through).value}, Memory, now, sc, g);
      }
    case _ =>
  }

  lemma OwedBlocksGrants(idleMs: nat, s: State, ev: Event, sc: nat, c: nat)
    requires Running(s) && Owed(s, sc)
    ensures Granted(s, Step(idleMs, s, ev), c) ==>
      s.calls[c].scope != Some(sc)
  {
    hide Step, Counted, CellsMatch, UnscopedUsed, Pending, TrackedLive;
    if Granted(s, Step(idleMs, s, ev), c) {
      GrantOnlyByResume(idleMs, s, ev, c);
      NothingUnreported(s, c);
      var g := s.calls[c].generation;
      assert Unretired(s, g) && s.entries[g].scope == s.calls[c].scope;
    }
  }

  /** Once an announced session of a scope was lost, no lease of that scope is granted before
      some acquire was answered with the replaced notice, however many openings fail in between,
      unless the notice aged out or the service closed. */
  lemma LossReportedBeforeNextLease(idleMs: nat, events: seq<Event>, i: nat, j: nat, sc: nat, g: nat, c: nat)
    requires i < j < |events|
    ensures
      && Loses(Run(idleMs, events[..i]), Run(idleMs, events[..i + 1]), sc, g)
      && Granted(Run(idleMs, events[..j]), Run(idleMs, events[..j + 1]), c)
      && Run(idleMs, events[..j]).calls[c].scope == Some(sc)
      ==> exists k :: i < k < j && Explains(idleMs, Run(idleMs, events[..k]), events[k], sc)
  {
    hide Run, Step, Loses, Explains, Owed, Inv;
    if Loses(Run(idleMs, events[..i]), Run(idleMs, events[..i + 1]), sc, g)
       && Granted(Run(idleMs, events[..j]), Run(idleMs, events[..j + 1]), c)
       && Run(idleMs, events[..j]).calls[c].scope == Some(sc)
    {
      if !exists k :: i < k < j && Explains(idleMs, Run(idleMs, events[..k]), events[k], sc) {
        RunSplit(idleMs, events, i);
        RunSplit(idleMs, events, j);
        if events[i].CloseService? {
          StaysClosed(idleMs, events, i, j);
          GrantOnlyByResume(idleMs, Run(idleMs, events[..j]), events[j], c);
          assert false;
        }
        LossNeedsRunning(idleMs, Run(idleMs, events[..i]), events[i], sc, g);
        LossOpens(idleMs, events, i, sc, g);
        DebtLasts(idleMs, events, i + 1, j, sc);
        OwedBlocksGrants(idleMs, Run(idleMs, events[..j]), events[j], sc, c);
      }
    }
  }

  lemma RunSplit(idleMs: nat, events: seq<Event>, i: nat)
    requires i < |events|
    ensures Run(idleMs, events[..i + 1]) == Step(idleMs, Run(idleMs, events[..i]), events[i])
  {
    assert events[..i + 1][..i] == events[..i];
  }

  lemma LossNeedsRunning(idleMs: nat, s: State, ev: Event, sc: nat, g: nat)
    ensures Loses(s, Step(idleMs, s, ev), sc, g) ==>
      !s.closed
  {
  }

  lemma LossOpens(idleMs: nat, events: seq<Event>, i: nat, sc: nat, g: nat)
    requires i < |events| && !events[i].CloseService?
    ensures Loses(Run(idleMs, events[..i]), Run(idleMs, events[..i + 1]), sc, g) && !Run(idleMs, events[..i]).closed ==>
      Running(Run(idleMs, events[..i + 1])) && Owed(Run(idleMs, events[..i + 1]), sc)
  {
    hide Run, Owed, Base, TrackedLive, Pending;
    if Loses(Run(idleMs, events[..i]), Run(idleMs, events[..i + 1]), sc, g) && !Run(idleMs, events[..i]).closed {
      var s := Run(idleMs, events[..i]);
      RunSplit(idleMs, events, i);
      StillRunning(idleMs, s, events[i]);
      LossIsOwed(idleMs, s, events[i], sc, g);
    }
  }

  lemma {:induction false} StaysClosed(idleMs: nat, events: seq<Event>, i: nat, j: nat)
    requires i < j <= |events| && events[i].CloseService?
    ensures Run(idleMs, events[..j]).closed
  {
    hide Run, Inv;
    RunSplit(idleMs, events, j - 1);
    if i < j - 1 {
      StaysClosed(idleMs, events, i, j - 1);
    }
  }

  lemma StillRunning(idleMs: nat, s: State, ev: Event)
    requires Inv(s) && !s.closed && !ev.CloseService?
    ensures Running(Step(idleMs, s, ev))
  {
    hide Base, TrackedLive, Pending, Step;
    StepRunning(idleMs, s, ev);
  }

  lemma {:induction false} DebtLasts(idleMs: nat, events: seq<Event>, i: nat, j: nat, sc: nat)
    requires i <= j <= |events| && Running(Run(idleMs, events[..i])) && Owed(Run(idleMs, events[..i]), sc)
    requires forall k :: i <= k < j ==> !Explains(idleMs, Run(idleMs, events[..k]), events[k], sc)
    ensures Running(Run(idleMs, events[..j])) && Owed(Run(idleMs, events[..j]), sc)
    decreases j - i
  {
    hide Run, Step, Owed, Running, Inv;
    if i < j {
      var s := Run(idleMs, events[..i]);
      assert !Explains(idleMs, s, events[i], sc);
      RunSplit(idleMs, events, i);
      assert Running(Step(idleMs, s, events[i])) by {
        StepRunning(idleMs, s, events[i]);
      }
      OwedStays(idleMs, s, events[i], sc);
      DebtLasts(idleMs, events, i + 1, j, sc);
    }
  }
}
