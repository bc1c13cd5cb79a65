/** How the lease of a call goes on: from the capture of a generation to its release. */
module LeaseLaws {
  import opened LeaseStates
  import opened LeaseInvariants
  import opened LeaseTheorems
  import opened LeaseClocks

  /** The session of the call ends with the event, and its cells with it. */
  ghost predicate SessionEnds(idleMs: nat, s: State, ev: Event, c: nat)
    requires c in s.calls
  {
    Unretired(s, s.calls[c].generation) && Ends(idleMs, s, ev, s.calls[c].generation).Some?
  }

  /** The phase of a call after an event. */
  ghost function Next(idleMs: nat, s: State, ev: Event, c: nat): Phase
    requires c in s.calls
  {
    var k := s.calls[c];
    match k.phase
    case Captured => if ev.Acquire? && ev.call == c then Opening else Captured
    case Opening =>
      if !(ev.Resume? && ev.call == c) then Opening
      else if ev.result == OpenUsable && Unretired(s, k.generation) && (k.expected == None || k.expected == Some(k.generation))
      then Executing else Done
    case Executing =>
      if !(ev.ExecEnds? && ev.call == c) then Executing
      else if ev.outcome.Yielded? && Unretired(s, k.generation) && ev.outcome.cell !in s.cells
      then (if ev.outcome.deliverable then Tracked(ev.outcome.cell) else Terminating)
      else Done
    case Tracked(h) =>
      if SessionEnds(idleMs, s, ev, c) || (ev.WaitEnds? && ev.cell == h && ev.outcome.Finished?) then Done
      else if (ev.WaitEnds? && ev.cell == h && ev.outcome.Yielded? && !ev.outcome.deliverable) || (ev.StopCells? && h in ev.cells)
      then Terminating
      else Tracked(h)
    case Terminating => if ev.TerminateEnds? && ev.call == c then Done else Terminating
    case Done => Done
  }

  /** In `r` the call is in phase `p`. */
  predicate Goes(r: State, c: nat, p: Phase) {
    c in r.calls && r.calls[c].phase == p
  }

  /** A call whose cell is tracked is done once `ended`. */
  function Over(p: Phase, ended: bool): Phase {
    if p.Tracked? && ended then Done else p
  }

  /** What the lemmas below need of a running state, for one call. */
  predicate Fits(s: State, c: nat) {
    && !s.closed && c in s.calls
    && (s.calls[c].Holding() ==> s.calls[c].generation in s.entries)
    && (s.calls[c].phase.Tracked? ==>
          && Unretired(s, s.calls[c].generation)
          && s.calls[c].phase.cell in s.cells && s.cells[s.calls[c].phase.cell] == c)
  }

  lemma RunningFits(s: State, c: nat)
    requires Running(s) && c in s.calls
    ensures Fits(s, c)
  {
    hide Bound, Exclusive, Counted, UnscopedUsed, Cautious, Pending;
  }

  lemma CellOwner(s: State, h: nat)
    requires Running(s)
    ensures h in s.cells ==> s.cells[h] in s.calls && s.calls[s.cells[h]].phase == Tracked(h)
  {
    hide Known, Bound, Exclusive, Counted, UnscopedUsed, Cautious, Pending, TrackedLive;
  }

  lemma ReleasePhase(s: State, cs: set<nat>, now: int, c: nat)
    requires c in s.calls
    ensures Goes(ReleaseCalls(s, cs, now), c, if c in cs then Done else s.calls[c].phase)
    ensures ReleaseCalls(s, cs, now).calls[c].generation == s.calls[c].generation
  {
    hide ReleaseEntry, OfGeneration;
  }

  lemma RetirePhase(s: State, gens: set<nat>, reason: Reason, now: int, c: nat)
    requires c in s.calls
    ensures Goes(Retire(s, gens, reason, now), c,
      Over(s.calls[c].phase, s.calls[c].generation in gens && Unretired(s, s.calls[c].generation)))
  {
    var victims := Victims(s, gens);
    var marked := Mark(s, victims, reason, now);
    ReleasePhase(marked, TrackedIn(marked, victims), now, c);
    hide ReleaseCalls, Rebound, Unbinds;
  }

  lemma SweepPhase(idleMs: nat, s: State, now: int, c: nat)
    requires c in s.calls
    ensures Goes(Sweep(s, now - idleMs, now), c,
      Over(s.calls[c].phase, Unretired(s, s.calls[c].generation) && IdleTooLong(idleMs, s, s.calls[c].generation, now)))
  {
    RetirePhase(s, IdleEntries(s, now - idleMs), Idle, now, c);
    hide Retire;
  }

  // ---- looking at the pool ----

  lemma NextSwept(idleMs: nat, s: State, ev: Event, c: nat)
    requires c in s.calls && Sweeps(s, ev)
    ensures Next(idleMs, s, ev, c) ==
      if ev.Acquire? && ev.call == c then Opening
      else Over(s.calls[c].phase, Unretired(s, s.calls[c].generation) && IdleTooLong(idleMs, s, s.calls[c].generation, ev.now))
  {
    hide IdleTooLong;
  }

  lemma NextSame(idleMs: nat, s: State, ev: Event, c: nat)
    requires c in s.calls && (ev.CaptureGeneration? || ev.Acquire?) && !Sweeps(s, ev)
    ensures Next(idleMs, s, ev, c) == s.calls[c].phase
  {
  }

  lemma LooksIs(idleMs: nat, s: State, ev: Event, c: nat)
    requires !s.closed && c in s.calls && (ev.CaptureGeneration? || ev.SweepIdle?)
    ensures var t := Sweep(s, ev.now - idleMs, ev.now); var r := Step(idleMs, s, ev);
      if Sweeps(s, ev) then c in t.calls && c in r.calls && r.calls[c] == t.calls[c] else r == s
  {
    hide Sweep, SeenGeneration;
  }

  lemma LooksPhase(idleMs: nat, s: State, ev: Event, c: nat)
    requires !s.closed && c in s.calls && (ev.CaptureGeneration? || ev.SweepIdle?)
    ensures Goes(Step(idleMs, s, ev), c, Next(idleMs, s, ev, c))
  {
    hide *;
    LooksIs(idleMs, s, ev, c);
    if Sweeps(s, ev) {
      NextSwept(idleMs, s, ev, c);
      SweepPhase(idleMs, s, ev.now, c);
      GoesSame(Sweep(s, ev.now - idleMs, ev.now), Step(idleMs, s, ev), c, Next(idleMs, s, ev, c));
    } else {
      SweepSweeps(s, ev);
      NextSame(idleMs, s, ev, c);
      GoesFrom(s, c);
    }
  }

  lemma GoesFrom(s: State, c: nat)
    requires c in s.calls
    ensures Goes(s, c, s.calls[c].phase)
  {
  }

  lemma GoesSame(t: State, r: State, c: nat, p: Phase)
    requires Goes(t, c, p) && c in t.calls && c in r.calls && r.calls[c] == t.calls[c]
    ensures Goes(r, c, p)
  {
  }

  lemma SweepSweeps(s: State, ev: Event)
    ensures ev.SweepIdle? ==> Sweeps(s, ev)
  {
  }

  lemma JoinPhase(t: State, call: nat, now: int, c: nat)
    requires call in t.calls && c in t.calls
    ensures Goes(Join(t, call, now), c, if c == call then Opening else t.calls[c].phase)
  {
    hide SeenGeneration;
  }

  lemma AcquireIs(idleMs: nat, s: State, ev: Event)
    requires !s.closed && ev.Acquire?
    ensures Sweeps(s, ev) ==> ev.call in s.calls && ev.call in Sweep(s, ev.now - idleMs, ev.now).calls
    ensures Sweeps(s, ev) ==> Step(idleMs, s, ev) == Join(Sweep(s, ev.now - idleMs, ev.now), ev.call, ev.now)
    ensures !Sweeps(s, ev) ==> Step(idleMs, s, ev) == s
  {
    hide Sweep, Join;
  }

  /** A swept call goes on as before the acquire of another one. */
  lemma SweptFrom(s: State, deadline: int, now: int, call: nat, c: nat, p: Phase)
    requires Goes(Sweep(s, deadline, now), c, p) && call in Sweep(s, deadline, now).calls
    ensures Goes(Join(Sweep(s, deadline, now), call, now), c, if c == call then Opening else p)
  {
    hide Join, Sweep;
    JoinPhase(Sweep(s, deadline, now), call, now, c);
  }

  lemma AcquirePhase(idleMs: nat, s: State, ev: Event, c: nat)
    requires !s.closed && c in s.calls && ev.Acquire?
    ensures Goes(Step(idleMs, s, ev), c, Next(idleMs, s, ev, c))
  {
    hide *;
    AcquireIs(idleMs, s, ev);
    if Sweeps(s, ev) {
      var p := Over(s.calls[c].phase, Unretired(s, s.calls[c].generation) && IdleTooLong(idleMs, s, s.calls[c].generation, ev.now));
      NextSwept(idleMs, s, ev, c);
      SweepPhase(idleMs, s, ev.now, c);
      SweptFrom(s, ev.now - idleMs, ev.now, ev.call, c, p);
    } else {
      NextSame(idleMs, s, ev, c);
      GoesFrom(s, c);
    }
  }

  // ---- opening ----

  /** While a cell holds a lease too, giving one back does not retire its session. */
  lemma StillLive(s: State, o: nat, ready: bool, now: int, c: nat)
    requires Running(s) && c in s.calls && s.calls[c].phase.Tracked? && c != o && o in s.calls && s.calls[o].Holding()
    requires s.calls[o].generation in s.entries
    ensures var h := s.calls[o].generation;
      Unretired(ReleaseCalls(s.(entries := s.entries[h := s.entries[h].(ready := ready)]), {o}, now), s.calls[c].generation)
  {
    hide *;
    var h := s.calls[o].generation;
    var t := s.(entries := s.entries[h := s.entries[h].(ready := ready)]);
    ReadyFits(s, h, t);
    StaysHeld(s, t, o);
    LeaveLive(t, o, now);
    LiveTracked(t, o, now, c);
  }

  lemma StaysHeld(s: State, t: State, o: nat)
    requires o in s.calls && s.calls[o].Holding() && t.calls == s.calls
    ensures o in t.calls && t.calls[o].Holding()
  {
  }

  lemma ReadyFits(s: State, h: nat, t: State)
    requires Running(s) && h in s.entries && h in t.entries && t == s.(entries := s.entries[h := s.entries[h].(ready := t.entries[h].ready)])
    ensures Known(t) && Counted(t) && TrackedLive(t)
  {
    hide Bound, Exclusive, CellsMatch, UnscopedUsed, Cautious, Pending;
    forall g ensures Holders(t, g) == Holders(s, g) {
    }
    hide Holders;
  }

  lemma LiveTracked(t: State, o: nat, now: int, c: nat)
    requires TrackedLive(ReleaseCalls(t, {o}, now)) && c in t.calls && t.calls[c].phase.Tracked? && c != o
    ensures Unretired(ReleaseCalls(t, {o}, now), t.calls[c].generation)
  {
    ReleasePhase(t, {o}, now, c);
    hide ReleaseCalls, Unretired;
  }

  /** The phase after an opening in which call `o` takes part ended with `result`. */
  function Opened(s: State, result: OpenResult, o: nat, c: nat): Phase
    requires c in s.calls && o in s.calls && s.calls[o].generation in s.entries
  {
    var fails := result != OpenUsable || s.entries[s.calls[o].generation].retired.Some?;
    if c == o then (if fails || Replaced(s, o) then Done else Executing)
    else Over(s.calls[c].phase, fails && s.calls[c].generation == s.calls[o].generation)
  }

  lemma NextResumed(idleMs: nat, s: State, ev: Event, c: nat)
    requires Fits(s, c) && ev.Resume? && (ev.call in s.calls && s.calls[ev.call].phase.Opening? ==> Fits(s, ev.call))
    ensures Next(idleMs, s, ev, c) ==
      if !(ev.call in s.calls && s.calls[ev.call].phase.Opening?) then s.calls[c].phase else Opened(s, ev.result, ev.call, c)
  {
  }

  lemma FailedPhase(s: State, t: State, o: nat, c: nat, now: int)
    requires t == s.(entries := t.entries) && c in s.calls && o in s.calls
    requires s.calls[c].phase.Tracked? ==> Unretired(ReleaseCalls(t, {o}, now), s.calls[c].generation)
    ensures Goes(Retire(ReleaseCalls(t, {o}, now), {s.calls[o].generation}, Failure, now), c,
      if c == o then Done else Over(s.calls[c].phase, s.calls[c].generation == s.calls[o].generation))
  {
    hide ReleaseCalls, Retire, Unretired;
    ReleasePhase(t, {o}, now, c);
    RetirePhase(ReleaseCalls(t, {o}, now), {s.calls[o].generation}, Failure, now, c);
  }

  lemma OpenedWell(s: State, o: nat, result: OpenResult, now: int, c: nat)
    requires c in s.calls && o in s.calls && s.calls[o].generation in s.entries
    requires result == OpenUsable && s.entries[s.calls[o].generation].retired.None?
    ensures Goes(FinishAcquire(s, o, result, now), c, Opened(s, result, o, c))
  {
    hide ReleaseEntry, OfGeneration, Retire, Replaced;
  }

  lemma FinishPhase(idleMs: nat, s: State, ev: Event, c: nat)
    requires Running(s) && c in s.calls && ev.Resume? && ev.call in s.calls && s.calls[ev.call].phase.Opening?
    requires s.calls[ev.call].generation in s.entries
    ensures Goes(FinishAcquire(s, ev.call, ev.result, ev.now), c, Opened(s, ev.result, ev.call, c))
  {
    hide Running, Retire, ReleaseCalls, Unretired, Replaced, FinishAcquire, Goes;
    var h := s.calls[ev.call].generation;
    var e := s.entries[h].(ready := s.entries[h].ready || !ev.result.OpenFailed?);
    if ev.result != OpenUsable || e.retired.Some? {
      if s.calls[c].phase.Tracked? { StillLive(s, ev.call, e.ready, ev.now, c); }
      FinishFails(s, ev.call, ev.result, ev.now);
      FailedPhase(s, s.(entries := s.entries[h := e]), ev.call, c, ev.now);
    } else {
      OpenedWell(s, ev.call, ev.result, ev.now, c);
    }
  }

  lemma ResumeIs(idleMs: nat, s: State, ev: Event)
    requires !s.closed && ev.Resume?
    ensures ev.call in s.calls && s.calls[ev.call].phase.Opening? && s.calls[ev.call].generation in s.entries ==>
      Step(idleMs, s, ev) == FinishAcquire(s, ev.call, ev.result, ev.now)
    ensures !(ev.call in s.calls && s.calls[ev.call].phase.Opening?) ==> Step(idleMs, s, ev) == s
  {
    hide FinishAcquire;
  }

  lemma ResumePhase(idleMs: nat, s: State, ev: Event, c: nat)
    requires Running(s) && c in s.calls && ev.Resume?
    ensures Goes(Step(idleMs, s, ev), c, Next(idleMs, s, ev, c))
  {
    RunningFits(s, c);
    if ev.call in s.calls { RunningFits(s, ev.call); }
    NextResumed(idleMs, s, ev, c);
    ResumeIs(idleMs, s, ev);
    hide Running, Next, FinishAcquire, Step, Replaced;
    if ev.call in s.calls && s.calls[ev.call].phase.Opening? {
      FinishPhase(idleMs, s, ev, c);
    }
  }

  // ---- the ends of execs, waits and terminations ----

  lemma NextExecuted(idleMs: nat, s: State, ev: Event, c: nat)
    requires c in s.calls && ev.ExecEnds?
    ensures Next(idleMs, s, ev, c) ==
      if !(ev.call == c && s.calls[c].phase.Executing?) then s.calls[c].phase
      else if ev.outcome.Yielded? && Unretired(s, s.calls[c].generation) && ev.outcome.cell !in s.cells
      then (if ev.outcome.deliverable then Tracked(ev.outcome.cell) else Terminating)
      else Done
  {
  }

  lemma ExecPhase(idleMs: nat, s: State, ev: Event, c: nat)
    requires !s.closed && c in s.calls && ev.ExecEnds?
    ensures Goes(Step(idleMs, s, ev), c, Next(idleMs, s, ev, c))
  {
    NextExecuted(idleMs, s, ev, c);
    ReleasePhase(s, {ev.call}, ev.now, c);
    hide Next, ReleaseCalls, Unretired;
  }

  lemma NextWaited(idleMs: nat, s: State, ev: Event, c: nat)
    requires c in s.calls && (ev.WaitEnds? || ev.StopCells?)
    ensures Next(idleMs, s, ev, c) ==
      if !s.calls[c].phase.Tracked? then s.calls[c].phase
      else var h := s.calls[c].phase.cell;
        if ev.StopCells? then (if h in ev.cells then Terminating else Tracked(h))
        else if ev.cell != h || ev.outcome.Failed? || (ev.outcome.Yielded? && ev.outcome.deliverable) then Tracked(h)
        else if ev.outcome.Finished? then Done else Terminating
  {
  }

  lemma TakePhase(s: State, taken: set<nat>, c: nat)
    requires Running(s) && c in s.calls
    ensures Goes(TakeCells(s, taken), c,
      if s.calls[c].phase.Tracked? && s.calls[c].phase.cell in taken then Terminating else s.calls[c].phase)
  {
    hide Known, Bound, Exclusive, Counted, UnscopedUsed, Cautious, Pending, TrackedLive;
  }

  lemma StopPhase(idleMs: nat, s: State, ev: Event, c: nat)
    requires Running(s) && c in s.calls && ev.StopCells?
    ensures Goes(Step(idleMs, s, ev), c, Next(idleMs, s, ev, c))
  {
    NextWaited(idleMs, s, ev, c);
    TakePhase(s, ev.cells, c);
    RunningOpen(s);
    hide Next, TakeCells, Running;
  }

  lemma WaitIs(idleMs: nat, s: State, ev: Event)
    requires Running(s) && ev.WaitEnds?
    ensures Step(idleMs, s, ev) ==
      if ev.cell !in s.cells || ev.outcome.Failed? || (ev.outcome.Yielded? && ev.outcome.deliverable) then s
      else if ev.outcome.Finished? then ReleaseCalls(s, {s.cells[ev.cell]}, ev.now) else TakeCells(s, {ev.cell})
  {
    CellOwner(s, ev.cell);
    RunningOpen(s);
    hide Running, ReleaseCalls, TakeCells;
  }

  /** The cell of a wait belongs to the call whose lease it holds. */
  lemma WaitsOn(s: State, h: nat, c: nat)
    requires Running(s) && c in s.calls && h in s.cells
    ensures s.cells[h] == c <==> s.calls[c].phase == Tracked(h)
  {
    hide Known, Bound, Exclusive, Counted, UnscopedUsed, Cautious, Pending, TrackedLive;
  }

  lemma NotThere(s: State, h: nat, c: nat)
    requires Running(s) && c in s.calls && h !in s.cells
    ensures s.calls[c].phase != Tracked(h)
  {
    hide Known, Bound, Exclusive, Counted, UnscopedUsed, Cautious, Pending, TrackedLive;
  }

  lemma WaitPhase(idleMs: nat, s: State, ev: Event, c: nat)
    requires Running(s) && c in s.calls && ev.WaitEnds?
    ensures Goes(Step(idleMs, s, ev), c, Next(idleMs, s, ev, c))
  {
    hide *;
    NextWaited(idleMs, s, ev, c);
    WaitIs(idleMs, s, ev);
    GoesFrom(s, c);
    if ev.cell in s.cells {
      WaitsOn(s, ev.cell, c);
      TakePhase(s, {ev.cell}, c);
      ReleasePhase(s, {s.cells[ev.cell]}, ev.now, c);
    } else {
      NotThere(s, ev.cell, c);
    }
  }

  // ---- losing sessions ----

  /** The end of the sessions of an event, for the call. */
  lemma NextLost(idleMs: nat, s: State, ev: Event, c: nat)
    requires Fits(s, c) && (ev.SessionFails? || ev.HostStops? || ev.ReclaimOldest? || ev.CloseService?)
    ensures Next(idleMs, s, ev, c) == Over(s.calls[c].phase, Ends(idleMs, s, ev, s.calls[c].generation).Some?)
  {
    hide Ends;
  }

  /** Cells end first and their sessions afterwards. */
  lemma EndedPhase(s: State, gens: set<nat>, reason: Reason, now: int, c: nat)
    requires Fits(s, c)
    ensures Goes(Retire(ReleaseCalls(s, TrackedIn(s, gens), now), gens, reason, now), c,
      Over(s.calls[c].phase, s.calls[c].generation in gens))
  {
    ReleasePhase(s, TrackedIn(s, gens), now, c);
    RetirePhase(ReleaseCalls(s, TrackedIn(s, gens), now), gens, reason, now, c);
    hide Retire, ReleaseCalls, Unretired;
  }

  lemma FailsPhase(idleMs: nat, s: State, ev: Event, c: nat)
    requires Fits(s, c) && ev.SessionFails?
    ensures Goes(Step(idleMs, s, ev), c, Next(idleMs, s, ev, c))
  {
    NextLost(idleMs, s, ev, c);
    EndedPhase(s, {ev.generation}, Failure, ev.now, c);
    hide Next, Retire, ReleaseCalls, TrackedIn;
  }

  lemma AllKeys(s: State, c: nat, now: int)
    requires Fits(s, c)
    ensures ReleaseCalls(s, TrackedIn(s, s.entries.Keys), now).entries.Keys == s.entries.Keys
    ensures Over(s.calls[c].phase, s.calls[c].generation in s.entries.Keys) == Over(s.calls[c].phase, true)
  {
    hide ReleaseCalls, TrackedIn;
  }

  lemma HostIs(idleMs: nat, s: State, ev: Event, g: nat)
    requires !s.closed && ev.HostStops?
    ensures Ends(idleMs, s, ev, g).Some?
    ensures Step(idleMs, s, ev) == Retire(ReleaseCalls(s, TrackedIn(s, s.entries.Keys), ev.now), s.entries.Keys, if ev.memory then Memory else Failure, ev.now)
  {
    hide Retire, ReleaseCalls, TrackedIn;
  }

  lemma HostPhase(idleMs: nat, s: State, ev: Event, c: nat)
    requires Fits(s, c) && ev.HostStops?
    ensures Goes(Step(idleMs, s, ev), c, Next(idleMs, s, ev, c))
  {
    NextLost(idleMs, s, ev, c);
    EndedPhase(s, s.entries.Keys, if ev.memory then Memory else Failure, ev.now, c);
    AllKeys(s, c, ev.now);
    HostIs(idleMs, s, ev, s.calls[c].generation);
    hide Next, Retire, ReleaseCalls, TrackedIn, Step, Ends, Over;
  }

  lemma ReclaimPhase(idleMs: nat, s: State, ev: Event, c: nat)
    requires Fits(s, c) && ev.ReclaimOldest?
    ensures Goes(Step(idleMs, s, ev), c, Next(idleMs, s, ev, c))
  {
    var g := s.calls[c].generation;
    NextLost(idleMs, s, ev, c);
    OldestIs(s, ev.idleOnly, ev.through, g);
    var oldest := Oldest(s, ev.idleOnly, ev.through);
    RetirePhase(s, if oldest.Some? then {oldest.value} else {}, Memory, ev.now, c);
    hide Next, Retire, Oldest, FirstToGo, Unretired;
  }

  lemma CloseIs(idleMs: nat, s: State, ev: Event, c: nat)
    requires Fits(s, c) && ev.CloseService?
    ensures Ends(idleMs, s, ev, s.calls[c].generation).Some?
    ensures Goes(Step(idleMs, s, ev), c, Over(s.calls[c].phase, true))
  {
    var t := s.(cells := map[], calls := map c | c in s.calls :: if s.calls[c].phase.Tracked? then s.calls[c].(phase := Done) else s.calls[c]);
    RetirePhase(t, t.entries.Keys, Shutdown, ev.now, c);
    hide Retire;
  }

  lemma ClosePhase(idleMs: nat, s: State, ev: Event, c: nat)
    requires Fits(s, c) && ev.CloseService?
    ensures Goes(Step(idleMs, s, ev), c, Next(idleMs, s, ev, c))
  {
    NextLost(idleMs, s, ev, c);
    CloseIs(idleMs, s, ev, c);
    hide Next, Ends, Step;
  }

  lemma NextTerminated(idleMs: nat, s: State, ev: Event, c: nat)
    requires Fits(s, c) && ev.TerminateEnds?
    ensures Next(idleMs, s, ev, c) ==
      if !(ev.call in s.calls && s.calls[ev.call].phase.Terminating?) then s.calls[c].phase
      else if c == ev.call then Done
      else Over(s.calls[c].phase, !ev.confirmed && s.calls[c].generation == s.calls[ev.call].generation)
  {
  }

  lemma TerminateIs(idleMs: nat, s: State, ev: Event, c: nat)
    requires !s.closed && ev.TerminateEnds?
    ensures Step(idleMs, s, ev) ==
      if ev.call in s.calls && s.calls[ev.call].phase.Terminating? then FinishTerminate(s, ev.call, ev.confirmed, ev.now) else s
  {
    hide FinishTerminate;
  }

  lemma UnconfirmedPhase(s: State, o: nat, g: nat, now: int, c: nat, p: Phase)
    requires Goes(FailSession(s, g, now), c, p)
    ensures Goes(ReleaseCalls(FailSession(s, g, now), {o}, now), c, if c == o then Done else p)
  {
    hide FailSession, ReleaseCalls;
    ReleasePhase(FailSession(s, g, now), {o}, now, c);
  }

  lemma FinishesPhase(s: State, o: nat, confirmed: bool, now: int, c: nat)
    requires Fits(s, c) && o in s.calls
    ensures Goes(FinishTerminate(s, o, confirmed, now), c,
      if c == o then Done else Over(s.calls[c].phase, !confirmed && s.calls[c].generation == s.calls[o].generation))
  {
    var g := s.calls[o].generation;
    if confirmed {
      ReleasePhase(s, {o}, now, c);
    } else {
      EndedPhase(s, {g}, Failure, now, c);
      assert Goes(FailSession(s, g, now), c, Over(s.calls[c].phase, s.calls[c].generation in {g}));
      UnconfirmedPhase(s, o, g, now, c, Over(s.calls[c].phase, s.calls[c].generation in {g}));
    }
    hide Retire, ReleaseCalls, TrackedIn, Goes, FailSession, Over;
  }

  lemma TerminatePhase(idleMs: nat, s: State, ev: Event, c: nat)
    requires Fits(s, c) && ev.TerminateEnds?
    ensures Goes(Step(idleMs, s, ev), c, Next(idleMs, s, ev, c))
  {
    NextTerminated(idleMs, s, ev, c);
    TerminateIs(idleMs, s, ev, c);
    hide FinishTerminate, Next, Step;
    if ev.call in s.calls && s.calls[ev.call].phase.Terminating? { FinishesPhase(s, ev.call, ev.confirmed, ev.now, c); }
  }

  lemma TouchPhase(idleMs: nat, s: State, ev: Event, c: nat)
    requires Fits(s, c) && ev.Touch?
    ensures Goes(Step(idleMs, s, ev), c, Next(idleMs, s, ev, c))
  {
    assert Next(idleMs, s, ev, c) == s.calls[c].phase;
    hide Next;
  }

  /** The phase of every call after any step of a running service: who gets a lease, who keeps it
      and in what form, and who has given it back. */
  lemma CallExactly(idleMs: nat, s: State, ev: Event, c: nat)
    requires Running(s) && c in s.calls
    ensures Goes(Step(idleMs, s, ev), c, Next(idleMs, s, ev, c))
  {
    RunningFits(s, c);
    RunningOpen(s);
    hide Running, Fits, Next, Step, Goes;
    match ev
    case CaptureGeneration(_, _, _) => LooksPhase(idleMs, s, ev, c);
    case SweepIdle(_) => LooksPhase(idleMs, s, ev, c);
    case Acquire(_, _) => AcquirePhase(idleMs, s, ev, c);
    case Resume(_, _, _) => ResumePhase(idleMs, s, ev, c);
    case Touch(_, _) => TouchPhase(idleMs, s, ev, c);
    case ExecEnds(_, _, _) => ExecPhase(idleMs, s, ev, c);
    case WaitEnds(_, _, _) => WaitPhase(idleMs, s, ev, c);
    case StopCells(_) => StopPhase(idleMs, s, ev, c);
    case TerminateEnds(_, _, _) => TerminatePhase(idleMs, s, ev, c);
    case SessionFails(_, _) => FailsPhase(idleMs, s, ev, c);
    case HostStops(_, _) => HostPhase(idleMs, s, ev, c);
    case ReclaimOldest(_, _, _) => ReclaimPhase(idleMs, s, ev, c);
    case CloseService(_) => ClosePhase(idleMs, s, ev, c);
  }

  // ---- what an entry remembers of its opening ----

  predicate Opens(s: State, ev: Event, g: nat) {
    ev.Resume? && ev.call in s.calls && s.calls[ev.call].phase.Opening? && s.calls[ev.call].generation == g
  }

  /** The entry knows its session from the first opening that returned one, it was announced with
      the first lease granted, and it forgets its predecessor once a user has heard of the loss. */
  predicate Remembers(s: State, r: State, ev: Event, g: nat)
    requires g in s.entries
  {
    var usable := Opens(s, ev, g) && ev.result == OpenUsable && s.entries[g].retired.None?;
    && g in r.entries
    && r.entries[g].ready == (s.entries[g].ready || (Opens(s, ev, g) && !ev.result.OpenFailed?))
    && r.entries[g].announced == (s.entries[g].announced || (usable && (s.calls[ev.call].expected == None || s.calls[ev.call].expected == Some(g))))
    && r.entries[g].previous == if usable then None else s.entries[g].previous
  }

  predicate SameMarks(s: State, r: State, g: nat) {
    && g in s.entries && g in r.entries && r.entries[g].ready == s.entries[g].ready
    && r.entries[g].announced == s.entries[g].announced && r.entries[g].previous == s.entries[g].previous
  }

  lemma ReleaseMarks(s: State, cs: set<nat>, now: int, g: nat)
    requires g in s.entries
    ensures SameMarks(s, ReleaseCalls(s, cs, now), g)
  {
    hide OfGeneration;
  }

  lemma RetireMarks(s: State, gens: set<nat>, reason: Reason, now: int, g: nat)
    requires g in s.entries
    ensures SameMarks(s, Retire(s, gens, reason, now), g)
  {
    var victims := Victims(s, gens);
    var marked := Mark(s, victims, reason, now);
    ReleaseMarks(marked, TrackedIn(marked, victims), now, g);
    hide ReleaseCalls, TrackedIn, Rebound, Unbinds;
  }

  lemma EndedMarks(s: State, cs: set<nat>, gens: set<nat>, reason: Reason, now: int, g: nat)
    requires g in s.entries
    ensures SameMarks(s, Retire(ReleaseCalls(s, cs, now), gens, reason, now), g)
  {
    ReleaseMarks(s, cs, now, g);
    RetireMarks(ReleaseCalls(s, cs, now), gens, reason, now, g);
    hide Retire, ReleaseCalls;
  }

  lemma MarksStay(s: State, r: State, ev: Event, g: nat)
    requires SameMarks(s, r, g) && !Opens(s, ev, g)
    ensures Remembers(s, r, ev, g)
  {
  }

  lemma SweepMarks(s: State, deadline: int, now: int, g: nat)
    requires g in s.entries
    ensures SameMarks(s, Sweep(s, deadline, now), g)
  {
    RetireMarks(s, IdleEntries(s, deadline), Idle, now, g);
    hide Retire;
  }

  lemma JoinMarks(t: State, call: nat, now: int, g: nat)
    requires Known(t) && Bound(t) && Counted(t) && call in t.calls && g in t.entries
    ensures SameMarks(t, Join(t, call, now), g)
  {
    JoinEntries(t, call, now, g);
    hide Join, Known, Bound, Counted;
  }

  lemma MarksChain(s: State, t: State, r: State, g: nat)
    requires SameMarks(s, t, g) && SameMarks(t, r, g)
    ensures SameMarks(s, r, g)
  {
  }

  lemma MarksIn(s: State, t: State, g: nat)
    requires SameMarks(s, t, g)
    ensures g in t.entries
  {
  }

  lemma MarksHere(s: State, g: nat)
    requires g in s.entries
    ensures SameMarks(s, s, g)
  {
  }

  lemma AcquireMarks(idleMs: nat, s: State, ev: Event, g: nat)
    requires Running(s) && ev.Acquire? && g in s.entries
    ensures SameMarks(s, Step(idleMs, s, ev), g)
  {
    hide *;
    RunningOpen(s);
    AcquireIs(idleMs, s, ev);
    if Sweeps(s, ev) {
      var t := Sweep(s, ev.now - idleMs, ev.now);
      SweepRunning(s, ev.now - idleMs, ev.now);
      RunningParts(t);
      SweepMarks(s, ev.now - idleMs, ev.now, g);
      MarksIn(s, t, g);
      JoinMarks(t, ev.call, ev.now, g);
      MarksChain(s, t, Step(idleMs, s, ev), g);
    } else {
      MarksHere(s, g);
    }
  }

  lemma LooksEntries(idleMs: nat, s: State, ev: Event)
    requires !s.closed && (ev.CaptureGeneration? || ev.SweepIdle?)
    ensures Step(idleMs, s, ev).entries == if Sweeps(s, ev) then Sweep(s, ev.now - idleMs, ev.now).entries else s.entries
  {
    hide Sweep, SeenGeneration;
  }

  lemma SameEntriesMarks(s: State, t: State, r: State, g: nat)
    requires SameMarks(s, t, g) && r.entries == t.entries
    ensures SameMarks(s, r, g)
  {
  }

  lemma LooksMarks(idleMs: nat, s: State, ev: Event, g: nat)
    requires !s.closed && (ev.CaptureGeneration? || ev.SweepIdle?) && g in s.entries
    ensures SameMarks(s, Step(idleMs, s, ev), g)
  {
    hide *;
    LooksEntries(idleMs, s, ev);
    SweepMarks(s, ev.now - idleMs, ev.now, g);
    MarksHere(s, g);
    SameEntriesMarks(s, if Sweeps(s, ev) then Sweep(s, ev.now - idleMs, ev.now) else s, Step(idleMs, s, ev), g);
  }

  lemma EndsMarks(idleMs: nat, s: State, ev: Event, g: nat)
    requires !s.closed && (ev.TerminateEnds? || ev.SessionFails? || ev.HostStops? || ev.ReclaimOldest?) && g in s.entries
    ensures SameMarks(s, Step(idleMs, s, ev), g)
  {
    hide Retire, ReleaseCalls, TrackedIn, Oldest;
    match ev
    case TerminateEnds(call, confirmed, now) =>
      if call in s.calls {
        var h := s.calls[call].generation;
        var t := if confirmed then s else FailSession(s, h, now);
        EndedMarks(s, TrackedIn(s, {h}), {h}, Failure, now, g);
        ReleaseMarks(t, {call}, now, g);
      }
    case SessionFails(h, now) => EndedMarks(s, TrackedIn(s, {h}), {h}, Failure, now, g);
    case HostStops(memory, now) =>
      var t := ReleaseCalls(s, TrackedIn(s, s.entries.Keys), now);
      EndedMarks(s, TrackedIn(s, s.entries.Keys), t.entries.Keys, if memory then Memory else Failure, now, g);
    case ReclaimOldest(idleOnly, through, now) =>
      var oldest := Oldest(s, idleOnly, through);
      RetireMarks(s, if oldest.Some? then {oldest.value} else {}, Memory, now, g);
  }

  lemma CloseMarks(idleMs: nat, s: State, ev: Event, g: nat)
    requires !s.closed && ev.CloseService? && g in s.entries
    ensures SameMarks(s, Step(idleMs, s, ev), g)
  {
    var t := s.(cells := map[], calls := map c | c in s.calls :: if s.calls[c].phase.Tracked? then s.calls[c].(phase := Done) else s.calls[c]);
    RetireMarks(t, t.entries.Keys, Shutdown, ev.now, g);
    hide Retire;
  }

  lemma TakenMarks(s: State, taken: set<nat>)
    ensures TakeCells(s, taken).entries == s.entries
  {
  }

  lemma WaitMarks(s: State, cell: nat, outcome: Outcome, now: int, g: nat)
    requires g in s.entries
    ensures SameMarks(s, FinishWait(s, cell, outcome, now), g)
  {
    if cell in s.cells { ReleaseMarks(s, {s.cells[cell]}, now, g); }
    MarksHere(s, g);
    TakenMarks(s, {cell});
    hide ReleaseCalls, TakeCells;
  }

  lemma UsesMarks(idleMs: nat, s: State, ev: Event, g: nat)
    requires !s.closed && (ev.Touch? || ev.ExecEnds? || ev.WaitEnds? || ev.StopCells?) && g in s.entries
    ensures SameMarks(s, Step(idleMs, s, ev), g)
  {
    hide ReleaseCalls, TakeCells, FinishWait;
    match ev
    case Touch(call, now) =>
    case ExecEnds(call, outcome, now) => ReleaseMarks(s, {call}, now, g);
    case WaitEnds(cell, outcome, now) => WaitMarks(s, cell, outcome, now, g);
    case StopCells(cells) => TakenMarks(s, cells);
  }

  lemma ReadyMarks(s: State, t: State, r: State, ev: Event, g: nat)
    requires ev.Resume? && ev.call in s.calls && Opens(s, ev, s.calls[ev.call].generation) && s.calls[ev.call].generation in s.entries && g in s.entries
    requires var h := s.calls[ev.call].generation; h in t.entries && t.entries == s.entries[h := s.entries[h].(ready := s.entries[h].ready || !ev.result.OpenFailed?)]
    requires ev.result != OpenUsable || s.entries[s.calls[ev.call].generation].retired.Some?
    requires SameMarks(t, r, g)
    ensures Remembers(s, r, ev, g)
  {
  }

  lemma RefusedMarks(s: State, ev: Event, g: nat)
    requires ev.Resume? && ev.call in s.calls && s.calls[ev.call].phase.Opening? && s.calls[ev.call].generation in s.entries && g in s.entries
    requires ev.result != OpenUsable || s.entries[s.calls[ev.call].generation].retired.Some?
    ensures Remembers(s, FinishAcquire(s, ev.call, ev.result, ev.now), ev, g)
  {
    hide FinishAcquire, Retire, ReleaseCalls, Remembers, SameMarks;
    var h := s.calls[ev.call].generation;
    var t := s.(entries := s.entries[h := s.entries[h].(ready := s.entries[h].ready || !ev.result.OpenFailed?)]);
    FinishFails(s, ev.call, ev.result, ev.now);
    EndedMarks(t, {ev.call}, {h}, Failure, ev.now, g);
    ReadyMarks(s, t, FinishAcquire(s, ev.call, ev.result, ev.now), ev, g);
  }

  lemma UsableIs(s: State, o: nat, now: int)
    requires o in s.calls && s.calls[o].generation in s.entries && s.entries[s.calls[o].generation].retired.None?
    ensures var h := s.calls[o].generation; var e := s.entries[h].(ready := true, previous := None);
      var r := FinishAcquire(s, o, OpenUsable, now);
      if Replaced(s, o) then r == ReleaseCalls(s.(entries := s.entries[h := e]), {o}, now)
      else r.entries == s.entries[h := e.(announced := true)]
  {
    hide Retire, ReleaseCalls, Replaced;
    var h := s.calls[o].generation;
    var e := s.entries[h].(ready := true, previous := None);
    assert s.entries[h := s.entries[h].(ready := true)][h := e] == s.entries[h := e];
    assert s.entries[h := s.entries[h].(ready := true)][h := e.(announced := true)] == s.entries[h := e.(announced := true)];
  }

  lemma UsableMarks(s: State, ev: Event, g: nat)
    requires ev.Resume? && ev.call in s.calls && s.calls[ev.call].phase.Opening? && s.calls[ev.call].generation in s.entries && g in s.entries
    requires ev.result == OpenUsable && s.entries[s.calls[ev.call].generation].retired.None?
    ensures Remembers(s, FinishAcquire(s, ev.call, ev.result, ev.now), ev, g)
  {
    var h := s.calls[ev.call].generation;
    var e := s.entries[h].(ready := true, previous := None);
    UsableIs(s, ev.call, ev.now);
    hide FinishAcquire, ReleaseCalls;
    if Replaced(s, ev.call) { ReleaseMarks(s.(entries := s.entries[h := e]), {ev.call}, ev.now, g); }
  }

  lemma OpenedMarks(s: State, ev: Event, g: nat)
    requires ev.Resume? && ev.call in s.calls && s.calls[ev.call].phase.Opening? && s.calls[ev.call].generation in s.entries && g in s.entries
    ensures Remembers(s, FinishAcquire(s, ev.call, ev.result, ev.now), ev, g)
  {
    hide *;
    if ev.result != OpenUsable || s.entries[s.calls[ev.call].generation].retired.Some? {
      RefusedMarks(s, ev, g);
    } else {
      UsableMarks(s, ev, g);
    }
  }

  lemma ResumeMarks(idleMs: nat, s: State, ev: Event, g: nat)
    requires Running(s) && ev.Resume? && g in s.entries
    ensures Remembers(s, Step(idleMs, s, ev), ev, g)
  {
    hide *;
    RunningOpen(s);
    ResumeIs(idleMs, s, ev);
    if ev.call in s.calls && s.calls[ev.call].phase.Opening? {
      OpeningIn(s, ev.call);
      OpenedMarks(s, ev, g);
    } else {
      MarksHere(s, g);
      OpensNot(s, ev, g);
      MarksStay(s, s, ev, g);
    }
  }

  lemma OpeningIn(s: State, c: nat)
    requires Running(s) && c in s.calls && s.calls[c].phase.Opening?
    ensures s.calls[c].generation in s.entries
  {
    RunningFits(s, c);
    hide Running;
  }

  lemma OpensNot(s: State, ev: Event, g: nat)
    requires ev.Resume? ==> !(ev.call in s.calls && s.calls[ev.call].phase.Opening?)
    ensures !Opens(s, ev, g)
  {
  }

  lemma MarksExactly(idleMs: nat, s: State, ev: Event, g: nat)
    requires Running(s) && g in s.entries
    ensures Remembers(s, Step(idleMs, s, ev), ev, g)
  {
    hide *;
    RunningOpen(s);
    if ev.Resume? {
      ResumeMarks(idleMs, s, ev, g);
    } else {
      if ev.Acquire? {
        AcquireMarks(idleMs, s, ev, g);
      } else if ev.CaptureGeneration? || ev.SweepIdle? {
        LooksMarks(idleMs, s, ev, g);
      } else if ev.CloseService? {
        CloseMarks(idleMs, s, ev, g);
      } else if ev.Touch? || ev.ExecEnds? || ev.WaitEnds? || ev.StopCells? {
        UsesMarks(idleMs, s, ev, g);
      } else {
        EndsMarks(idleMs, s, ev, g);
      }
      OpensNot(s, ev, g);
      MarksStay(s, Step(idleMs, s, ev), ev, g);
    }
  }
}
