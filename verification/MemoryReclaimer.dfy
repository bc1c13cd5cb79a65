/** `MemoryReclaimer`: a pass over the generations captured at its beginning. At each reading of
    the memory and each close it is suspended, and any steps of the service may run. */
module MemoryReclaimers {
  import opened LeaseStates
  import opened LeaseInvariants

  /** Sessions of captured generations that are not retired yet. */
  function OldLive(s: State, through: nat): set<nat> {
    set g | g in s.entries && s.entries[g].retired.None? && g <= through
  }

  // ---- no step makes an old session live again ----

  ghost predicate NoRevival(s: State, r: State) {
    && s.generation <= r.generation
    && forall g: nat :: Unretired(r, g) && g <= s.generation ==> Unretired(s, g)
  }

  lemma OriginsNoRevival(s: State, r: State)
    requires SameOrigins(s, r)
    ensures NoRevival(s, r)
  {
    assert forall g :: Unretired(r, g) ==> Unretired(s, g);
  }

  lemma Transitive(a: State, b: State, c: State)
    requires NoRevival(a, b) && NoRevival(b, c)
    ensures NoRevival(a, c)
  {
  }

  lemma RetireNoRevival(s: State, gens: set<nat>, reason: Reason, now: int)
    ensures NoRevival(s, Retire(s, gens, reason, now))
  {
    hide Retire;
    RetiredAll(s, gens, reason, now);
    OriginsNoRevival(s, Retire(s, gens, reason, now));
  }

  lemma ReleaseNoRevival(s: State, cs: set<nat>, now: int)
    ensures NoRevival(s, ReleaseCalls(s, cs, now))
  {
    hide ReleaseCalls;
    ReleaseOrigins(s, cs, now);
    OriginsNoRevival(s, ReleaseCalls(s, cs, now));
  }

  lemma SweepNoRevival(s: State, deadline: int, now: int)
    ensures NoRevival(s, Sweep(s, deadline, now))
  {
    hide Retire, IdleEntries;
    RetireNoRevival(s, IdleEntries(s, deadline), Idle, now);
  }

  lemma AcquireNoRevival(s: State, call: nat, deadline: int, now: int)
    requires Running(s) && call in s.calls && s.calls[call].phase.Captured?
    ensures NoRevival(s, StartAcquire(s, call, deadline, now))
  {
    hide Sweep, Counted, CellsMatch, UnscopedUsed, Cautious, Pending, TrackedLive;
    SweepRunning(s, deadline, now);
    SweepNoRevival(s, deadline, now);
    var t := Sweep(s, deadline, now);
    ShareKnown(t, t.calls[call].scope);
    assert NoRevival(t, StartAcquire(s, call, deadline, now));
    Transitive(s, t, StartAcquire(s, call, deadline, now));
  }

  lemma ResumeNoRevival(s: State, call: nat, result: OpenResult, now: int)
    requires call in s.calls && s.calls[call].generation in s.entries
    ensures NoRevival(s, FinishAcquire(s, call, result, now))
  {
    hide ReleaseCalls, Retire;
    var g := s.calls[call].generation;
    var e := s.entries[g].(ready := s.entries[g].ready || !result.OpenFailed?);
    var t := s.(entries := s.entries[g := e]);
    var u := t.(entries := t.entries[g := e.(previous := None)]);
    assert NoRevival(s, t) && NoRevival(s, u);
    ReleaseNoRevival(t, {call}, now);
    RetireNoRevival(ReleaseCalls(t, {call}, now), {g}, Failure, now);
    ReleaseNoRevival(u, {call}, now);
  }

  lemma FailNoRevival(s: State, g: nat, now: int)
    ensures NoRevival(s, FailSession(s, g, now))
  {
    hide ReleaseCalls, Retire, TrackedIn;
    ReleaseNoRevival(s, TrackedIn(s, {g}), now);
    RetireNoRevival(ReleaseCalls(s, TrackedIn(s, {g}), now), {g}, Failure, now);
  }

  lemma StepNoRevival(idleMs: nat, s: State, ev: Event)
    requires Inv(s)
    ensures NoRevival(s, Step(idleMs, s, ev))
  {
    hide Base, TrackedLive, Pending, StartAcquire, FinishAcquire, FailSession, Retire, ReleaseCalls, Sweep, Oldest, TrackedIn;
    if !s.closed {
      match ev
      case CaptureGeneration(call, scope, now) => SweepNoRevival(s, now - idleMs, now);
      case Acquire(call, now) =>
        if call in s.calls && s.calls[call].phase.Captured? {
          AcquireNoRevival(s, call, now - idleMs, now);
        }
      case Resume(call, result, now) =>
        if call in s.calls && s.calls[call].generation in s.entries {
          ResumeNoRevival(s, call, result, now);
        }
      case ExecEnds(call, outcome, now) => ReleaseNoRevival(s, {call}, now);
      case WaitEnds(cell, outcome, now) =>
        if cell in s.cells {
          ReleaseNoRevival(s, {s.cells[cell]}, now);
        }
      case TerminateEnds(call, confirmed, now) =>
        if call in s.calls {
          FailNoRevival(s, s.calls[call].generation, now);
          ReleaseNoRevival(if confirmed then s else FailSession(s, s.calls[call].generation, now), {call}, now);
        }
      case SessionFails(g, now) => FailNoRevival(s, g, now);
      case HostStops(memory, now) => FailAllNoRevival(s, memory, now);
      case SweepIdle(now) => SweepNoRevival(s, now - idleMs, now);
      case ReclaimOldest(idleOnly, through, now) =>
        if Oldest(s, idleOnly, through).Some? {
          RetireNoRevival(s, {Oldest(s, idleOnly, through).value}, Memory, now);
        }
      case CloseService(now) => CloseNoRevival(s, now);
      case _ =>
    }
  }

  lemma FailAllNoRevival(s: State, memory: bool, now: int)
    ensures NoRevival(s, FailAll(s, memory, now))
  {
    hide ReleaseCalls, Retire, TrackedIn;
    ReleaseNoRevival(s, TrackedIn(s, s.entries.Keys), now);
    var t := ReleaseCalls(s, TrackedIn(s, s.entries.Keys), now);
    RetireNoRevival(t, t.entries.Keys, if memory then Memory else Failure, now);
  }

  lemma CloseNoRevival(s: State, now: int)
    ensures NoRevival(s, Close(s, now))
  {
    hide Retire;
    var t := s.(cells := map[], calls := map c | c in s.calls :: if s.calls[c].phase.Tracked? then s.calls[c].(phase := Done) else s.calls[c]);
    var u := Retire(t, t.entries.Keys, Shutdown, now);
    RetireNoRevival(t, t.entries.Keys, Shutdown, now);
    assert forall g :: Unretired(u, g) <==> Unretired(Close(s, now), g);
    assert forall g :: Unretired(t, g) <==> Unretired(s, g);
  }

  lemma NoRevivalShrinks(s: State, r: State, through: nat)
    requires NoRevival(s, r) && through <= s.generation
    ensures OldLive(r, through) <= OldLive(s, through) && through <= r.generation
  {
    forall g | g in OldLive(r, through)
      ensures g in OldLive(s, through)
    {
      assert Unretired(r, g);
    }
  }

  /** Reclaiming a session takes it out of the candidates for good. */
  lemma ReclaimShrinks(s: State, idleOnly: bool, through: nat, now: int)
    requires Oldest(s, idleOnly, through).Some?
    ensures OldLive(Reclaim(s, idleOnly, through, now), through) < OldLive(s, through)
  {
    hide Retire;
    var g := Oldest(s, idleOnly, through).value;
    RetiredAll(s, {g}, Memory, now);
    var r := Reclaim(s, idleOnly, through, now);
    forall x | x in OldLive(r, through)
      ensures x in OldLive(s, through) && x != g
    {
      assert Unretired(r, x);
    }
    assert g in OldLive(s, through);
  }

  // ---- the pass ----

  /** One victim of a pass, the memory reading and the state it was picked in. */
  datatype Pick = Pick(generation: nat, bytes: nat, before: State)

  /** Idle sessions go first; a busy one only above high water with no old idle one left; nothing
      younger than the pass is touched. */
  ghost predicate Justified(p: Pick, highWater: nat, through: nat) {
    && p.generation <= through && Unretired(p.before, p.generation) && 4 * p.bytes > 3 * highWater
    && (p.before.entries[p.generation].users != 0 ==>
          p.bytes > highWater && Nobody(p.before, true, through))
    && First(p.before, p.before.entries[p.generation].users == 0, through, p.generation)
  }

  ghost predicate Nobody(s: State, idleOnly: bool, through: nat) {
    forall g :: !Candidate(s, idleOnly, through, g)
  }

  /** The longest idle, or the least recently used, of the candidates. */
  ghost predicate First(s: State, idleOnly: bool, through: nat, g: nat)
    requires g in s.entries
  {
    forall x :: Candidate(s, idleOnly, through, x) ==> Older(s, idleOnly, g, x)
  }

  lemma StrictSubset(a: set<nat>, b: set<nat>)
    requires a <= b
    ensures |a| <= |b| && (a < b ==> |a| < |b|)
  {
    SubsetSize(a, b);
    if a < b {
      var x :| x in b - a;
      assert |b - a| > 0;
    }
  }

  /** What the world answers at the n-th suspension: the memory reading (none is an invalid
      sample), whether the pass is still current, whether the close finished in time, and what
      the rest of the service did meanwhile. */
  datatype World = World(reading: nat -> Option<nat>, current: nat -> bool, closes: nat -> bool, meanwhile: nat -> seq<Event>)

  /** How a pass ended: not above high water or down at low water, outdated by a stop or a new host,
      without a valid reading, without a candidate, or with a close that took too long. */
  datatype End =
    | Calm
    | Outdated
    | Unread
    | NoVictim(bytes: nat, left: State)
    | TimedOut(turn: nat, left: State)

  /** The pass restarts the host: memory is above high water, and either no session is left at all
      or the close of a victim timed out. */
  predicate Restarts(end: End, world: World, highWater: nat) {
    match end
    case NoVictim(bytes, left) => bytes > highWater && OldLive(left, left.generation) == {} && !left.closed
    case TimedOut(turn, left) =>
      world.current(turn) && world.reading(turn).Some? && world.reading(turn).value > highWater && !left.closed
    case _ => false
  }

  class MemoryReclaimer {
    const highWater: nat
    const idleMs: nat
    var pool: State
    var restarts: nat

    constructor (highWater: nat, idleMs: nat, pool: State)
      requires Inv(pool)
      ensures this.highWater == highWater && this.idleMs == idleMs && this.pool == pool && restarts == 0
    {
      this.highWater, this.idleMs, this.pool, this.restarts := highWater, idleMs, pool, 0;
    }

    /** Other steps of the service run while the pass is suspended. */
    method Suspend(events: seq<Event>, ghost through: nat)
      requires Inv(pool) && through <= pool.generation
      modifies this`pool
      ensures Inv(pool) && through <= pool.generation
      ensures OldLive(pool, through) <= OldLive(old(pool), through)
    {
      hide Inv, OldLive, Step;
      for i := 0 to |events|
        invariant Inv(pool) && through <= pool.generation
        invariant OldLive(pool, through) <= OldLive(old(pool), through)
      {
        StepKeeps(idleMs, pool, events[i]);
        StepNoRevival(idleMs, pool, events[i]);
        NoRevivalShrinks(pool, Step(idleMs, pool, events[i]), through);
        pool := Step(idleMs, pool, events[i]);
      }
    }

    /** `#run`. It ends for every sequence of readings, after at most as many victims as there
        were old sessions, and each victim is justified. The host restarts exactly when the way the
        pass ended calls for it, and then every session ends. */
    method RunPass(world: World, now: int) returns (picks: seq<Pick>, end: End)
      requires Inv(pool) && !pool.closed
      modifies this
      ensures Inv(pool)
      ensures |picks| <= |OldLive(old(pool), old(pool).generation)|
      ensures forall i :: 0 <= i < |picks| ==> Justified(picks[i], highWater, old(pool).generation)
      ensures end.NoVictim? ==> Nobody(end.left, end.bytes <= highWater, old(pool).generation)
      ensures end.TimedOut? ==> !world.closes(end.turn) && picks != []
      ensures (end.NoVictim? || end.TimedOut?) ==>
                pool == if Restarts(end, world, highWater) then FailAll(end.left, true, now) else end.left
      ensures restarts == old(restarts) + if Restarts(end, world, highWater) then 1 else 0
    {
      hide Inv, Justified, OldLive, Retire, Nobody, FailAll;
      picks, end := [], Calm;
      var generations := pool.generation;
      ghost var initial := OldLive(pool, generations);
      Suspend(world.meanwhile(0), generations);
      StrictSubset(OldLive(pool, generations), initial);
      var reading := world.reading(0);
      if reading.None? || !world.current(0) || reading.value <= highWater {
        end := if reading.None? then Unread else if !world.current(0) then Outdated else Calm;
        return;
      }
      var bytes, turn := reading.value, 1;
      while world.current(turn) && 4 * bytes > 3 * highWater
        invariant Inv(pool) && generations <= pool.generation
        invariant |picks| + |OldLive(pool, generations)| <= |initial|
        invariant forall i :: 0 <= i < |picks| ==> Justified(picks[i], highWater, generations)
        invariant restarts == old(restarts) && end == Calm
        decreases |OldLive(pool, generations)|
      {
        ghost var before := OldLive(pool, generations);
        var pick := TakeVictim(bytes, generations, now);
        if pick.None? {
          end := NoVictim(bytes, pool);
          var nobodyLeft := OldLive(pool, pool.generation) == {};
          if bytes > highWater && nobodyLeft && !pool.closed {
            Restart(now);
          }
          return;
        }
        picks := picks + [pick.value];
        StrictSubset(OldLive(pool, generations), before);
        ghost var after := OldLive(pool, generations);
        Suspend(world.meanwhile(turn), generations);
        StrictSubset(OldLive(pool, generations), after);
        reading := world.reading(turn);
        if !world.closes(turn) {
          end := TimedOut(turn, pool);
          if world.current(turn) && reading.Some? && reading.value > highWater && !pool.closed {
            Restart(now);
          }
          return;
        }
        if !world.current(turn) || reading.None? {
          end := if reading.None? then Unread else Outdated;
          return;
        }
        bytes, turn := reading.value, turn + 1;
      }
      if !world.current(turn) { end := Outdated; }
    }

    /** Idle sessions first; a busy one only while memory is above high water. */
    method TakeVictim(bytes: nat, generations: nat, now: int) returns (pick: Option<Pick>)
      requires Inv(pool) && generations <= pool.generation && 4 * bytes > 3 * highWater
      modifies this`pool
      ensures Inv(pool) && generations <= pool.generation && pool.closed == old(pool).closed
      ensures pick.None? ==> pool == old(pool) && Nobody(pool, bytes <= highWater, generations)
      ensures pick.Some? ==>
                && Justified(pick.value, highWater, generations) && pick.value.before == old(pool)
                && OldLive(pool, generations) < OldLive(old(pool), generations)
                && pool == Retire(old(pool), {pick.value.generation}, Memory, now)
    {
      hide Inv, OldLive, Justified, Retire;
      var idleOnly := true;
      var victim := Oldest(pool, true, generations);
      if victim.None? && bytes > highWater {
        idleOnly := false;
        victim := Oldest(pool, false, generations);
      }
      if victim.None? {
        return None;
      }
      PickJustified(pool, idleOnly, generations, bytes, highWater);
      Reclaimed(idleMs, pool, idleOnly, generations, now);
      pick := Some(Pick(victim.value, bytes, pool));
      pool := Reclaim(pool, idleOnly, generations, now);
    }

    /** `#restartHost`: every session and cell of this host ends. */
    method Restart(now: int)
      requires Inv(pool) && !pool.closed
      modifies this
      ensures Inv(pool) && pool == FailAll(old(pool), true, now) && restarts == old(restarts) + 1
      ensures forall g :: !Unretired(pool, g)
    {
      hide Base, TrackedLive, Pending, Retire, ReleaseCalls, TrackedIn;
      FailAllRunning(pool, true, now);
      EverybodyRetired(pool, now);
      pool, restarts := FailAll(pool, true, now), restarts + 1;
    }
  }

  lemma EverybodyRetired(s: State, now: int)
    ensures forall g :: !Unretired(FailAll(s, true, now), g)
  {
    hide Retire, ReleaseCalls, TrackedIn;
    var t := ReleaseCalls(s, TrackedIn(s, s.entries.Keys), now);
    RetiredAll(t, t.entries.Keys, Memory, now);
  }

  lemma PickJustified(s: State, idleOnly: bool, through: nat, bytes: nat, highWater: nat)
    requires Oldest(s, idleOnly, through).Some? && 4 * bytes > 3 * highWater
    requires !idleOnly ==> bytes > highWater && Oldest(s, true, through).None?
    ensures Justified(Pick(Oldest(s, idleOnly, through).value, bytes, s), highWater, through)
  {
  }

  lemma Reclaimed(idleMs: nat, s: State, idleOnly: bool, through: nat, now: int)
    requires Inv(s) && Oldest(s, idleOnly, through).Some? && through <= s.generation
    ensures var r := Reclaim(s, idleOnly, through, now);
            && Inv(r) && through <= r.generation && r.closed == s.closed
            && OldLive(r, through) < OldLive(s, through)
  {
    hide Base, TrackedLive, Pending, Oldest, Retire, OldLive;
    assert Unretired(s, Oldest(s, idleOnly, through).value);
    if !s.closed {
      ReclaimRunning(s, idleOnly, through, now);
    }
    RetiredAll(s, {Oldest(s, idleOnly, through).value}, Memory, now);
    ReclaimShrinks(s, idleOnly, through, now);
  }
}
