/** Cancellations that come before their call: how long the session remembers them, and what that
    does to the call. */
module SessionEarlyCancels {
  import opened SessionStates
  import opened SessionRuns
  import opened SessionTheorems

  // ---- the record of early cancellations ----

  function PositionOf(q: seq<nat>, x: nat): (p: nat)
    requires x in q
    ensures p < |q| && q[p] == x
  {
    if q[0] == x then 0 else 1 + PositionOf(q[1..], x)
  }

  /** How many more cancellations the record of early cancellations can take before it drops `x`. */
  function Room(q: seq<nat>, x: nat): int
    requires x in q
  {
    PositionOf(q, x) + MAX_EARLY_CANCELLATIONS - |q|
  }

  lemma {:induction false} PositionAppend(q: seq<nat>, y: nat, x: nat)
    requires x in q
    ensures PositionOf(q + [y], x) == PositionOf(q, x)
  {
    if q[0] != x {
      assert (q + [y])[1..] == q[1..] + [y];
      PositionAppend(q[1..], y, x);
    }
  }

  lemma {:induction false} PositionOfLast(q: seq<nat>, x: nat)
    requires x !in q
    ensures PositionOf(q + [x], x) == |q|
  {
    if q != [] {
      assert (q + [x])[1..] == q[1..] + [x];
      PositionOfLast(q[1..], x);
    }
  }

  lemma {:induction false} WithoutRoom(q: seq<nat>, y: nat, x: nat)
    requires x in q && x != y
    ensures x in Without(q, y)
    ensures Room(Without(q, y), x) >= Room(q, x)
    ensures PositionOf(Without(q, y), x) <= PositionOf(q, x)
  {
    if q[0] == x {
      assert Without(q, y)[0] == x;
    } else if q[0] == y {
      WithoutRoom(q[1..], y, x);
    } else {
      WithoutRoom(q[1..], y, x);
      assert Without(q, y)[1..] == Without(q[1..], y);
    }
  }

  /** One more cancellation costs a remembered one at most one place. */
  lemma RememberRoom(q: seq<nat>, y: nat, x: nat)
    requires x in q && Room(q, x) >= 1
    ensures x in Remember(q, y)
    ensures Room(Remember(q, y), x) >= Room(q, x) - 1
  {
    var kept := if |q| >= MAX_EARLY_CANCELLATIONS then q[1..] else q;
    assert x in kept && PositionOf(kept, x) >= PositionOf(q, x) - (|q| - |kept|);
    if y !in kept { PositionAppend(kept, y, x); }
  }

  /** A cancellation that was not on record goes to the end of it. */
  lemma FreshRoom(q: seq<nat>, x: nat)
    requires x !in q && |q| <= MAX_EARLY_CANCELLATIONS
    ensures Room(Remember(q, x), x) == MAX_EARLY_CANCELLATIONS - 1
  {
    var kept := if |q| >= MAX_EARLY_CANCELLATIONS then q[1..] else q;
    PositionOfLast(kept, x);
  }

  predicate NoRepeats(q: seq<nat>) {
    forall i, j :: 0 <= i < j < |q| ==> q[i] != q[j]
  }

  /** What the record always is: at most 1024 ids, each once. */
  predicate Recorded(q: seq<nat>) {
    |q| <= MAX_EARLY_CANCELLATIONS && NoRepeats(q)
  }

  lemma {:induction false} WithoutRecorded(q: seq<nat>, x: nat)
    requires NoRepeats(q)
    ensures NoRepeats(Without(q, x))
  {
    if q != [] {
      WithoutRecorded(q[1..], x);
      var w := Without(q[1..], x);
      assert q[0] !in q[1..];
      assert NoRepeats([q[0]] + w) by {
        forall i, j | 0 <= i < j < |w| + 1 ensures ([q[0]] + w)[i] != ([q[0]] + w)[j] {
          assert w[j - 1] in w;
        }
      }
    }
  }

  lemma RememberRecorded(q: seq<nat>, x: nat)
    requires Recorded(q)
    ensures Recorded(Remember(q, x))
  {
  }

  lemma StepRecorded(s: State, ev: Event)
    requires WellFormed(s) && Recorded(s.cancelled)
    ensures Recorded(Step(s, ev).cancelled)
  {
    StepBears(s, ev);
    hide WellFormed, NoRepeats, Remember, Without, AbortAll, Dispatch;
    match ev
    case CallArrives(call) => WithoutRecorded(s.cancelled, call.invocation);
    case ToolCancelled(id) => RememberRecorded(s.cancelled, id);
    case CloseEnds => NothingRecorded();
    case _ =>
  }

  lemma NothingRecorded()
    ensures Recorded([])
  {
  }

  lemma {:induction false} RunRecorded(s: State, events: seq<Event>)
    requires WellFormed(s) && Recorded(s.cancelled)
    ensures Recorded(Run(s, events).cancelled)
    decreases |events|
  {
    if events != [] {
      StepWellFormed(s, events[0]);
      StepRecorded(s, events[0]);
      hide Step, WellFormed, Recorded;
      RunRecorded(Step(s, events[0]), events[1..]);
    }
  }

  // ---- a call that was cancelled before it came is dropped ----

  function Cancellations(events: seq<Event>): nat {
    if events == [] then 0 else (if events[0].ToolCancelled? then 1 else 0) + Cancellations(events[1..])
  }

  /** The first task of this invocation from place `base` on. */
  predicate FirstNew(s: State, base: nat, id: nat, t: nat) {
    && base <= t < |s.tasks| && s.tasks[t].invocation == id
    && forall u :: base <= u < t ==> s.tasks[u].invocation != id
  }

  predicate DroppedAt(s: State, base: nat, id: nat, t: nat) {
    FirstNew(s, base, id, t) && s.tasks[t].phase == Ended && s.tasks[t].runs == 0
  }

  predicate Settled(s: State, base: nat, id: nat) {
    exists t: nat | t < |s.tasks| :: DroppedAt(s, base, id, t)
  }

  predicate Absent(s: State, base: nat, id: nat) {
    forall t :: base <= t < |s.tasks| ==> s.tasks[t].invocation != id
  }

  /** The call was dropped, or it will be as long as at most `left` more cancellations arrive. */
  predicate Remembered(s: State, base: nat, id: nat, left: nat) {
    || Settled(s, base, id)
    || (Absent(s, base, id) && (Halted(s) || (id in s.cancelled && Room(s.cancelled, id) >= left)))
  }

  lemma CancelRoom(s: State, other: nat, id: nat)
    requires id in s.cancelled && Room(s.cancelled, id) >= 1 && WellFormed(s)
    ensures id in CancelTool(s, other).cancelled
    ensures Room(CancelTool(s, other).cancelled, id) >= Room(s.cancelled, id) - 1
  {
    hide Remember;
    RememberRoom(s.cancelled, other, id);
  }

  lemma SettledStays(s: State, r: State, base: nat, id: nat)
    requires TasksGrow(s, r) && Settled(s, base, id)
    ensures Settled(r, base, id)
  {
    var t: nat :| t < |s.tasks| && DroppedAt(s, base, id, t);
    assert forall u :: 0 <= u < |s.tasks| ==> TaskSteps(s.tasks[u], r.tasks[u]);
    assert DroppedAt(r, base, id, t);
  }

  lemma AbsentStays(s: State, r: State, base: nat, id: nat)
    requires TasksGrow(s, r) && |r.tasks| == |s.tasks| && Absent(s, base, id)
    ensures Absent(r, base, id)
  {
    assert forall u :: 0 <= u < |s.tasks| ==> TaskSteps(s.tasks[u], r.tasks[u]);
  }

  /** A call on record is dropped; any other call leaves it on record. */
  lemma BornRemembered(s: State, r: State, call: ToolCall, base: nat, id: nat, left: nat)
    requires Born(s, r, call) && Absent(s, base, id) && base <= |s.tasks|
    requires id in s.cancelled && Room(s.cancelled, id) >= left
    ensures Remembered(r, base, id, left)
  {
    assert forall t :: 0 <= t < |s.tasks| ==> r.tasks[t] == r.tasks[..|s.tasks|][t];
    if call.invocation == id {
      hide Without;
      assert DroppedAt(r, base, id, |s.tasks|);
    } else {
      WithoutRoom(s.cancelled, call.invocation, id);
      assert Absent(r, base, id);
    }
  }

  lemma RememberedStep(s: State, ev: Event, base: nat, id: nat, left: nat)
    requires WellFormed(s) && Remembered(s, base, id, left) && base <= |s.tasks|
    requires ev.ToolCancelled? ==> left >= 1
    ensures Remembered(Step(s, ev), base, id, if ev.ToolCancelled? then left - 1 else left)
    ensures base <= |Step(s, ev).tasks|
  {
    var r := Step(s, ev);
    StepKeeps(s, ev);
    StepBears(s, ev);
    hide WellFormed, AllCounted, TasksGrow, Room, Without, CancelTool, Settled, Absent, AbortAll, Dispatch, Born;
    assert |s.tasks| <= |r.tasks| by { hide *; GrowsLonger(s, r); }
    if Settled(s, base, id) {
      SettledStays(s, r, base, id);
    } else if Halted(s) {
      if ev.CallArrives? {
        DispatchBears(s, ev.call);
      } else {
        AbsentStays(s, r, base, id);
      }
    } else {
      match ev
      case ToolCancelled(other) =>
        CancelRoom(s, other, id);
        AbsentStays(s, r, base, id);
      case CallArrives(call) =>
        if SameCount(s, r) { AbsentStays(s, r, base, id); } else { BornRemembered(s, r, call, base, id, left); }
      case CloseEnds => AbsentStays(s, r, base, id);
      case _ => AbsentStays(s, r, base, id);
    }
  }

  lemma GrowsLonger(s: State, r: State)
    requires Kept(s, r)
    ensures |s.tasks| <= |r.tasks|
  {
  }

  lemma {:induction false} RememberedRun(s: State, events: seq<Event>, base: nat, id: nat)
    requires WellFormed(s) && base <= |s.tasks| && Remembered(s, base, id, Cancellations(events))
    ensures Remembered(Run(s, events), base, id, 0)
    decreases |events|
  {
    if events != [] {
      StepWellFormed(s, events[0]);
      RememberedStep(s, events[0], base, id, Cancellations(events));
      hide Step, Remembered, WellFormed;
      RememberedRun(Step(s, events[0]), events[1..], base, id);
    }
  }

  lemma FirstIsDropped(r: State, base: nat, id: nat, left: nat)
    requires Remembered(r, base, id, left)
    ensures forall t: nat :: FirstNew(r, base, id, t) ==> r.tasks[t].phase == Ended && r.tasks[t].runs == 0
  {
    hide Room;
    if Settled(r, base, id) {
      var t: nat :| t < |r.tasks| && DroppedAt(r, base, id, t);
      forall u: nat | FirstNew(r, base, id, u) ensures u == t {
      }
    }
  }

  lemma CancelRecords(s: State, id: nat)
    requires WellFormed(s) && id !in s.pending
    ensures CancelTool(s, id) == s.(cancelled := Remember(s.cancelled, id))
  {
  }

  /** A cancellation whose call is not pending drops the next call of that invocation, over every
      run that does not push it out of the record first. */
  lemma EarlyCancelDrops(before: seq<Event>, id: nat, after: seq<Event>)
    requires id !in Run(Initial, before).pending
    requires Cancellations(after) <= Room(Remember(Run(Initial, before).cancelled, id), id)
    ensures var r := Run(Initial, before + ([ToolCancelled(id)] + after));
      forall t: nat :: FirstNew(r, |Run(Initial, before).tasks|, id, t) ==> r.tasks[t].phase == Ended && r.tasks[t].runs == 0
  {
    var s := Run(Initial, before);
    var m := Step(s, ToolCancelled(id));
    RunSplit(Initial, before, [ToolCancelled(id)] + after);
    RunFirst(s, ToolCancelled(id), after);
    CancelRecords(s, id);
    assert Absent(m, |s.tasks|, id);
    assert Remembered(m, |s.tasks|, id, Cancellations(after));
    hide Step, Remembered, WellFormed, CancelTool, Room, Remember, Cancellations, FirstNew;
    RememberedRun(m, after, |s.tasks|, id);
    FirstIsDropped(Run(m, after), |s.tasks|, id, 0);
  }

  // ---- how many later cancellations make the session forget one ----

  function Cancels(ids: seq<nat>): (events: seq<Event>)
    ensures |events| == |ids|
  {
    if ids == [] then [] else [ToolCancelled(ids[0])] + Cancels(ids[1..])
  }

  /** Different ids, none of them pending or on record. */
  predicate Fresh(s: State, ids: seq<nat>) {
    NoRepeats(ids) && forall i :: i in ids ==> i !in s.pending && i !in s.cancelled
  }

  lemma {:induction false} PositionTail(q: seq<nat>, x: nat)
    requires NoRepeats(q) && x in q && q[0] != x
    ensures x in q[1..] && PositionOf(q[1..], x) == PositionOf(q, x) - 1
  {
  }

  /** A cancellation that is new to the record pushes out a remembered one exactly when that one
      has no room left. */
  lemma RememberExact(q: seq<nat>, y: nat, x: nat)
    requires Recorded(q) && x in q && y !in q
    ensures x in Remember(q, y) <==> Room(q, x) >= 1
    ensures x in Remember(q, y) ==> Room(Remember(q, y), x) == Room(q, x) - 1
  {
    var kept := if |q| >= MAX_EARLY_CANCELLATIONS then q[1..] else q;
    if |q| >= MAX_EARLY_CANCELLATIONS && q[0] != x { PositionTail(q, x); }
    if x in kept { PositionAppend(kept, y, x); }
  }

  lemma CancelFresh(s: State, ids: seq<nat>)
    requires WellFormed(s) && ids != [] && Fresh(s, ids)
    ensures CancelTool(s, ids[0]) == s.(cancelled := Remember(s.cancelled, ids[0]))
    ensures Fresh(CancelTool(s, ids[0]), ids[1..])
  {
    assert forall i :: i in ids[1..] ==> i in ids && i != ids[0];
  }

  lemma {:induction false} StaysForgotten(s: State, ids: seq<nat>, id: nat)
    requires WellFormed(s) && Fresh(s, ids) && id !in s.cancelled && id !in ids
    ensures Run(s, Cancels(ids)) == s.(cancelled := Run(s, Cancels(ids)).cancelled)
    ensures id !in Run(s, Cancels(ids)).cancelled
    decreases |ids|
  {
    if ids != [] {
      CancelFresh(s, ids);
      RunFirst(s, ToolCancelled(ids[0]), Cancels(ids[1..]));
      var m := CancelTool(s, ids[0]);
      assert m == Step(s, ToolCancelled(ids[0]));
      assert id !in m.cancelled;
      hide Step, WellFormed, Fresh, CancelTool, Remember;
      StaysForgotten(m, ids[1..], id);
    }
  }

  lemma {:induction false} ForgetsRun(s: State, ids: seq<nat>, id: nat)
    requires WellFormed(s) && Recorded(s.cancelled) && Fresh(s, ids) && id in s.cancelled
    ensures Run(s, Cancels(ids)) == s.(cancelled := Run(s, Cancels(ids)).cancelled)
    ensures id in Run(s, Cancels(ids)).cancelled <==> |ids| <= Room(s.cancelled, id)
    decreases |ids|
  {
    RoomIsNat(s.cancelled, id);
    if ids != [] {
      CancelFresh(s, ids);
      RunFirst(s, ToolCancelled(ids[0]), Cancels(ids[1..]));
      var m := CancelTool(s, ids[0]);
      assert m == Step(s, ToolCancelled(ids[0]));
      assert ids[0] !in s.cancelled && id !in ids[1..];
      RememberExact(s.cancelled, ids[0], id);
      RememberRecorded(s.cancelled, ids[0]);
      hide Step, WellFormed, Fresh, CancelTool, Remember, Room, Recorded;
      if id in m.cancelled { ForgetsRun(m, ids[1..], id); } else { StaysForgotten(m, ids[1..], id); }
    }
  }

  lemma RoomIsNat(q: seq<nat>, x: nat)
    requires x in q && |q| <= MAX_EARLY_CANCELLATIONS
    ensures Room(q, x) >= 0
  {
  }

  /** After an early cancellation and any number of cancellations of other invocations that the
      session does not know, a call that would otherwise run is queued exactly when they are more
      than the record has room for. */
  lemma ForgottenExactly(before: seq<Event>, id: nat, others: seq<nat>, call: ToolCall)
    requires var s := Run(Initial, before);
      id !in s.pending && Fresh(s.(cancelled := Remember(s.cancelled, id)), others)
    requires call.invocation == id
    ensures var n := Run(Initial, before + ([ToolCancelled(id)] + Cancels(others)));
      Runnable(n, call) <==>
        Runnable(n.(cancelled := []), call) && |others| > Room(Remember(Run(Initial, before).cancelled, id), id)
  {
    var s := Run(Initial, before);
    NothingRecorded();
    hide Recorded, Fresh, Cancels, Room, Step, CancelTool, Remember;
    RunRecorded(Initial, before);
    RunSplit(Initial, before, [ToolCancelled(id)] + Cancels(others));
    hide WellFormed;
    EarlyStep(s, id, others);
    var m := s.(cancelled := Remember(s.cancelled, id));
    var n := Run(m, Cancels(others));
    ForgetsRun(m, others, id);
    RunnableUnlessRecorded(n, call);
  }

  lemma EarlyStep(s: State, id: nat, others: seq<nat>)
    requires WellFormed(s) && id !in s.pending && Recorded(s.cancelled)
    ensures var m := s.(cancelled := Remember(s.cancelled, id));
      WellFormed(m) && Recorded(m.cancelled) && Run(s, [ToolCancelled(id)] + Cancels(others)) == Run(m, Cancels(others))
  {
    CancelRecords(s, id);
    RememberRecorded(s.cancelled, id);
    hide Remember, Recorded, CancelTool, WellFormed;
    RunFirst(s, ToolCancelled(id), Cancels(others));
  }

  lemma RunnableUnlessRecorded(s: State, call: ToolCall)
    requires WellFormed(s)
    ensures WellFormed(s.(cancelled := []))
    ensures Runnable(s, call) <==> Runnable(s.(cancelled := []), call) && call.invocation !in s.cancelled
  {
  }
}
