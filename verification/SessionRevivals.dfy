/** A cell id that is listed again while a task of its dropped cell is unfinished: exactly then some
    continuation drops a cell that is not complete. */
module SessionRevivals {
  import opened SessionStates
  import opened SessionRuns
  import opened SessionTheorems
  import opened SessionCells

  predicate Leftover(s: State, cellId: nat) {
    exists t: nat | t < |s.tasks| :: s.tasks[t].phase != Ended && s.tasks[t].cellId == cellId
  }

  /** The event lists a cell again while a task of the dropped one is unfinished. */
  predicate RevivesCell(s: State, ev: Event, cellId: nat)
    requires WellFormed(s)
  {
    cellId !in s.cells && cellId in Step(s, ev).cells && Leftover(s, cellId)
  }

  ghost predicate Revives(s: State, ev: Event)
    requires WellFormed(s)
  {
    exists c: nat :: RevivesCell(s, ev, c)
  }

  ghost predicate NoRevivals(s: State, events: seq<Event>)
    requires WellFormed(s)
    decreases |events|
  {
    events == [] ||
    (!Revives(s, events[0]) && (StepWellFormed(s, events[0]); NoRevivals(Step(s, events[0]), events[1..])))
  }

  /** Every step but the end of a close drops only complete cells. */
  predicate DropsAll(s: State, events: seq<Event>)
    requires WellFormed(s)
    decreases |events|
  {
    events == [] ||
    ((events[0].CloseEnds? || DropsComplete(s, Step(s, events[0])))
     && (StepWellFormed(s, events[0]); DropsAll(Step(s, events[0]), events[1..])))
  }

  // ---- runs without a revival ----

  /** An object is listed under one id, that of its unfinished tasks. */
  predicate OneEach(s: State) {
    && (forall c, d :: c in s.cells && d in s.cells && s.cells[c] == s.cells[d] ==> c == d)
    && (forall c, t :: c in s.cells && 0 <= t < |s.tasks| && s.tasks[t].phase != Ended && s.cells[c] == s.tasks[t].cell
          ==> c == s.tasks[t].cellId)
  }

  /** A listed cell id names the object of its unfinished tasks, and only that object. */
  predicate OwnCells(s: State) {
    && (forall t :: 0 <= t < |s.tasks| && s.tasks[t].phase != Ended && s.tasks[t].cellId in s.cells ==> Own(s, t))
    && OneEach(s)
  }

  /** An unfinished task whose object is no longer listed left a complete object behind. */
  predicate LeftComplete(s: State) {
    forall t :: 0 <= t < |s.tasks| && s.tasks[t].phase != Ended && !Own(s, t) ==>
      s.tasks[t].cell < |s.objects| && Complete(s.objects[s.tasks[t].cell])
  }

  lemma OwnNotMisdropped(s: State, ev: Event)
    requires WellFormed(s) && OwnCells(s)
    ensures !Misdrops(s, ev)
  {
    if EndsTask(s, ev) {
      assert s.tasks[ev.task].cellId in s.cells ==> Own(s, ev.task);
    }
  }

  lemma ShapedOwn(s: State, r: State, ev: Event)
    requires WellFormed(s) && OwnCells(s) && r == Step(s, ev) && !Revives(s, ev) && TasksGrow(s, r) && Shaped(s, r)
    ensures OwnCells(r)
  {
    assert forall t :: 0 <= t < |s.tasks| ==> TaskSteps(s.tasks[t], r.tasks[t]);
    hide Step, TasksGrow;
    forall c | c in r.cells && c !in s.cells ensures !Leftover(s, c) {
      assert !RevivesCell(s, ev, c);
    }
    ShapedListed(s, r);
    ShapedInjective(s, r);
    ShapedHome(s, r);
  }

  lemma ShapedListed(s: State, r: State)
    requires OwnCells(s) && Shaped(s, r) && |s.tasks| <= |r.tasks|
    requires forall t :: 0 <= t < |s.tasks| ==> TaskSteps(s.tasks[t], r.tasks[t])
    requires forall c :: c in r.cells && c !in s.cells ==> !Leftover(s, c)
    ensures forall t :: 0 <= t < |r.tasks| && r.tasks[t].phase != Ended && r.tasks[t].cellId in r.cells ==> Own(r, t)
  {
    forall t | 0 <= t < |s.tasks| && r.tasks[t].phase != Ended && r.tasks[t].cellId in r.cells ensures Own(r, t) {
      assert TaskSteps(s.tasks[t], r.tasks[t]);
      if r.tasks[t].cellId !in s.cells {
        assert Leftover(s, r.tasks[t].cellId);
        assert false;
      }
      assert Own(s, t);
    }
  }

  lemma ShapedInjective(s: State, r: State)
    requires WellFormed(s) && OneEach(s) && Shaped(s, r)
    ensures forall c, d :: c in r.cells && d in r.cells && r.cells[c] == r.cells[d] ==> c == d
  {
  }

  lemma ShapedHome(s: State, r: State)
    requires WellFormed(s) && OneEach(s) && Shaped(s, r) && |s.tasks| <= |r.tasks|
    requires forall t :: 0 <= t < |s.tasks| ==> TaskSteps(s.tasks[t], r.tasks[t])
    requires forall c, d :: c in r.cells && d in r.cells && r.cells[c] == r.cells[d] ==> c == d
    ensures forall c, t ::
      c in r.cells && 0 <= t < |r.tasks| && r.tasks[t].phase != Ended && r.cells[c] == r.tasks[t].cell ==> c == r.tasks[t].cellId
  {
  }

  lemma ClosedOwn(s: State)
    requires WellFormed(s) && OwnCells(s)
    ensures OwnCells(Step(s, CloseEnds))
  {
  }

  lemma OwnStep(s: State, ev: Event)
    requires WellFormed(s) && OwnCells(s) && !Revives(s, ev)
    ensures OwnCells(Step(s, ev))
    ensures ev.CloseEnds? || DropsComplete(s, Step(s, ev))
  {
    if ev.CloseEnds? {
      ClosedOwn(s);
    } else {
      StepKeeps(s, ev);
      StepDropsExact(s, ev);
      OwnNotMisdropped(s, ev);
      hide Step, OwnCells, DropsComplete, Misdrops, WellFormed, TasksGrow, Shaped, Revives;
      ShapedOwn(s, Step(s, ev), ev);
    }
  }

  lemma {:induction false} OwnRun(s: State, events: seq<Event>)
    requires WellFormed(s) && OwnCells(s) && NoRevivals(s, events)
    ensures OwnCells(Run(s, events)) && DropsAll(s, events)
    decreases |events|
  {
    if events != [] {
      StepWellFormed(s, events[0]);
      OwnStep(s, events[0]);
      hide Step, OwnCells, DropsComplete, WellFormed, Revives;
      OwnRun(Step(s, events[0]), events[1..]);
    }
  }

  /** As long as no event lists a cell again while a task of the dropped one is unfinished, every
      step of a run drops only complete cells. */
  lemma RunDropsComplete(events: seq<Event>)
    requires NoRevivals(Initial, events)
    ensures DropsAll(Initial, events)
  {
    assert WellFormed(Initial) && OwnCells(Initial);
    hide OwnCells, NoRevivals, DropsAll;
    OwnRun(Initial, events);
  }

  /** Without a collision and without a revival, a cell that a step drops has reached its final
      sequence, and no call of it waits, runs or answers any more. */
  lemma DroppedCellIsQuiet(events: seq<Event>, ev: Event, cellId: nat)
    requires Clear(Initial, events) && NoRevivals(Initial, events) && !ev.CloseEnds?
    requires var s := Run(Initial, events);
      !Collides(s, ev) && !Revives(s, ev) && cellId in s.cells && cellId !in Step(s, ev).cells
    ensures var s := Run(Initial, events);
      var r := Step(s, ev);
      && s.cells[cellId] < |r.objects| && Complete(r.objects[s.cells[cellId]])
      && forall t :: 0 <= t < |r.tasks| && r.tasks[t].cell == s.cells[cellId] ==> !r.tasks[t].Live()
  {
    var s := Run(Initial, events);
    InitialInv();
    assert WellFormed(Initial) && OwnCells(Initial);
    hide OwnCells, NoRevivals, DropsAll, Clear, Collides, Revives;
    RunKeeps(Initial, events);
    OwnRun(Initial, events);
    OwnStep(s, ev);
    StepKeeps(s, ev);
    hide Step;
    CompleteIsQuiet(Step(s, ev), s.cells[cellId]);
  }

  lemma CompleteIsQuiet(s: State, ref: nat)
    requires CellsListed(s) && ref < |s.objects| && Complete(s.objects[ref])
    ensures forall t :: 0 <= t < |s.tasks| && s.tasks[t].cell == ref ==> !s.tasks[t].Live()
  {
  }

  // ---- what a revival leads to ----

  predicate NoCloseEnds(events: seq<Event>) {
    forall i :: 0 <= i < |events| ==> !events[i].CloseEnds?
  }

  /** Objects that no unfinished task finds listed stay complete. */
  lemma LeftStep(s: State, ev: Event)
    requires WellFormed(s) && OwnCells(s) && LeftComplete(s) && !Revives(s, ev) && !ev.CloseEnds?
    ensures LeftComplete(Step(s, ev))
  {
    var r := Step(s, ev);
    StepKeeps(s, ev);
    StepDropsExact(s, ev);
    OwnNotMisdropped(s, ev);
    hide Step, Misdrops, Revives, AllCounted;
    forall t | 0 <= t < |r.tasks| && r.tasks[t].phase != Ended && !Own(r, t)
      ensures r.tasks[t].cell < |r.objects| && Complete(r.objects[r.tasks[t].cell])
    {
      assert t < |s.tasks|;
      assert TaskSteps(s.tasks[t], r.tasks[t]);
      if !Own(s, t) { StaysComplete(s, r, t); }
    }
  }

  lemma StaysComplete(s: State, r: State, t: nat)
    requires WellFormed(s) && OwnCells(s) && Untouched(s, r) && t < |s.tasks| && s.tasks[t].phase != Ended && !Own(s, t)
    requires Complete(s.objects[s.tasks[t].cell])
    ensures s.tasks[t].cell < |r.objects| && Complete(r.objects[s.tasks[t].cell])
  {
    var o := s.tasks[t].cell;
    assert o !in s.cells.Values;
    assert r.objects[o].pending <= s.objects[o].pending;
  }

  lemma {:induction false} LeftRun(s: State, events: seq<Event>)
    requires WellFormed(s) && OwnCells(s) && LeftComplete(s) && NoRevivals(s, events) && NoCloseEnds(events)
    ensures OwnCells(Run(s, events)) && LeftComplete(Run(s, events))
    decreases |events|
  {
    if events != [] {
      StepWellFormed(s, events[0]);
      OwnStep(s, events[0]);
      LeftStep(s, events[0]);
      hide Step, OwnCells, LeftComplete, DropsComplete, WellFormed, Revives;
      LeftRun(Step(s, events[0]), events[1..]);
    }
  }

  /** Task `t` is unfinished, its own object is complete and its cell id names another object. */
  predicate Displaced(s: State, t: nat) {
    && t < |s.tasks| && s.tasks[t].phase != Ended
    && s.tasks[t].cell < |s.objects| && Complete(s.objects[s.tasks[t].cell])
    && s.tasks[t].cellId in s.cells && s.cells[s.tasks[t].cellId] != s.tasks[t].cell
  }

  /** Only a call or a start event lists a cell; tasks there are keep their phase. */
  lemma ListingStep(s: State, ev: Event, cellId: nat)
    requires WellFormed(s) && cellId !in s.cells && cellId in Step(s, ev).cells
    ensures |s.tasks| <= |Step(s, ev).tasks|
    ensures forall t :: 0 <= t < |s.tasks| ==> Step(s, ev).tasks[t].phase == s.tasks[t].phase
  {
    hide Dispatch, Started, CloseCell, Leaving, AbortAll, CancelTool, WellFormed, Fail;
    match ev
    case CallArrives(call) => DispatchPhases(s, call);
    case CellStarted(e, c) => StartedSame(s, e, c);
    case CellClosed(c, final, owner) =>
      if c in s.cells { CloseCellWithin(s, c, final, owner); } else { UnknownCloses(s, c, final, owner); }
    case AdmissionAnswers(_, _, _) => TaskEventShaped(s, ev);
    case ToolReturns(_) => TaskEventShaped(s, ev);
    case HostAnswers(_, _) => TaskEventShaped(s, ev);
    case CloseEnds =>
    case _ => QuietCells(s, ev);
  }

  lemma DispatchPhases(s: State, call: ToolCall)
    requires WellFormed(s)
    ensures |s.tasks| <= |Dispatch(s, call).tasks|
    ensures forall t :: 0 <= t < |s.tasks| ==> Dispatch(s, call).tasks[t].phase == s.tasks[t].phase
  {
    if !s.failed && !s.closed {
      var b := Arrive(s, call);
      ArriveSame(s, call);
      var ref := b.cells[call.cellId];
      hide Arrive, Accept, Fail;
      if call.sequence <= b.objects[ref].highest {
        FailPhases(b);
      } else {
        var c := Advance(b, ref, call.sequence);
        var known := call.execution in s.executions;
        AdvanceSame(b, ref, call.sequence);
        var cancelled, runnable := known && s.executions[call.execution].cancelled, known && call.toolKnown;
        AcceptBears(c, call, ref, cancelled, runnable);
        assert forall t :: 0 <= t < |c.tasks| ==>
          Accept(c, call, ref, cancelled, runnable).tasks[t] == Accept(c, call, ref, cancelled, runnable).tasks[..|c.tasks|][t];
      }
    }
  }

  lemma FailPhases(s: State)
    ensures |Fail(s).tasks| == |s.tasks| && forall t :: 0 <= t < |s.tasks| ==> Fail(s).tasks[t].phase == s.tasks[t].phase
  {
    AbortAllAborts(s);
    hide AbortAll;
  }

  lemma RevivalDisplaces(s: State, ev: Event) returns (t: nat)
    requires WellFormed(s) && OwnCells(s) && LeftComplete(s) && Revives(s, ev) && !ev.CloseEnds?
    ensures Displaced(Step(s, ev), t)
  {
    var c: nat :| RevivesCell(s, ev, c);
    t :| t < |s.tasks| && s.tasks[t].phase != Ended && s.tasks[t].cellId == c;
    var r := Step(s, ev);
    ListingStep(s, ev, c);
    StepKeeps(s, ev);
    StepDropsExact(s, ev);
    hide Step, Misdrops, DropsComplete, AllCounted;
    assert TaskSteps(s.tasks[t], r.tasks[t]);
    assert !Own(s, t);
    StaysComplete(s, r, t);
  }

  // ---- the continuation ----

  /** The new object is given a final sequence that it has not reached. */
  function Reopen(s: State, t: nat): (ev: Event)
    requires Displaced(s, t) && WellFormed(s)
    ensures ev.CellClosed?
  {
    var c := s.tasks[t].cellId;
    CellClosed(c, s.objects[s.cells[c]].highest + 1, None)
  }

  predicate Replaced(s: State, t: nat) {
    Displaced(s, t) && s.cells[s.tasks[t].cellId] < |s.objects| && !Complete(s.objects[s.cells[s.tasks[t].cellId]])
  }

  lemma ReopenReplaces(s: State, t: nat)
    requires WellFormed(s) && Displaced(s, t)
    ensures Replaced(Step(s, Reopen(s, t)), t)
  {
  }

  /** The events that lead a task to its last one. */
  function ToEnd(k: Task, t: nat): seq<Event> {
    if k.aborted || k.phase == Refusing || k.phase == Sending then []
    else if k.phase == Queued then [AdmissionAnswers(t, false, true)]
    else [ToolReturns(t)]
  }

  function LastOf(k: Task, t: nat): Event {
    if k.phase == Queued && k.aborted then AdmissionAnswers(t, false, true)
    else if k.phase == Running && k.aborted then ToolReturns(t)
    else HostAnswers(t, true)
  }

  lemma SendReplaced(s: State, t: nat)
    requires WellFormed(s) && Replaced(s, t)
    ensures WellFormed(Send(s, t)) && Replaced(Send(s, t), t) && Send(s, t).tasks[t].phase == Sending
  {
  }

  lemma ToEndReplaced(s: State, t: nat)
    requires WellFormed(s) && Replaced(s, t)
    ensures var m := Run(s, ToEnd(s.tasks[t], t)); Replaced(m, t) && EndsTask(m, LastOf(s.tasks[t], t))
  {
    var events := ToEnd(s.tasks[t], t);
    hide Replaced;
    if events != [] {
      SendReplaced(s, t);
      assert Step(s, events[0]) == Send(s, t);
      hide Step, Send;
      assert events == [events[0]] + [];
      RunFirst(s, events[0], []);
    }
  }

  lemma ReplacedMisdrops(s: State, t: nat, ev: Event)
    requires WellFormed(s) && Replaced(s, t) && EndsTask(s, ev) && ev.task == t
    ensures Misdrops(s, ev) && !ev.CloseEnds?
  {
  }

  function Misleading(s: State, t: nat): seq<Event>
    requires Displaced(s, t) && WellFormed(s)
  {
    [Reopen(s, t)] + (ToEnd(s.tasks[t], t) + [LastOf(s.tasks[t], t)])
  }

  lemma {:induction false} DropsAllSplit(s: State, a: seq<Event>, b: seq<Event>)
    requires WellFormed(s)
    ensures DropsAll(s, a + b) <==> DropsAll(s, a) && DropsAll(Run(s, a), b)
    decreases |a|
  {
    if a == [] {
      assert a + b == b;
    } else {
      StepWellFormed(s, a[0]);
      assert (a + b)[0] == a[0] && (a + b)[1..] == a[1..] + b;
      hide Step, WellFormed, DropsComplete;
      DropsAllSplit(Step(s, a[0]), a[1..], b);
    }
  }

  lemma {:induction false} NoRevivalsSplit(s: State, a: seq<Event>, b: seq<Event>)
    requires WellFormed(s)
    ensures NoRevivals(s, a + b) <==> NoRevivals(s, a) && NoRevivals(Run(s, a), b)
    decreases |a|
  {
    if a == [] {
      assert a + b == b;
    } else {
      StepWellFormed(s, a[0]);
      assert (a + b)[0] == a[0] && (a + b)[1..] == a[1..] + b;
      hide Step, WellFormed, Revives;
      NoRevivalsSplit(Step(s, a[0]), a[1..], b);
    }
  }

  lemma DisplacedMisleads(s: State, t: nat)
    requires WellFormed(s) && Displaced(s, t)
    ensures !DropsAll(s, Misleading(s, t))
  {
    var m := Step(s, Reopen(s, t));
    ReopenReplaces(s, t);
    StepWellFormed(s, Reopen(s, t));
    ReopenTask(s, t);
    var k := s.tasks[t];
    var tail := ToEnd(k, t) + [LastOf(k, t)];
    hide Step, Replaced, Displaced, Misdrops, DropsComplete, EndsTask, WellFormed, Reopen;
    ToEndReplaced(m, t);
    var n := Run(m, ToEnd(k, t));
    ReplacedMisdrops(n, t, LastOf(k, t));
    StepDropsExact(n, LastOf(k, t));
    assert !DropsAll(n, [LastOf(k, t)]);
    DropsAllSplit(m, ToEnd(k, t), [LastOf(k, t)]);
    assert ([Reopen(s, t)] + tail)[1..] == tail;
  }

  lemma ReopenTask(s: State, t: nat)
    requires WellFormed(s) && Displaced(s, t)
    ensures t < |Step(s, Reopen(s, t)).tasks| && Step(s, Reopen(s, t)).tasks[t] == s.tasks[t]
  {
    hide CloseCell;
    var ev := Reopen(s, t);
    CloseCellSame(s, ev.cellId, ev.final, ev.owner);
  }

  /** Events of tasks and of known cells list nothing. */
  predicate ListsNothing(s: State, ev: Event) {
    ev.AdmissionAnswers? || ev.ToolReturns? || ev.HostAnswers? || (ev.CellClosed? && ev.cellId in s.cells)
  }

  lemma NothingListed(s: State, ev: Event)
    requires WellFormed(s) && ListsNothing(s, ev)
    ensures !Revives(s, ev)
  {
    hide CloseCell, Leaving, WellFormed, Leftover;
    if ev.CellClosed? {
      CloseCellWithin(s, ev.cellId, ev.final, ev.owner);
    } else {
      TaskEventShaped(s, ev);
    }
    hide Step;
    forall c: nat ensures !RevivesCell(s, ev, c) {
    }
  }

  lemma {:induction false} TaskEventsReviveNothing(s: State, events: seq<Event>)
    requires WellFormed(s)
    requires forall i :: 0 <= i < |events| ==> events[i].AdmissionAnswers? || events[i].ToolReturns? || events[i].HostAnswers?
    ensures NoRevivals(s, events)
    decreases |events|
  {
    if events != [] {
      NothingListed(s, events[0]);
      StepWellFormed(s, events[0]);
      hide Step, WellFormed, Revives;
      TaskEventsReviveNothing(Step(s, events[0]), events[1..]);
    }
  }

  lemma MisleadingRevivesNothing(s: State, t: nat)
    requires WellFormed(s) && Displaced(s, t)
    ensures NoRevivals(s, Misleading(s, t)) && NoCloseEnds(Misleading(s, t))
  {
    var k := s.tasks[t];
    var tail := ToEnd(k, t) + [LastOf(k, t)];
    NothingListed(s, Reopen(s, t));
    StepWellFormed(s, Reopen(s, t));
    hide Step, WellFormed, Revives, Displaced, Reopen;
    TaskEventsReviveNothing(Step(s, Reopen(s, t)), tail);
    assert ([Reopen(s, t)] + tail)[1..] == tail;
  }

  // ---- the exact condition ----

  lemma {:induction false} FirstRevival(s: State, events: seq<Event>) returns (k: nat)
    requires WellFormed(s) && !NoRevivals(s, events)
    ensures k < |events| && NoRevivals(s, events[..k]) && Revives(Run(s, events[..k]), events[k])
    decreases |events|
  {
    StepWellFormed(s, events[0]);
    hide Step, WellFormed, Revives;
    if Revives(s, events[0]) {
      k := 0;
    } else {
      var j := FirstRevival(Step(s, events[0]), events[1..]);
      k := j + 1;
      assert events[..k][0] == events[0] && events[..k][1..] == events[1..][..j];
    }
  }

  lemma InitialOwn()
    ensures WellFormed(Initial) && OwnCells(Initial) && LeftComplete(Initial)
  {
  }

  lemma RevivingStepMisleads(s: State, ev: Event) returns (rest: seq<Event>)
    requires WellFormed(s) && OwnCells(s) && LeftComplete(s) && Revives(s, ev) && !ev.CloseEnds?
    ensures NoCloseEnds(rest)
    ensures NoRevivals(Run(s, [ev]), rest) && !DropsAll(s, [ev] + rest)
  {
    hide *;
    StepWellFormed(s, ev);
    var t := RevivalDisplaces(s, ev);
    var r := Step(s, ev);
    rest := Misleading(r, t);
    DisplacedMisleads(r, t);
    MisleadingRevivesNothing(r, t);
    RunOne(s, ev);
    DropsAllSplit(s, [ev], rest);
  }

  lemma NoCloseEndsBefore(events: seq<Event>, j: nat)
    requires NoCloseEnds(events) && j < |events|
    ensures NoCloseEnds(events[..j]) && !events[j].CloseEnds?
  {
  }

  lemma RevivalMisleads(events: seq<Event>) returns (k: nat, rest: seq<Event>)
    requires !NoRevivals(Initial, events) && NoCloseEnds(events)
    ensures k <= |events| && NoCloseEnds(rest)
    ensures NoRevivals(Run(Initial, events[..k]), rest) && !DropsAll(Initial, events[..k] + rest)
  {
    hide *;
    InitialOwn();
    var j := FirstRevival(Initial, events);
    NoCloseEndsBefore(events, j);
    LeftRun(Initial, events[..j]);
    rest := RevivingStepMisleads(Run(Initial, events[..j]), events[j]);
    k := j + 1;
    assert events[..k] == events[..j] + [events[j]];
    assert events[..k] + rest == events[..j] + ([events[j]] + rest);
    RunSplit(Initial, events[..j], [events[j]]);
    DropsAllSplit(Initial, events[..j], [events[j]] + rest);
  }

  /** Continued after `events[..i]` without a revival, the run drops only complete cells. */
  ghost predicate DropHolds(events: seq<Event>, i: nat, rest: seq<Event>)
    requires i <= |events|
  {
    NoCloseEnds(rest) && NoRevivals(Run(Initial, events[..i]), rest) ==> DropsAll(Initial, events[..i] + rest)
  }

  /** Until the close ends: an event listed a cell again while a task of the dropped one was
      unfinished exactly when the run, stopped somewhere and continued without any such event, can
      drop a cell that is not complete. */
  lemma RevivalExact(events: seq<Event>)
    requires NoCloseEnds(events)
    ensures NoRevivals(Initial, events) <==> forall i: nat, rest: seq<Event> :: i <= |events| ==> DropHolds(events, i, rest)
  {
    hide NoRevivals, DropsAll, NoCloseEnds;
    if NoRevivals(Initial, events) {
      forall i: nat, rest: seq<Event> | i <= |events| ensures DropHolds(events, i, rest) {
        assert events == events[..i] + events[i..];
        NoRevivalsSplit(Initial, events[..i], events[i..]);
        NoRevivalsSplit(Initial, events[..i], rest);
        if NoRevivals(Run(Initial, events[..i]), rest) { RunDropsComplete(events[..i] + rest); }
      }
    } else {
      var k, rest := RevivalMisleads(events);
      assert !DropHolds(events, k, rest);
    }
  }

  // ---- the shortest such run ----

  const Refused := Task(1, 5, 0, false, Refusing, 0, 1)
  const Old := Cell(Some(1), 1, {})
  const Revived := State([Old, Cell(None, 0, {})], map[5 := 1], [Refused], map[], [], map[], map[], false, false)

  const Revival: seq<Event> := [
    CallArrives(ToolCall(0, 5, 1, 1, false)), CellClosed(5, 1, None), CellStarted(1, 5)]

  lemma RevivalSteps(a: State, b: State)
    requires a == State([Cell(None, 1, {})], map[5 := 0], [Refused], map[], [], map[], map[], false, false)
    requires b == State([Old], map[], [Refused], map[], [], map[], map[], false, false)
    ensures Dispatch(Initial, Revival[0].call) == a
    ensures CloseCell(a, 5, 1, None) == b
    ensures Started(b, 1, 5) == Revived
  {
    hide WellFormed;
    var m := CellState(b, 5);
    assert m.objects == [Old, Cell(None, 0, {})] && m.cells == map[5 := 1] && m.earlyClosures == map[];
    var n := CellState(Initial, 5);
    assert n.objects == [Cell(None, 0, {})] && n.cells == map[5 := 0] && n.earlyClosures == map[];
    assert Advance(n, 0, 1).objects == [Cell(None, 1, {})];
    var c := a.(objects := [Old]);
    assert MaybeRetire(c, 5, 0) == b;
  }

  lemma AnswerDrops()
    ensures WellFormed(Revived) && Answered(Revived, 0, true).cells == map[]
    ensures Answered(Revived, 0, true).objects == Revived.objects
  {
  }

  lemma RevivalRuns()
    ensures Run(Initial, Revival) == Revived
  {
    var a := State([Cell(None, 1, {})], map[5 := 0], [Refused], map[], [], map[], map[], false, false);
    var b := State([Old], map[], [Refused], map[], [], map[], map[], false, false);
    RevivalSteps(a, b);
    hide Dispatch, CloseCell, Started, Answered;
    assert Step(Initial, Revival[0]) == a && Step(a, Revival[1]) == b && Step(b, Revival[2]) == Revived;
    hide Step;
    RunFirst(Initial, Revival[0], [Revival[1]] + ([Revival[2]] + []));
    RunFirst(a, Revival[1], [Revival[2]] + []);
    RunFirst(b, Revival[2], []);
    assert Revival == [Revival[0]] + ([Revival[1]] + ([Revival[2]] + []));
  }

  /** A late start event lists cell 5 again while an old refusal is on its way; the answer to that
      refusal then drops the new cell, which never reached a final sequence. */
  lemma RevivedCellDroppedEarly()
    ensures Run(Initial, Revival) == Revived
    ensures Run(Revived, [HostAnswers(0, true)]).cells == map[]
    ensures Run(Revived, [HostAnswers(0, true)]).objects[1].finalSequence == None
  {
    RevivalRuns();
    AnswerDrops();
    hide Answered;
    assert Step(Revived, HostAnswers(0, true)) == Answered(Revived, 0, true);
    hide Step;
    RunFirst(Revived, HostAnswers(0, true), []);
    assert [HostAnswers(0, true)] == [HostAnswers(0, true)] + [];
  }
}
