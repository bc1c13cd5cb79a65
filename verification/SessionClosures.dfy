/** When a complete cell is still listed, and that a closure may come before or after the start of
    its cell. */
module SessionClosures {
  import opened SessionStates
  import opened SessionRuns
  import opened SessionTheorems
  import opened SessionCells
  import opened SessionRevivals

  // ---- a listed cell is open, or a refusal of it is on its way ----

  predicate Refuses(s: State, o: nat) {
    exists t: nat | t < |s.tasks| :: s.tasks[t].phase == Refusing && s.tasks[t].cell == o
  }

  /** The listed cell still waits for something: its final sequence, a pending call or the answer
      to a refusal. */
  predicate Waits(s: State, c: nat)
    requires c in s.cells && s.cells[c] < |s.objects|
  {
    !Complete(s.objects[s.cells[c]]) || Refuses(s, s.cells[c])
  }

  predicate AllWait(s: State) {
    forall c :: c in s.cells ==> s.cells[c] < |s.objects| && Waits(s, c)
  }

  /** Only the cell `c0` may have changed, and refusals of other cells are still on their way. */
  predicate OnlyCell(s: State, r: State, c0: nat) {
    && (forall c :: c in r.cells && c != c0 ==>
          && c in s.cells && r.cells[c] == s.cells[c] && s.cells[c] < |s.objects| && r.cells[c] < |r.objects|
          && r.objects[r.cells[c]] == s.objects[s.cells[c]]
          && (Refuses(s, s.cells[c]) ==> Refuses(r, s.cells[c])))
    && (c0 in r.cells ==> r.cells[c0] < |r.objects| && Waits(r, c0))
  }

  lemma OnlyCellWaits(s: State, r: State, c0: nat)
    requires AllWait(s) && OnlyCell(s, r, c0)
    ensures AllWait(r)
  {
    hide Complete, Refuses;
  }

  /** Tasks were at most added or aborted. */
  predicate KeepsPhases(s: State, r: State) {
    && |s.tasks| <= |r.tasks|
    && forall t :: 0 <= t < |s.tasks| ==> r.tasks[t].phase == s.tasks[t].phase && r.tasks[t].cell == s.tasks[t].cell
  }

  lemma PhasesRefuse(s: State, r: State, o: nat)
    requires KeepsPhases(s, r) && Refuses(s, o)
    ensures Refuses(r, o)
  {
    var t: nat :| t < |s.tasks| && s.tasks[t].phase == Refusing && s.tasks[t].cell == o;
    assert r.tasks[t].phase == Refusing && r.tasks[t].cell == o;
  }

  /** A cell that was opened and then looked at waits, if it is still listed. */
  lemma WithinOnly(s: State, b: State, r: State, c0: nat)
    requires WellFormed(s) && OneEach(s) && Opened(s, b, c0) && Within(b, r, c0) && KeepsPhases(s, r)
    requires r.cells == b.cells ==> Waits(r, c0)
    ensures OnlyCell(s, r, c0)
  {
    hide Complete, Refuses;
    assert forall o :: 0 <= o < |s.objects| ==> b.objects[o] == b.objects[..|s.objects|][o];
    forall c | c in r.cells && c != c0
      ensures c in s.cells && r.cells[c] == s.cells[c] && r.objects[r.cells[c]] == s.objects[s.cells[c]]
      ensures Refuses(s, s.cells[c]) ==> Refuses(r, s.cells[c])
    {
      assert c in b.cells && c in s.cells && r.cells[c] == s.cells[c];
      assert s.cells[c] != b.cells[c0];
      if Refuses(s, s.cells[c]) { PhasesRefuse(s, r, s.cells[c]); }
    }
  }

  lemma RetiredWaits(m: State, c0: nat, o: nat)
    requires c0 in m.cells && m.cells[c0] == o && o < |m.objects|
    ensures var r := MaybeRetire(m, c0, o); c0 in r.cells ==> r.cells[c0] < |r.objects| && Waits(r, c0)
  {
    hide Refuses;
  }

  lemma AcceptWaits(c: State, call: ToolCall, ref: nat, cancelled: bool, runnable: bool)
    requires WellFormed(c) && call.cellId in c.cells && ref == c.cells[call.cellId] && ref < |c.objects|
    ensures var r := Accept(c, call, ref, cancelled, runnable);
      call.cellId in r.cells ==> r.cells[call.cellId] < |r.objects| && Waits(r, call.cellId)
  {
    hide WellFormed, Without;
    if call.invocation in c.cancelled {
      var m := Added(c, call, ref, Ended).(cancelled := Without(c.cancelled, call.invocation));
      RetiredWaits(m, call.cellId, ref);
      hide Added, MaybeRetire, Waits;
    } else if cancelled || !runnable {
      var r := Added(c, call, ref, Refusing);
      assert r.tasks[|c.tasks|].phase == Refusing && r.tasks[|c.tasks|].cell == ref;
      assert Refuses(r, ref);
    } else {
      var r := Accept(c, call, ref, cancelled, runnable);
      assert call.invocation in r.objects[ref].pending;
    }
  }

  lemma DispatchWaits(s: State, call: ToolCall)
    requires WellFormed(s) && !s.failed && !s.closed && !Dispatch(s, call).failed
    ensures var r := Dispatch(s, call);
      call.cellId in r.cells ==> r.cells[call.cellId] < |r.objects| && Waits(r, call.cellId)
  {
    var b := Arrive(s, call);
    ArriveSame(s, call);
    hide Arrive, Accept, Waits;
    var ref := b.cells[call.cellId];
    if call.sequence > b.objects[ref].highest {
      var c := Advance(b, ref, call.sequence);
      AdvanceSame(b, ref, call.sequence);
      assert c.cells == b.cells;
      var known := call.execution in s.executions;
      AcceptWaits(c, call, ref, known && s.executions[call.execution].cancelled, known && call.toolKnown);
    }
  }

  lemma CallOnly(s: State, call: ToolCall)
    requires WellFormed(s) && OneEach(s) && AllWait(s) && !s.failed && !s.closed && !Dispatch(s, call).failed
    ensures AllWait(Dispatch(s, call))
  {
    hide Dispatch, Arrive, Opened, Within, OneEach, AllWait, Waits, OnlyCell, WellFormed;
    DispatchWithin(s, call);
    DispatchPhases(s, call);
    DispatchKeeps(s, call);
    DispatchKept(s, Dispatch(s, call));
    DispatchWaits(s, call);
    WithinListed(Arrive(s, call), Dispatch(s, call), call.cellId);
    WithinOnly(s, Arrive(s, call), Dispatch(s, call), call.cellId);
    OnlyCellWaits(s, Dispatch(s, call), call.cellId);
  }

  lemma DispatchKept(s: State, r: State)
    requires Kept(s, r) && |s.tasks| <= |r.tasks| && forall t :: 0 <= t < |s.tasks| ==> r.tasks[t].phase == s.tasks[t].phase
    ensures KeepsPhases(s, r)
  {
    assert forall t :: 0 <= t < |s.tasks| ==> TaskSteps(s.tasks[t], r.tasks[t]);
  }

  lemma WithinListed(b: State, r: State, c0: nat)
    requires Within(b, r, c0)
    ensures r.cells == b.cells ==> c0 in r.cells && r.cells[c0] < |r.objects|
  {
  }

  lemma SameTasksPhases(s: State, r: State)
    requires r.tasks == s.tasks
    ensures KeepsPhases(s, r)
  {
  }

  lemma StartedWaits(s: State, execution: nat, cellId: nat)
    requires WellFormed(s)
    ensures var r := Started(s, execution, cellId);
      cellId in r.cells ==> r.cells[cellId] < |r.objects| && Waits(r, cellId)
  {
    var a :=
      if execution in s.executions
      then s.(executions := s.executions[execution := s.executions[execution].(cell := Some(cellId))])
      else s;
    CellStateSame(a, cellId);
    var b := CellState(a, cellId);
    hide CellState, MaybeRetire, Waits;
    RetiredWaits(b, cellId, b.cells[cellId]);
  }

  lemma StartOnly(s: State, execution: nat, cellId: nat)
    requires WellFormed(s) && OneEach(s) && AllWait(s)
    ensures AllWait(Started(s, execution, cellId))
  {
    hide Started, Opened, Within, OneEach, AllWait, Waits, OnlyCell;
    var r := Started(s, execution, cellId);
    var b := StartedWithin(s, execution, cellId);
    StartedSame(s, execution, cellId);
    SameTasksPhases(s, r);
    StartedWaits(s, execution, cellId);
    WithinListed(b, r, cellId);
    WithinOnly(s, b, r, cellId);
    OnlyCellWaits(s, r, cellId);
  }

  lemma ClosedWaits(s: State, cellId: nat, final: nat, owner: Option<nat>)
    requires WellFormed(s) && cellId in s.cells
    ensures var r := CloseCell(s, cellId, final, owner);
      cellId in r.cells ==> r.cells[cellId] < |r.objects| && Waits(r, cellId)
  {
    var ref := s.cells[cellId];
    var m := s.(objects := s.objects[ref := s.objects[ref].(finalSequence := Some(final))]);
    hide MaybeRetire, Waits;
    RetiredWaits(m, cellId, ref);
  }

  lemma CloseOnly(s: State, cellId: nat, final: nat, owner: Option<nat>)
    requires WellFormed(s) && OneEach(s) && AllWait(s)
    ensures AllWait(CloseCell(s, cellId, final, owner))
  {
    var r := CloseCell(s, cellId, final, owner);
    if cellId in s.cells {
      hide CloseCell, Opened, Within, OneEach, AllWait, Waits, OnlyCell;
      CloseCellWithin(s, cellId, final, owner);
      CloseCellSame(s, cellId, final, owner);
      SameTasksPhases(s, r);
      ClosedWaits(s, cellId, final, owner);
      WithinListed(s, r, cellId);
      WithinOnly(s, s, r, cellId);
      OnlyCellWaits(s, r, cellId);
    } else {
      UnknownCloses(s, cellId, final, owner);
      hide CloseCell;
      SameCellsWait(s, r);
    }
  }

  lemma SameCellsWait(s: State, r: State)
    requires SameCells(s, r) && KeepsPhases(s, r) && AllWait(s)
    ensures AllWait(r)
  {
    hide Complete, Refuses;
    forall c | c in r.cells ensures Waits(r, c) {
      if Refuses(s, s.cells[c]) { PhasesRefuse(s, r, s.cells[c]); }
    }
  }

  // ---- a task that ends ----

  /** One task changed its phase, and the object of its cell may have lost a pending call. */
  predicate OneLess(s: State, m: State, t: nat) {
    && t < |s.tasks| && m.cells == s.cells && |m.objects| == |s.objects| && s.tasks[t].cell < |s.objects|
    && m.objects == s.objects[s.tasks[t].cell := m.objects[s.tasks[t].cell]]
    && |m.tasks| == |s.tasks| && m.tasks == s.tasks[t := m.tasks[t]]
  }

  /** The task's own cell is looked at afterwards, so it is dropped when it is complete. */
  lemma EndOnly(s: State, m: State, t: nat)
    requires WellFormed(s) && OneEach(s) && AllWait(s) && OneLess(s, m, t) && s.tasks[t].phase != Ended
    ensures AllWait(MaybeRetire(m, s.tasks[t].cellId, s.tasks[t].cell))
  {
    var k := s.tasks[t];
    var r := MaybeRetire(m, k.cellId, k.cell);
    assert r.tasks == m.tasks && r.objects == m.objects;
    hide Refuses;
    forall c | c in r.cells ensures r.cells[c] < |r.objects| && Waits(r, c) {
      assert c in s.cells && r.cells[c] == s.cells[c] && Waits(s, c);
      if s.cells[c] == k.cell {
        assert c == k.cellId;
        assert !Complete(m.objects[k.cell]);
      } else if Refuses(s, s.cells[c]) {
        OtherRefuses(s, m, t, s.cells[c]);
        SameRefuses(m, r, s.cells[c]);
      }
    }
  }

  lemma OtherRefuses(s: State, m: State, t: nat, o: nat)
    requires OneLess(s, m, t) && s.tasks[t].cell != o && Refuses(s, o)
    ensures Refuses(m, o)
  {
    var u: nat :| u < |s.tasks| && s.tasks[u].phase == Refusing && s.tasks[u].cell == o;
    assert m.tasks[u].phase == Refusing && m.tasks[u].cell == o;
  }

  lemma SameRefuses(m: State, r: State, o: nat)
    requires r.tasks == m.tasks && Refuses(m, o)
    ensures Refuses(r, o)
  {
  }

  lemma FinishOnly(s: State, t: nat)
    requires WellFormed(s) && OneEach(s) && AllWait(s) && t < |s.tasks| && s.tasks[t].phase != Ended
    ensures AllWait(Finish(s, t))
  {
    var m := Unlist(s, t);
    assert OneLess(s, m, t);
    hide Unlist, AllWait, OneEach, MaybeRetire;
    EndOnly(s, m, t);
  }

  lemma AnswerOnly(s: State, t: nat, ok: bool)
    requires WellFormed(s) && OneEach(s) && AllWait(s) && (InPhase(s, t, Refusing) || InPhase(s, t, Sending))
    requires !Answered(s, t, ok).failed && !Answered(s, t, ok).closed
    ensures AllWait(Answered(s, t, ok))
  {
    hide AllWait, OneEach, MaybeRetire, Finish;
    var k := s.tasks[t];
    if k.phase == Refusing {
      var m := s.(tasks := s.tasks[t := k.(phase := Ended)]);
      assert OneLess(s, m, t);
      EndOnly(s, m, t);
    } else {
      FinishOnly(s, t);
    }
  }

  /** A task moves on within the live phases. */
  lemma MoveOnly(s: State, r: State, t: nat)
    requires AllWait(s) && SameCells(s, r) && t < |s.tasks| && |r.tasks| == |s.tasks| && r.tasks == s.tasks[t := r.tasks[t]]
    requires s.tasks[t].phase != Refusing
    ensures AllWait(r)
  {
    hide Complete, Refuses;
    forall c | c in r.cells ensures Waits(r, c) {
      if Refuses(s, s.cells[c]) { MovedRefuses(s, r, t, s.cells[c]); }
    }
  }

  lemma MovedRefuses(s: State, r: State, t: nat, o: nat)
    requires t < |s.tasks| && |r.tasks| == |s.tasks| && r.tasks == s.tasks[t := r.tasks[t]] && s.tasks[t].phase != Refusing && Refuses(s, o)
    ensures Refuses(r, o)
  {
    var u: nat :| u < |s.tasks| && s.tasks[u].phase == Refusing && s.tasks[u].cell == o;
    assert r.tasks[u].phase == Refusing && r.tasks[u].cell == o;
  }

  lemma TaskEventOnly(s: State, ev: Event)
    requires WellFormed(s) && OneEach(s) && AllWait(s) && (ev.AdmissionAnswers? || ev.ToolReturns? || ev.HostAnswers?)
    requires !Step(s, ev).failed && !Step(s, ev).closed
    ensures AllWait(Step(s, ev))
  {
    hide AllWait, OneEach, Finish, Answered, Send, SameCells;
    var t := ev.task;
    if t < |s.tasks| {
      if s.tasks[t].Live() { FinishOnly(s, t); }
      SendCells(s, t);
      if InPhase(s, t, Queued) || InPhase(s, t, Running) { SendMoves(s, t); MoveOnly(s, Send(s, t), t); }
      if InPhase(s, t, Queued) && !s.tasks[t].aborted { MoveOnly(s, Admitted(s, t, true, true), t); }
      if ev.HostAnswers? && (InPhase(s, t, Refusing) || InPhase(s, t, Sending)) { AnswerOnly(s, t, ev.ok); }
    }
  }

  lemma SendMoves(s: State, t: nat)
    requires t < |s.tasks|
    ensures |Send(s, t).tasks| == |s.tasks| && Send(s, t).tasks == s.tasks[t := Send(s, t).tasks[t]]
  {
  }

  lemma QuietWait(s: State, ev: Event)
    requires WellFormed(s) && AllWait(s) && !s.closed && !Step(s, ev).closed
    requires !ev.CallArrives? && !ev.CellClosed? && !ev.CellStarted? && !ev.AdmissionAnswers? && !ev.ToolReturns? && !ev.HostAnswers?
    ensures AllWait(Step(s, ev))
  {
    hide AllWait, CancelTool, AbortAll, Fail, WellFormed, SameCells;
    var r := Step(s, ev);
    if ev.CloseEnds? {
    } else {
      QuietCells(s, ev);
      QuietPhases(s, ev);
      SameCellsWait(s, r);
    }
  }

  lemma QuietPhases(s: State, ev: Event)
    requires WellFormed(s)
    requires !ev.CallArrives? && !ev.CellClosed? && !ev.CellStarted? && !ev.AdmissionAnswers? && !ev.ToolReturns? && !ev.HostAnswers?
    ensures KeepsPhases(s, Step(s, ev))
  {
    hide AbortAll, CancelTool, Fail, WellFormed;
    AbortAllAborts(s);
    FailPhases(s);
    FailKeeps(s);
    if ev.ToolCancelled? { CancelPhases(s, ev.invocation); }
    if ev.StreamFails? { DispatchKept(s, Fail(s)); }
  }

  lemma CancelPhases(s: State, invocation: nat)
    requires WellFormed(s)
    ensures KeepsPhases(s, CancelTool(s, invocation))
  {
    hide Remember;
  }

  lemma OneEachStep(s: State, ev: Event)
    requires WellFormed(s) && OneEach(s)
    ensures OneEach(Step(s, ev))
  {
    hide Step, OneEach, Misdrops, DropsComplete;
    var r := Step(s, ev);
    if ev.CloseEnds? {
      ClosedOneEach(s);
    } else {
      StepKeeps(s, ev);
      StepDropsExact(s, ev);
      assert forall t :: 0 <= t < |s.tasks| ==> TaskSteps(s.tasks[t], r.tasks[t]);
      ShapedInjective(s, r);
      ShapedHome(s, r);
      OneEachFrom(r);
    }
  }

  lemma OneEachFrom(r: State)
    requires forall c, d :: c in r.cells && d in r.cells && r.cells[c] == r.cells[d] ==> c == d
    requires forall c, t ::
      c in r.cells && 0 <= t < |r.tasks| && r.tasks[t].phase != Ended && r.cells[c] == r.tasks[t].cell ==> c == r.tasks[t].cellId
    ensures OneEach(r)
  {
  }

  lemma ClosedOneEach(s: State)
    requires WellFormed(s) && OneEach(s)
    ensures OneEach(Step(s, CloseEnds))
  {
  }

  lemma WaitStep(s: State, ev: Event)
    requires WellFormed(s) && OneEach(s) && AllWait(s) && !s.failed && !s.closed
    ensures Step(s, ev).failed || Step(s, ev).closed || AllWait(Step(s, ev))
  {
    hide OneEach, AllWait, Dispatch, Started, CloseCell;
    if !Step(s, ev).failed && !Step(s, ev).closed {
      match ev {
        case CallArrives(call) => CallOnly(s, call);
        case CellStarted(e, cellId) => StartOnly(s, e, cellId);
        case CellClosed(cellId, final, owner) => CloseOnly(s, cellId, final, owner);
        case AdmissionAnswers(_, _, _) => TaskEventOnly(s, ev);
        case ToolReturns(_) => TaskEventOnly(s, ev);
        case HostAnswers(_, _) => TaskEventOnly(s, ev);
        case _ =>
          hide Step;
          QuietWait(s, ev);
      }
    }
  }

  lemma {:induction false} WaitRun(s: State, events: seq<Event>)
    requires WellFormed(s) && OneEach(s) && (Halted(s) || AllWait(s))
    ensures Halted(Run(s, events)) || AllWait(Run(s, events))
    decreases |events|
  {
    if events != [] {
      StepWellFormed(s, events[0]);
      OneEachStep(s, events[0]);
      StepBears(s, events[0]);
      if !Halted(s) { WaitStep(s, events[0]); }
      hide Step, OneEach, AllWait, WellFormed;
      WaitRun(Step(s, events[0]), events[1..]);
    }
  }

  /** In every run, until a failure or a close, a listed cell has not reached its final sequence,
      or a call of it is pending, or a refusal of one is on its way: no complete cell is forgotten. */
  lemma NoCellForgotten(events: seq<Event>, c: nat)
    requires var s := Run(Initial, events); !Halted(s) && c in s.cells
    ensures var s := Run(Initial, events);
      && s.cells[c] < |s.objects|
      && var o := s.objects[s.cells[c]];
         || o.finalSequence.None? || o.highest < o.finalSequence.value || o.pending != {}
         || exists t: nat :: t < |s.tasks| && s.tasks[t].phase == Refusing && s.tasks[t].cell == s.cells[c]
  {
    assert WellFormed(Initial) && OneEach(Initial) && AllWait(Initial);
    hide OneEach;
    WaitRun(Initial, events);
    assert Waits(Run(Initial, events), c);
  }
}
