/** When a session drops a cell, and when it drops the wrong one. */
module SessionCells {
  import opened SessionStates
  import opened SessionRuns
  import opened SessionTheorems

  /** Every cell that `r` no longer lists was complete. */
  predicate DropsComplete(s: State, r: State) {
    && |s.objects| <= |r.objects|
    && forall c :: c in s.cells ==>
         s.cells[c] < |r.objects| && ((c in r.cells && r.cells[c] == s.cells[c]) || Complete(r.objects[s.cells[c]]))
  }

  // ---- one step ----

  /** The event ends a task, and the task's cell is looked at. */
  predicate EndsTask(s: State, ev: Event) {
    || (ev.AdmissionAnswers? && InPhase(s, ev.task, Queued) && s.tasks[ev.task].aborted)
    || (ev.ToolReturns? && InPhase(s, ev.task, Running) && s.tasks[ev.task].aborted)
    || (ev.HostAnswers? && (InPhase(s, ev.task, Sending) || (InPhase(s, ev.task, Refusing) && ev.ok)))
  }

  /** The object of a task once the task has left it. */
  function Leaving(s: State, t: nat): Cell
    requires WellFormed(s) && t < |s.tasks|
  {
    var k := s.tasks[t];
    var cell := s.objects[k.cell];
    if k.phase == Refusing then cell else cell.(pending := cell.pending - {k.invocation})
  }

  /** The event ends a task whose own object is complete while its cell id has come to name
      another object, which is not. */
  predicate Misdrops(s: State, ev: Event)
    requires WellFormed(s)
  {
    && EndsTask(s, ev)
    && var k := s.tasks[ev.task];
       && k.cellId in s.cells && s.cells[k.cellId] != k.cell
       && Complete(Leaving(s, ev.task)) && !Complete(s.objects[s.cells[k.cellId]])
  }

  predicate NoNewCells(s: State, r: State) {
    forall c :: c in r.cells ==> c in s.cells && r.cells[c] == s.cells[c]
  }

  predicate KeepsCells(s: State, r: State) {
    |s.objects| <= |r.objects| && forall c :: c in s.cells ==> c in r.cells && r.cells[c] == s.cells[c]
  }

  lemma RetireExact(s: State, cellId: nat, ref: nat)
    requires WellFormed(s) && ref < |s.objects|
    ensures NoNewCells(s, MaybeRetire(s, cellId, ref))
    ensures DropsComplete(s, MaybeRetire(s, cellId, ref)) <==>
      !(cellId in s.cells && s.cells[cellId] != ref && Complete(s.objects[ref]) && !Complete(s.objects[s.cells[cellId]]))
  {
  }

  /** The parts of a state that decide what is dropped. */
  predicate SameCells(s: State, r: State) {
    r.cells == s.cells && r.objects == s.objects
  }

  lemma FailCells(s: State)
    ensures SameCells(s, Fail(s))
  {
  }

  lemma FinishExact(s: State, t: nat)
    requires WellFormed(s) && t < |s.tasks| && s.tasks[t].Live()
    ensures NoNewCells(s, Finish(s, t))
    ensures var k := s.tasks[t];
      DropsComplete(s, Finish(s, t)) <==>
        !(k.cellId in s.cells && s.cells[k.cellId] != k.cell && Complete(Leaving(s, t)) && !Complete(s.objects[s.cells[k.cellId]]))
  {
    var m, k := Unlist(s, t), s.tasks[t];
    UnlistOne(s, t);
    assert m.cells == s.cells && m.objects == s.objects[k.cell := Leaving(s, t)];
    hide Unlist, MaybeRetire, Leaving;
    RetireExact(m, k.cellId, k.cell);
    RetireObjects(m, k.cellId, k.cell);
    var r := Finish(s, t);
    assert r.objects == m.objects;
    UnlistedDrops(s, m, r, t);
  }

  lemma RetireObjects(s: State, cellId: nat, ref: nat)
    requires ref < |s.objects|
    ensures MaybeRetire(s, cellId, ref).objects == s.objects
    ensures forall c :: c in s.cells && c != cellId ==> c in MaybeRetire(s, cellId, ref).cells && MaybeRetire(s, cellId, ref).cells[c] == s.cells[c]
  {
  }

  /** Taking a task out of its cell does not change which drops count as complete. */
  lemma UnlistedDrops(s: State, m: State, r: State, t: nat)
    requires WellFormed(s) && t < |s.tasks| && m.cells == s.cells && m.objects == s.objects[s.tasks[t].cell := Leaving(s, t)]
    requires r.objects == m.objects
    ensures DropsComplete(s, r) <==> DropsComplete(m, r)
  {
  }

  lemma AnsweredExact(s: State, t: nat, ok: bool)
    requires WellFormed(s) && (InPhase(s, t, Refusing) || InPhase(s, t, Sending))
    ensures NoNewCells(s, Answered(s, t, ok))
    ensures DropsComplete(s, Answered(s, t, ok)) <==> !Misdrops(s, HostAnswers(t, ok))
  {
    hide MaybeRetire, Finish, Fail;
    var k := s.tasks[t];
    var r := if k.phase == Refusing then s.(tasks := s.tasks[t := k.(phase := Ended)]) else Finish(s, t);
    if k.phase == Refusing {
      assert WellFormed(r) && SameCells(s, r);
      RetireExact(r, k.cellId, k.cell);
    } else {
      FinishExact(s, t);
    }
    FailCells(r);
  }

  lemma SendCells(s: State, t: nat)
    requires WellFormed(s) && t < |s.tasks|
    ensures SameCells(s, Send(s, t))
    ensures !s.tasks[t].aborted ==> SameCells(s, Admitted(s, t, true, true))
  {
  }

  lemma TaskEventExact(s: State, ev: Event)
    requires WellFormed(s) && (ev.AdmissionAnswers? || ev.ToolReturns? || ev.HostAnswers?)
    ensures NoNewCells(s, Step(s, ev))
    ensures DropsComplete(s, Step(s, ev)) <==> !Misdrops(s, ev)
  {
    hide Finish, Answered, Send, DropsComplete, NoNewCells, Leaving;
    var t := ev.task;
    SameDrops(s, s);
    if t < |s.tasks| {
      if s.tasks[t].Live() {
        FinishExact(s, t);
        SendCells(s, t);
        SameDrops(s, Send(s, t));
        if InPhase(s, t, Queued) && !s.tasks[t].aborted { SameDrops(s, Admitted(s, t, true, true)); }
      }
      if ev.HostAnswers? && (InPhase(s, t, Refusing) || InPhase(s, t, Sending)) { AnsweredExact(s, t, ev.ok); }
    }
  }

  lemma SameDrops(s: State, r: State)
    requires WellFormed(s) && SameCells(s, r)
    ensures DropsComplete(s, r) && NoNewCells(s, r)
  {
  }

  // ---- what every step does to the cells ----

  predicate Own(s: State, t: nat)
    requires t < |s.tasks|
  {
    s.tasks[t].cellId in s.cells && s.cells[s.tasks[t].cellId] == s.tasks[t].cell
  }

  /** Only listed objects change, but for calls that leave. */
  predicate Untouched(s: State, r: State) {
    && |s.objects| <= |r.objects|
    && forall o :: 0 <= o < |s.objects| && o !in s.cells.Values ==>
         r.objects[o].finalSequence == s.objects[o].finalSequence && r.objects[o].highest == s.objects[o].highest
         && r.objects[o].pending <= s.objects[o].pending
  }

  /** At most one cell is listed anew, with a new object, and a new unfinished task has its own
      object listed. */
  predicate Shaped(s: State, r: State) {
    && (forall c :: c in r.cells && c in s.cells ==> r.cells[c] == s.cells[c])
    && (forall c :: c in r.cells && c !in s.cells ==> r.cells[c] >= |s.objects|)
    && (forall c, d :: c in r.cells && c !in s.cells && d in r.cells && d !in s.cells ==> c == d)
    && (forall t :: |s.tasks| <= t < |r.tasks| && r.tasks[t].phase != Ended ==> Own(r, t))
  }

  lemma NoNewShaped(s: State, r: State)
    requires NoNewCells(s, r) && |r.tasks| == |s.tasks|
    ensures Shaped(s, r)
  {
  }

  lemma UnlistUntouched(s: State, t: nat)
    requires WellFormed(s) && t < |s.tasks|
    ensures Untouched(s, Finish(s, t))
  {
    var m := Unlist(s, t);
    assert Untouched(s, m);
    hide Unlist, MaybeRetire;
    RetireObjects(m, s.tasks[t].cellId, s.tasks[t].cell);
  }

  lemma SameUntouched(s: State, r: State)
    requires r.objects == s.objects
    ensures Untouched(s, r)
  {
  }

  lemma TaskEventUntouched(s: State, ev: Event)
    requires WellFormed(s) && (ev.AdmissionAnswers? || ev.ToolReturns? || ev.HostAnswers?)
    ensures Untouched(s, Step(s, ev))
  {
    hide Finish, Send, Untouched, Answered;
    var t := ev.task;
    SameUntouched(s, s);
    if t < |s.tasks| {
      UnlistUntouched(s, t);
      SendCells(s, t);
      SameUntouched(s, Send(s, t));
      if !s.tasks[t].aborted { SameUntouched(s, Admitted(s, t, true, true)); }
      if ev.HostAnswers? { AnsweredUntouched(s, t, ev.ok); }
    }
  }

  lemma AnsweredUntouched(s: State, t: nat, ok: bool)
    requires WellFormed(s) && t < |s.tasks|
    ensures Untouched(s, Answered(s, t, ok))
  {
    hide Finish, Untouched, Fail, MaybeRetire;
    var k := s.tasks[t];
    if k.phase == Refusing {
      var r := s.(tasks := s.tasks[t := k.(phase := Ended)]);
      FailCells(r);
      RetireObjects(r, k.cellId, k.cell);
      SameUntouched(s, Answered(s, t, ok));
    } else {
      UnlistUntouched(s, t);
      FailCells(Finish(s, t));
      UntouchedSame(s, Finish(s, t), Fail(Finish(s, t)));
    }
  }

  lemma UntouchedSame(s: State, m: State, r: State)
    requires Untouched(s, m) && r.objects == m.objects
    ensures Untouched(s, r)
  {
  }

  /** The result of `#cellState`: the cell is listed, everything else as before. */
  predicate Opened(s: State, r: State, cellId: nat) {
    && KeepsCells(s, r) && r.tasks == s.tasks && cellId in r.cells
    && r.objects[..|s.objects|] == s.objects
    && (forall c :: c in r.cells && c !in s.cells ==> c == cellId && r.cells[c] == |s.objects|)
    && (forall c :: c in r.cells ==> r.cells[c] < |r.objects|)
  }

  lemma CellStateOpens(s: State, cellId: nat)
    requires WellFormed(s)
    ensures Opened(s, CellState(s, cellId), cellId)
  {
  }

  lemma ArriveOpens(s: State, call: ToolCall)
    requires WellFormed(s)
    ensures Opened(s, Arrive(s, call), call.cellId)
  {
    hide CellState;
    var e := call.execution;
    var a := if e in s.executions && s.executions[e].cell.None?
      then s.(executions := s.executions[e := s.executions[e].(cell := Some(call.cellId))])
      else s;
    CellStateOpens(a, call.cellId);
  }

  /** From an opened cell on: only its object changes, it may be dropped when complete, and a task
      of it may be added. */
  predicate Within(b: State, r: State, cellId: nat) {
    && cellId in b.cells && |r.objects| == |b.objects| && b.cells[cellId] < |b.objects|
    && r.objects == b.objects[b.cells[cellId] := r.objects[b.cells[cellId]]]
    && (r.cells == b.cells || (r.cells == b.cells - {cellId} && Complete(r.objects[b.cells[cellId]])))
    && |b.tasks| <= |r.tasks|
    && (forall t :: |b.tasks| <= t < |r.tasks| && r.tasks[t].phase != Ended ==>
          r.cells == b.cells && r.tasks[t].cellId == cellId && r.tasks[t].cell == b.cells[cellId])
  }

  lemma OpenedWithin(s: State, b: State, r: State, cellId: nat)
    requires WellFormed(s) && Opened(s, b, cellId) && Within(b, r, cellId)
    ensures Untouched(s, r) && Shaped(s, r) && DropsComplete(s, r)
  {
    var ref := b.cells[cellId];
    assert forall o :: 0 <= o < |s.objects| ==> b.objects[o] == b.objects[..|s.objects|][o];
    assert cellId in s.cells ==> ref in s.cells.Values;
    assert forall c :: c in r.cells ==> c in b.cells && r.cells[c] == b.cells[c];
    assert Untouched(s, r);
    assert DropsComplete(s, r);
  }

  lemma AcceptWithin(b: State, c: State, call: ToolCall, ref: nat, cancelled: bool, runnable: bool)
    requires WellFormed(c) && call.cellId in b.cells && ref == b.cells[call.cellId] && ref < |b.objects|
    requires c.cells == b.cells && c.tasks == b.tasks && |c.objects| == |b.objects| && c.objects == b.objects[ref := c.objects[ref]]
    ensures Within(b, Accept(c, call, ref, cancelled, runnable), call.cellId)
  {
    hide Without, WellFormed;
    if call.invocation in c.cancelled {
      var m := Added(c, call, ref, Ended).(cancelled := Without(c.cancelled, call.invocation));
      assert Within(b, m, call.cellId);
      hide Added;
      RetireWithin(b, m, call.cellId);
    }
  }

  lemma RetireWithin(b: State, m: State, cellId: nat)
    requires Within(b, m, cellId) && m.cells == b.cells && forall t :: |b.tasks| <= t < |m.tasks| ==> m.tasks[t].phase == Ended
    ensures Within(b, MaybeRetire(m, cellId, b.cells[cellId]), cellId)
  {
  }

  lemma FailWithin(b: State, cellId: nat)
    requires WellFormed(b) && cellId in b.cells
    ensures Within(b, Fail(b), cellId)
  {
  }

  /** A call and a start event first open their cell. */
  lemma DispatchWithin(s: State, call: ToolCall)
    requires WellFormed(s) && !s.failed && !s.closed
    ensures Opened(s, Arrive(s, call), call.cellId) && Within(Arrive(s, call), Dispatch(s, call), call.cellId)
  {
    hide Arrive, Accept, Fail, Within, Opened;
    var b := Arrive(s, call);
    ArriveOpens(s, call);
    ArriveSame(s, call);
    var ref := b.cells[call.cellId];
    if call.sequence <= b.objects[ref].highest {
      FailWithin(b, call.cellId);
    } else {
      var c := Advance(b, ref, call.sequence);
      AdvanceSame(b, ref, call.sequence);
      var known := call.execution in s.executions;
      AcceptWithin(b, c, call, ref, known && s.executions[call.execution].cancelled, known && call.toolKnown);
    }
  }

  lemma StartedWithin(s: State, execution: nat, cellId: nat) returns (b: State)
    requires WellFormed(s)
    ensures Opened(s, b, cellId) && Within(b, Started(s, execution, cellId), cellId)
  {
    var a :=
      if execution in s.executions
      then s.(executions := s.executions[execution := s.executions[execution].(cell := Some(cellId))])
      else s;
    CellStateOpens(a, cellId);
    CellStateSame(a, cellId);
    b := CellState(a, cellId);
    hide CellState, MaybeRetire;
    assert Within(b, b, cellId);
    RetireWithin(b, b, cellId);
  }

  lemma CloseCellWithin(s: State, cellId: nat, final: nat, owner: Option<nat>)
    requires WellFormed(s) && cellId in s.cells
    ensures Opened(s, s, cellId) && Within(s, CloseCell(s, cellId, final, owner), cellId)
  {
    var ref := s.cells[cellId];
    var m := s.(objects := s.objects[ref := s.objects[ref].(finalSequence := Some(final))]);
    assert Within(s, m, cellId);
    hide MaybeRetire;
    RetireWithin(s, m, cellId);
  }

  lemma SameShaped(s: State, r: State)
    requires WellFormed(s) && SameCells(s, r) && |r.tasks| == |s.tasks|
    ensures Untouched(s, r) && Shaped(s, r) && DropsComplete(s, r)
  {
  }

  /** Every step but the end of a close drops only complete cells, except exactly when it ends a
      task whose complete object was replaced under its cell id by an incomplete one. */
  lemma StepDropsExact(s: State, ev: Event)
    requires WellFormed(s) && !ev.CloseEnds?
    ensures DropsComplete(s, Step(s, ev)) <==> !Misdrops(s, ev)
    ensures Untouched(s, Step(s, ev)) && Shaped(s, Step(s, ev))
  {
    hide DropsComplete, Untouched, Shaped, Opened, Within, Dispatch, Started, CloseCell, Leaving, AbortAll, CancelTool, WellFormed;
    var r := Step(s, ev);
    match ev
    case CallArrives(call) =>
      if s.failed || s.closed {
        DispatchBears(s, call);
        SameShaped(s, s);
      } else {
        DispatchWithin(s, call);
        OpenedWithin(s, Arrive(s, call), r, call.cellId);
      }
    case CellStarted(e, cellId) =>
      var b := StartedWithin(s, e, cellId);
      OpenedWithin(s, b, r, cellId);
    case CellClosed(cellId, final, owner) =>
      if cellId in s.cells {
        CloseCellWithin(s, cellId, final, owner);
        OpenedWithin(s, s, r, cellId);
      } else {
        UnknownCloses(s, cellId, final, owner);
        SameShaped(s, r);
      }
    case AdmissionAnswers(_, _, _) => TaskEventShaped(s, ev);
    case ToolReturns(_) => TaskEventShaped(s, ev);
    case HostAnswers(_, _) => TaskEventShaped(s, ev);
    case _ =>
      QuietCells(s, ev);
      SameShaped(s, r);
  }

  lemma UnknownCloses(s: State, cellId: nat, final: nat, owner: Option<nat>)
    requires WellFormed(s) && cellId !in s.cells
    ensures SameCells(s, CloseCell(s, cellId, final, owner)) && CloseCell(s, cellId, final, owner).tasks == s.tasks
  {
  }

  lemma TaskEventShaped(s: State, ev: Event)
    requires WellFormed(s) && (ev.AdmissionAnswers? || ev.ToolReturns? || ev.HostAnswers?)
    ensures DropsComplete(s, Step(s, ev)) <==> !Misdrops(s, ev)
    ensures Untouched(s, Step(s, ev)) && Shaped(s, Step(s, ev)) && NoNewCells(s, Step(s, ev))
  {
    hide *;
    StepBears(s, ev);
    TaskEventExact(s, ev);
    TaskEventUntouched(s, ev);
    NoNewShaped(s, Step(s, ev));
  }

  lemma QuietCells(s: State, ev: Event)
    requires WellFormed(s) && !ev.CloseEnds? && !ev.CallArrives? && !ev.CellClosed? && !ev.CellStarted?
    requires !ev.AdmissionAnswers? && !ev.ToolReturns? && !ev.HostAnswers?
    ensures SameCells(s, Step(s, ev)) && |Step(s, ev).tasks| == |s.tasks|
  {
    StepBears(s, ev);
    AbortAllAborts(s);
    FailCells(s);
    hide CancelTool, AbortAll, Fail, WellFormed;
    if ev.ToolCancelled? { CancelCells(s, ev.invocation); }
  }

  lemma CancelCells(s: State, invocation: nat)
    requires WellFormed(s)
    ensures SameCells(s, CancelTool(s, invocation))
  {
    hide Remember;
  }
}
