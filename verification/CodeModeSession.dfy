/** The session as an object that its event handlers update. A cell object is a place in
    `objects`, so that a task can keep the cell it started with. */
module CodeModeSessions {
  import opened SessionStates

  class CodeModeSession {
    var objects: seq<Cell>
    var cells: map<nat, nat>
    var tasks: seq<Task>
    var pendingInvocations: map<nat, nat>
    var cancelledInvocations: seq<nat>
    var earlyClosures: map<nat, nat>
    var executions: map<nat, Execution>
    var failed: bool
    var closed: bool

    ghost function View(): State
      reads this
    {
      State(objects, cells, tasks, pendingInvocations, cancelledInvocations, earlyClosures, executions, failed, closed)
    }

    constructor ()
      ensures View() == Initial
    {
      objects, cells, tasks, pendingInvocations := [], map[], [], map[];
      cancelledInvocations, earlyClosures, executions, failed, closed := [], map[], map[], false, false;
    }

    /** `#cellState` */
    method EnsureCell(cellId: nat) returns (ref: nat)
      requires WellFormed(View())
      modifies this
      ensures View() == CellState(old(View()), cellId)
      ensures WellFormed(View()) && cellId in cells && ref == cells[cellId]
    {
      if cellId in cells {
        return cells[cellId];
      }
      ref := |objects|;
      var final := if cellId in earlyClosures then Some(earlyClosures[cellId]) else None;
      objects := objects + [Cell(final, 0, {})];
      earlyClosures := earlyClosures - {cellId};
      cells := cells[cellId := ref];
    }

    /** `#maybeRetireCell`: the loop drops every execution that belongs to the cell. */
    method MaybeRetireCell(cellId: nat, ref: nat)
      requires ref < |objects|
      modifies this
      ensures View() == MaybeRetire(old(View()), cellId, ref)
    {
      var cell := objects[ref];
      if cell.finalSequence.None? || cell.highest < cell.finalSequence.value || |cell.pending| > 0 {
        assert cell.pending == {} ==> |cell.pending| == 0;
        return;
      }
      assert cell.pending == {};
      cells := cells - {cellId};
      var was := executions;
      var left, todo := was, was.Keys;
      while todo != {}
        invariant todo <= was.Keys
        invariant left == map e | e in was && (e in todo || was[e].cell != Some(cellId)) :: was[e]
        decreases |todo|
      {
        var e :| e in todo;
        todo := todo - {e};
        if was[e].cell == Some(cellId) { left := left - {e}; }
      }
      executions := left;
    }

    /** Aborts the tool call behind every pending invocation. */
    method AbortPending()
      requires WellFormed(View())
      modifies this`tasks
      ensures View() == AbortAll(old(View()))
    {
      var was := tasks;
      var now, todo := tasks, pendingInvocations.Keys;
      while todo != {}
        invariant todo <= pendingInvocations.Keys
        invariant |now| == |was|
        invariant forall t :: 0 <= t < |was| ==>
          now[t] == if Aborted(pendingInvocations, todo, t) then AbortTask(was[t]) else was[t]
        decreases |todo|
      {
        var i :| i in todo;
        var t := pendingInvocations[i];
        ghost var before := todo;
        todo := todo - {i};
        now := now[t := AbortTask(now[t])];
        assert forall u :: Aborted(pendingInvocations, todo, u) <==> Aborted(pendingInvocations, before, u) || u == t;
      }
      assert now == AbortAll(View()).tasks by {
        assert forall t :: 0 <= t < |was| ==> (t in PendingTasks(View()) <==> Aborted(pendingInvocations, {}, t));
      }
      tasks := now;
    }

    method Fail()
      requires WellFormed(View())
      modifies this
      ensures View() == SessionStates.Fail(old(View()))
    {
      if closed || failed { return; }
      failed := true;
      AbortPending();
    }

    /** `#close` up to its request to the host. */
    method Close()
      requires WellFormed(View())
      modifies this
      ensures View() == Step(old(View()), CloseBegins)
    {
      if closed { return; }
      closed := true;
      AbortPending();
    }

    /** `#dispatchToolCall` up to its first suspension. */
    method DispatchToolCall(call: ToolCall)
      requires WellFormed(View())
      modifies this
      ensures View() == Dispatch(old(View()), call)
    {
      if failed || closed { return; }
      var known := call.execution in executions;
      var cancelled := known && executions[call.execution].cancelled;
      if known && executions[call.execution].cell.None? {
        executions := executions[call.execution := executions[call.execution].(cell := Some(call.cellId))];
      }
      var ref := EnsureCell(call.cellId);
      if call.sequence <= objects[ref].highest {
        Fail();
        return;
      }
      objects := objects[ref := objects[ref].(highest := call.sequence)];
      Settle(call, ref, cancelled, known && call.toolKnown);
    }

    method Settle(call: ToolCall, ref: nat, cancelled: bool, runnable: bool)
      requires ref < |objects|
      modifies this
      ensures View() == Accept(old(View()), call, ref, cancelled, runnable)
    {
      var task := Task(call.invocation, call.cellId, ref, false, Ended, 0, 0);
      if call.invocation in cancelledInvocations {
        cancelledInvocations := Without(cancelledInvocations, call.invocation);
        tasks := tasks + [task];
        MaybeRetireCell(call.cellId, ref);
      } else if cancelled || !runnable {
        tasks := tasks + [task.(phase := Refusing, sent := 1)];
      } else {
        objects := objects[ref := objects[ref].(pending := objects[ref].pending + {call.invocation})];
        pendingInvocations := pendingInvocations[call.invocation := |tasks|];
        tasks := tasks + [task.(phase := Queued)];
      }
    }

    /** The end of a task that was pending. */
    method FinishTask(t: nat)
      requires WellFormed(View()) && t < |tasks|
      modifies this
      ensures View() == Finish(old(View()), t)
    {
      var k := tasks[t];
      tasks := tasks[t := k.(phase := Ended)];
      pendingInvocations := pendingInvocations - {k.invocation};
      objects := objects[k.cell := objects[k.cell].(pending := objects[k.cell].pending - {k.invocation})];
      MaybeRetireCell(k.cellId, k.cell);
    }

    /** The `toolCallCancelled` event. */
    method CancelInvocation(invocation: nat)
      requires WellFormed(View())
      modifies this
      ensures View() == CancelTool(old(View()), invocation)
    {
      if invocation in pendingInvocations {
        var t := pendingInvocations[invocation];
        tasks := tasks[t := AbortTask(tasks[t])];
        return;
      }
      if |cancelledInvocations| >= MAX_EARLY_CANCELLATIONS {
        cancelledInvocations := cancelledInvocations[1..];
      }
      if invocation !in cancelledInvocations {
        cancelledInvocations := cancelledInvocations + [invocation];
      }
    }

    /** The `cellClosed` event. */
    method CloseCellEvent(cellId: nat, final: nat, owner: Option<nat>)
      requires WellFormed(View())
      modifies this
      ensures View() == CloseCell(old(View()), cellId, final, owner)
    {
      if cellId !in cells {
        if owner.Some? && owner.value in executions { earlyClosures := earlyClosures[cellId := final]; }
        return;
      }
      var ref := cells[cellId];
      objects := objects[ref := objects[ref].(finalSequence := Some(final))];
      MaybeRetireCell(cellId, ref);
    }

    /** The `started` event of an execution stream. */
    method StartCell(execution: nat, cellId: nat)
      requires WellFormed(View())
      modifies this
      ensures View() == Started(old(View()), execution, cellId)
    {
      if execution in executions {
        executions := executions[execution := executions[execution].(cell := Some(cellId))];
      }
      var ref := EnsureCell(cellId);
      MaybeRetireCell(cellId, ref);
    }
  }

  /** Task `t` belongs to a pending invocation that is no longer on the list. */
  ghost predicate Aborted(pending: map<nat, nat>, todo: set<nat>, t: nat) {
    exists i :: i in pending && i !in todo && pending[i] == t
  }
}
