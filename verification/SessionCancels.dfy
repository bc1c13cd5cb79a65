/** Cancelled tool calls: which task a cancellation stops, and how long an early cancellation of a
    call that has not arrived yet is remembered. */
module SessionCancels {
  import opened SessionStates
  import opened SessionRuns
  import opened SessionTheorems

  // ---- what the pending table knows about one invocation id ----

  /** The table never lists a task under an id that is not its own. */
  predicate PendingOwn(s: State) {
    forall i :: i in s.pending ==> s.pending[i] < |s.tasks| && s.tasks[s.pending[i]].invocation == i
  }

  /** The table lists the only live task of this id, if there is one. */
  predicate Sole(s: State, id: nat) {
    && PendingOwn(s)
    && (id in s.pending ==> s.tasks[s.pending[id]].Live())
    && (forall t :: 0 <= t < |s.tasks| && s.tasks[t].Live() && s.tasks[t].invocation == id
          ==> id in s.pending && s.pending[id] == t)
  }

  /** No task is added, renamed, listed or unlisted, and none becomes or ceases to be live. */
  predicate Steady(s: State, r: State) {
    && |r.tasks| == |s.tasks| && r.pending == s.pending
    && forall t :: 0 <= t < |s.tasks| ==>
         r.tasks[t].invocation == s.tasks[t].invocation && r.tasks[t].Live() == s.tasks[t].Live()
  }

  /** Exactly one live task ended and left the table. */
  predicate Left(s: State, r: State, t: nat) {
    && t < |s.tasks| && |r.tasks| == |s.tasks| && s.tasks[t].Live() && !r.tasks[t].Live()
    && r.pending == s.pending - {s.tasks[t].invocation}
    && forall u :: 0 <= u < |s.tasks| ==>
         r.tasks[u].invocation == s.tasks[u].invocation && (u != t ==> r.tasks[u].Live() == s.tasks[u].Live())
  }

  /** A task was added; a live one is listed under its id. */
  predicate Joined(s: State, r: State) {
    && |r.tasks| == |s.tasks| + 1
    && (forall t :: 0 <= t < |s.tasks| ==> r.tasks[t] == s.tasks[t])
    && r.pending == if r.tasks[|s.tasks|].Live() then s.pending[r.tasks[|s.tasks|].invocation := |s.tasks|] else s.pending
  }

  lemma SteadySole(s: State, r: State, id: nat)
    requires PendingOwn(s) && Steady(s, r)
    ensures PendingOwn(r)
    ensures Sole(s, id) ==> Sole(r, id)
  {
  }

  lemma LeftSole(s: State, r: State, t: nat, id: nat)
    requires PendingOwn(s) && Left(s, r, t)
    ensures PendingOwn(r)
    ensures Sole(s, id) ==> Sole(r, id)
  {
  }

  lemma JoinedSole(s: State, r: State, id: nat)
    requires PendingOwn(s) && Joined(s, r)
    ensures PendingOwn(r)
    ensures Sole(s, id) && (id !in s.pending || r.tasks[|s.tasks|].invocation != id || !r.tasks[|s.tasks|].Live()) ==> Sole(r, id)
  {
  }

  lemma SameSteady(s: State, r: State)
    requires Same(s, r)
    ensures Steady(s, r)
  {
  }

  lemma AbortsSteady(s: State, r: State)
    requires Aborts(s, r)
    ensures Steady(s, r)
  {
  }

  lemma FailSteady(s: State)
    ensures Steady(s, Fail(s))
  {
    AbortAllAborts(s);
    hide AbortAll;
    if !s.closed && !s.failed { AbortsSteady(s, AbortAll(s)); }
  }

  lemma FinishLeft(s: State, t: nat)
    requires WellFormed(s) && t < |s.tasks| && s.tasks[t].Live()
    ensures Left(s, Finish(s, t), t)
  {
    var m := Unlist(s, t);
    UnlistOne(s, t);
    assert Left(s, m, t);
    hide Unlist, MaybeRetire;
    MaybeRetireSame(m, s.tasks[t].cellId, s.tasks[t].cell);
  }

  lemma AnsweredSole(s: State, t: nat, ok: bool, id: nat)
    requires WellFormed(s) && PendingOwn(s) && (InPhase(s, t, Refusing) || InPhase(s, t, Sending))
    ensures PendingOwn(Answered(s, t, ok))
    ensures Sole(s, id) ==> Sole(Answered(s, t, ok), id)
  {
    hide MaybeRetire, Finish, Fail, Sole, PendingOwn;
    var k := s.tasks[t];
    var r := if k.phase == Refusing then s.(tasks := s.tasks[t := k.(phase := Ended)]) else Finish(s, t);
    if k.phase == Refusing {
      assert WellFormed(r) && Steady(s, r);
      SteadySole(s, r, id);
      MaybeRetireSame(r, k.cellId, k.cell);
      SameSteady(r, MaybeRetire(r, k.cellId, k.cell));
      SteadySole(r, MaybeRetire(r, k.cellId, k.cell), id);
    } else {
      FinishLeft(s, t);
      LeftSole(s, r, t, id);
    }
    FailSteady(r);
    SteadySole(r, Fail(r), id);
  }

  lemma SendSteady(s: State, t: nat)
    requires WellFormed(s) && t < |s.tasks| && s.tasks[t].Live()
    ensures Steady(s, Send(s, t))
    ensures !s.tasks[t].aborted ==> Steady(s, Admitted(s, t, true, true))
  {
  }

  lemma TaskEventSole(s: State, ev: Event, id: nat)
    requires WellFormed(s) && PendingOwn(s) && (ev.AdmissionAnswers? || ev.ToolReturns? || ev.HostAnswers?)
    ensures PendingOwn(Step(s, ev))
    ensures Sole(s, id) ==> Sole(Step(s, ev), id)
  {
    hide Finish, Send, Answered, Sole, PendingOwn, Steady, Left;
    var t := ev.task;
    if t < |s.tasks| {
      if s.tasks[t].Live() {
        FinishLeft(s, t);
        LeftSole(s, Finish(s, t), t, id);
        SendSteady(s, t);
        SteadySole(s, Send(s, t), id);
        if InPhase(s, t, Queued) && !s.tasks[t].aborted { SteadySole(s, Admitted(s, t, true, true), id); }
      }
      if ev.HostAnswers? && (InPhase(s, t, Refusing) || InPhase(s, t, Sending)) { AnsweredSole(s, t, ev.ok, id); }
    }
  }

  /** A new task that is not listed, in a state that is otherwise the same for the tasks. */
  lemma UnlistedJoined(s: State, r: State)
    requires OneMore(s, r) && r.pending == s.pending && !r.tasks[|s.tasks|].Live()
    ensures Joined(s, r)
  {
  }

  lemma DroppedJoined(s: State, call: ToolCall, ref: nat, cancelled: bool, runnable: bool)
    requires WellFormed(s) && ref < |s.objects| && call.invocation in s.cancelled
    ensures var r := Accept(s, call, ref, cancelled, runnable);
      && Joined(s, r) && r.tasks[|s.tasks|].invocation == call.invocation && !r.tasks[|s.tasks|].Live()
      && r.failed == s.failed && r.closed == s.closed
  {
    var m := Added(s, call, ref, Ended).(cancelled := Without(s.cancelled, call.invocation));
    assert WellFormed(m) && OneMore(s, m) && m.pending == s.pending;
    UnlistedJoined(s, m);
    hide Without, MaybeRetire, Joined, OneMore;
    MaybeRetireSame(m, call.cellId, ref);
    assert Accept(s, call, ref, cancelled, runnable) == MaybeRetire(m, call.cellId, ref);
    SameJoined(s, m, MaybeRetire(m, call.cellId, ref));
  }

  lemma SameJoined(s: State, m: State, r: State)
    requires Joined(s, m) && Same(m, r)
    ensures Joined(s, r)
  {
  }

  lemma QueuedJoined(s: State, call: ToolCall, ref: nat)
    requires WellFormed(s) && ref < |s.objects| && call.invocation !in s.cancelled
    ensures var r := Accept(s, call, ref, false, true);
      && Joined(s, r) && r.tasks[|s.tasks|].invocation == call.invocation
      && r.tasks[|s.tasks|].phase == Queued && !r.tasks[|s.tasks|].aborted
      && r.failed == s.failed && r.closed == s.closed
  {
    hide WellFormed;
  }

  lemma AcceptJoined(s: State, call: ToolCall, ref: nat, cancelled: bool, runnable: bool)
    requires WellFormed(s) && ref < |s.objects|
    ensures var r := Accept(s, call, ref, cancelled, runnable);
      && Joined(s, r) && r.tasks[|s.tasks|].invocation == call.invocation
      && (r.tasks[|s.tasks|].Live() <==> call.invocation !in s.cancelled && !cancelled && runnable)
      && (r.tasks[|s.tasks|].Live() ==> r.tasks[|s.tasks|].phase == Queued && !r.tasks[|s.tasks|].aborted)
      && r.failed == s.failed && r.closed == s.closed
  {
    if call.invocation in s.cancelled {
      hide Accept, WellFormed;
      DroppedJoined(s, call, ref, cancelled, runnable);
    } else if cancelled || !runnable {
      UnlistedJoined(s, Added(s, call, ref, Refusing));
    } else {
      hide Accept, WellFormed;
      QueuedJoined(s, call, ref);
    }
  }

  /** A call is queued exactly when it is runnable. */
  lemma DispatchJoined(s: State, call: ToolCall)
    requires WellFormed(s)
    ensures var r := Dispatch(s, call);
      && (Steady(s, r) || (Joined(s, r) && r.tasks[|s.tasks|].invocation == call.invocation))
      && (Runnable(s, call) <==> |r.tasks| == |s.tasks| + 1 && r.tasks[|s.tasks|].Live())
      && (Runnable(s, call) ==> r.tasks[|s.tasks|].phase == Queued && !r.tasks[|s.tasks|].aborted)
      && (Runnable(s, call) ==> !r.failed && !r.closed)
  {
    hide Arrive, Advance, Accept, Fail, Joined, Steady;
    if s.failed || s.closed {
      SameSteady(s, s);
    } else {
      var b := Arrive(s, call);
      ArriveSame(s, call);
      var ref := b.cells[call.cellId];
      if call.sequence <= b.objects[ref].highest {
        FailSteady(b);
        SteadyAfterSame(s, b, Fail(b));
        assert |Fail(b).tasks| == |s.tasks| by { hide *; SteadyLength(s, Fail(b)); }
      } else {
        var c := Advance(b, ref, call.sequence);
        AdvanceSame(b, ref, call.sequence);
        SameChain(s, b, c);
        var known := call.execution in s.executions;
        var cancelled, runnable := known && s.executions[call.execution].cancelled, known && call.toolKnown;
        AcceptJoined(c, call, ref, cancelled, runnable);
        JoinedAfterSame(s, c, Accept(c, call, ref, cancelled, runnable));
      }
    }
  }

  lemma SteadyLength(s: State, r: State)
    requires Steady(s, r)
    ensures |r.tasks| == |s.tasks|
  {
  }

  lemma SteadyAfterSame(s: State, m: State, r: State)
    requires Same(s, m) && Steady(m, r)
    ensures Steady(s, r)
  {
  }

  lemma JoinedAfterSame(s: State, m: State, r: State)
    requires Same(s, m) && Joined(m, r)
    ensures Joined(s, r) && |m.tasks| == |s.tasks|
  {
  }

  lemma DispatchSole(s: State, call: ToolCall, id: nat)
    requires WellFormed(s) && PendingOwn(s)
    ensures PendingOwn(Dispatch(s, call))
    ensures Sole(s, id) && !CollidesOn(s, CallArrives(call), id) ==> Sole(Dispatch(s, call), id)
  {
    var r := Dispatch(s, call);
    DispatchJoined(s, call);
    hide Dispatch, Sole, PendingOwn, Runnable, WellFormed;
    if Steady(s, r) { SteadySole(s, r, id); } else { JoinedSole(s, r, id); }
  }

  lemma DrainedSole(s: State, id: nat)
    requires WellFormed(s) && PendingOwn(s)
    ensures PendingOwn(Step(s, CloseDrained))
    ensures Sole(s, id) ==> Sole(Step(s, CloseDrained), id)
  {
    var r := Step(s, CloseDrained);
    if r != s {
      assert r.tasks == s.tasks && r.pending == map[];
      assert forall t :: 0 <= t < |s.tasks| ==> s.tasks[t].phase == Ended;
    }
  }

  lemma SteadyStep(s: State, ev: Event)
    requires WellFormed(s)
    requires !ev.CallArrives? && !ev.AdmissionAnswers? && !ev.ToolReturns? && !ev.HostAnswers? && !ev.CloseDrained?
    ensures Steady(s, Step(s, ev))
  {
    hide CloseCell, Started, Fail, CancelTool, AbortAll, WellFormed;
    match ev
    case CellClosed(cellId, final, owner) => CloseCellSame(s, cellId, final, owner);
    case CellStarted(e, cellId) => StartedSame(s, e, cellId);
    case StreamFails => FailSteady(s);
    case CloseBegins => AbortAllAborts(s);
    case ToolCancelled(i) => CancelSteady(s, i);
    case CloseEnds =>
    case ExecutionBegins(_) =>
    case ExecutionCancelled(_) =>
    case ExecutionEnds(_) =>
  }

  lemma CancelSteady(s: State, invocation: nat)
    requires WellFormed(s)
    ensures Steady(s, CancelTool(s, invocation))
  {
    assert Aborts(s, CancelTool(s, invocation)) by { hide Remember; }
    hide CancelTool;
    AbortsSteady(s, CancelTool(s, invocation));
  }

  /** Only a call that collides under `id` gives it a second live task. */
  lemma StepSole(s: State, ev: Event, id: nat)
    requires WellFormed(s) && PendingOwn(s)
    ensures PendingOwn(Step(s, ev))
    ensures Sole(s, id) && !CollidesOn(s, ev, id) ==> Sole(Step(s, ev), id)
  {
    hide Sole, PendingOwn, WellFormed, Steady, Dispatch;
    match ev {
      case CallArrives(call) => DispatchSole(s, call, id);
      case AdmissionAnswers(_, _, _) => TaskEventSole(s, ev, id);
      case ToolReturns(_) => TaskEventSole(s, ev, id);
      case HostAnswers(_, _) => TaskEventSole(s, ev, id);
      case CloseDrained => DrainedSole(s, id);
      case _ =>
        hide Step;
        SteadyStep(s, ev);
        SteadySole(s, Step(s, ev), id);
    }
  }

  lemma {:induction false} RunSole(s: State, events: seq<Event>, id: nat)
    requires WellFormed(s) && PendingOwn(s)
    ensures PendingOwn(Run(s, events))
    ensures Sole(s, id) && ClearOf(s, events, id) ==> Sole(Run(s, events), id)
    decreases |events|
  {
    if events != [] {
      StepWellFormed(s, events[0]);
      StepSole(s, events[0], id);
      hide Step, Sole, PendingOwn, WellFormed, CollidesOn;
      RunSole(Step(s, events[0]), events[1..], id);
    }
  }

  // ---- a cancelled task never starts ----

  lemma {:induction false} RunGrows(s: State, events: seq<Event>)
    requires WellFormed(s)
    ensures TasksGrow(s, Run(s, events))
    decreases |events|
  {
    if events != [] {
      var r := Step(s, events[0]);
      StepKeeps(s, events[0]);
      hide Step, WellFormed, AllCounted;
      RunGrows(r, events[1..]);
      TasksGrowChain(s, r, Run(s, events));
    }
  }

  lemma TasksGrowChain(s: State, m: State, r: State)
    requires TasksGrow(s, m) && TasksGrow(m, r)
    ensures TasksGrow(s, r)
  {
    forall t | 0 <= t < |s.tasks| ensures TaskSteps(s.tasks[t], r.tasks[t]) {
      assert TaskSteps(s.tasks[t], m.tasks[t]) && TaskSteps(m.tasks[t], r.tasks[t]);
    }
  }

  /** No task of this invocation waits to start. */
  predicate Idle(s: State, id: nat) {
    forall t :: 0 <= t < |s.tasks| && s.tasks[t].invocation == id ==> s.tasks[t].aborted || s.tasks[t].phase != Queued
  }

  /** Tasks of this invocation that `s` has did not start on the way to `r`. */
  predicate NoStartOf(s: State, r: State, id: nat) {
    && |s.tasks| <= |r.tasks|
    && forall t :: 0 <= t < |s.tasks| && s.tasks[t].invocation == id ==> r.tasks[t].runs == s.tasks[t].runs
  }

  lemma IdleStays(s: State, r: State, id: nat)
    requires TasksGrow(s, r) && Idle(s, id)
    ensures NoStartOf(s, r, id)
  {
    assert forall t :: 0 <= t < |s.tasks| ==> TaskSteps(s.tasks[t], r.tasks[t]);
  }

  lemma CancelIdle(s: State, id: nat)
    requires WellFormed(s) && Sole(s, id)
    ensures Idle(CancelTool(s, id), id)
    ensures NoStartOf(s, CancelTool(s, id), id)
  {
    hide Remember;
  }

  /** No call that had arrived before its cancellation starts after it, whatever follows, as long
      as no call before was queued under this id while the table still held it. */
  lemma NoStartAfterCancel(before: seq<Event>, id: nat, after: seq<Event>)
    requires ClearOf(Initial, before, id)
    ensures NoStartOf(Run(Initial, before), Run(Initial, before + ([ToolCancelled(id)] + after)), id)
  {
    var s := Run(Initial, before);
    assert WellFormed(Initial) && Sole(Initial, id);
    RunSole(Initial, before, id);
    CancelIdle(s, id);
    RunSplit(Initial, before, [ToolCancelled(id)] + after);
    var m := Step(s, ToolCancelled(id));
    RunFirst(s, ToolCancelled(id), after);
    hide Sole, Step, WellFormed, TasksGrow, Idle, ClearOf, CancelTool;
    RunGrows(m, after);
    IdleStays(m, Run(m, after), id);
    CancelSteady(s, id);
  }
}
