/** What a session keeps over every run of events, in whatever order its streams deliver them. */
module SessionRuns {
  import opened SessionStates

  // ---- at most one start and one completion ----

  predicate Counted(k: Task) {
    && k.runs <= 1 && k.sent <= 1
    && (k.phase == Queued ==> k.runs == 0 && k.sent == 0)
    && (k.phase == Running ==> k.runs == 1 && k.sent == 0)
    && (k.phase == Sending ==> k.sent == 1)
    && (k.phase == Refusing ==> k.runs == 0 && k.sent == 1)
  }

  predicate AllCounted(s: State) {
    forall t :: 0 <= t < |s.tasks| ==> Counted(s.tasks[t])
  }

  /** Tasks are never forgotten or renamed, an abort is never undone, a start or a completion
      is never taken back, and no task starts its tool out of the queue's turn or once aborted. */
  predicate TaskSteps(was: Task, now: Task) {
    && was.invocation == now.invocation && was.cellId == now.cellId && was.cell == now.cell
    && (was.aborted ==> now.aborted)
    && (now.runs == was.runs || (now.runs == was.runs + 1 && was.phase == Queued && !was.aborted && now.phase != Queued))
    && (now.phase == Queued ==> was.phase == Queued)
    && (was.phase == Ended ==> now.phase == Ended)
  }

  predicate TasksGrow(s: State, r: State) {
    && |s.tasks| <= |r.tasks|
    && forall t :: 0 <= t < |s.tasks| ==> TaskSteps(s.tasks[t], r.tasks[t])
  }

  // ---- invocation ids in use ----

  function Highest(s: State, cellId: nat): nat
    requires WellFormed(s)
  {
    if cellId in s.cells then s.objects[s.cells[cellId]].highest else 0
  }

  /** The call is neither too late nor out of sequence, neither dropped nor refused. */
  predicate Runnable(s: State, call: ToolCall)
    requires WellFormed(s)
  {
    && !s.failed && !s.closed
    && call.sequence > Highest(s, call.cellId)
    && call.invocation !in s.cancelled
    && call.execution in s.executions && !s.executions[call.execution].cancelled && call.toolKnown
  }

  /** The event queues a call under an invocation id that is still in the pending table. */
  predicate Collides(s: State, ev: Event)
    requires WellFormed(s)
  {
    ev.CallArrives? && ev.call.invocation in s.pending && Runnable(s, ev.call)
  }

  /** The pending table lists exactly the live tasks. */
  predicate Listed(s: State) {
    && (forall t :: 0 <= t < |s.tasks| && s.tasks[t].Live() ==>
          s.tasks[t].invocation in s.pending && s.pending[s.tasks[t].invocation] == t)
    && (forall i :: i in s.pending ==>
          s.pending[i] < |s.tasks| && s.tasks[s.pending[i]].Live() && s.tasks[s.pending[i]].invocation == i)
  }

  /** A cell's pending set is exactly the invocations of its live tasks. */
  predicate CellsListed(s: State) {
    && (forall t :: 0 <= t < |s.tasks| && s.tasks[t].Live() ==>
          s.tasks[t].cell < |s.objects| && s.tasks[t].invocation in s.objects[s.tasks[t].cell].pending)
    && (forall o, i :: 0 <= o < |s.objects| && i in s.objects[o].pending ==>
          i in s.pending && s.pending[i] < |s.tasks| && s.tasks[s.pending[i]].cell == o)
  }

  predicate Stopped(s: State) {
    s.failed || s.closed ==> forall t :: 0 <= t < |s.tasks| && s.tasks[t].Live() ==> s.tasks[t].aborted
  }

  predicate Inv(s: State) {
    WellFormed(s) && AllCounted(s) && Listed(s) && CellsListed(s) && Stopped(s)
  }

  // ---- the parts of a step ----

  /** Nothing a task depends on has changed: only cells and executions were added or dropped. */
  predicate Same(s: State, r: State) {
    && r.tasks == s.tasks && r.pending == s.pending && r.failed == s.failed && r.closed == s.closed
    && |s.objects| <= |r.objects|
    && (forall o :: 0 <= o < |s.objects| ==> r.objects[o].pending == s.objects[o].pending)
    && (forall o :: |s.objects| <= o < |r.objects| ==> r.objects[o].pending == {})
  }

  /** What every part of a step gives. */
  predicate Kept(s: State, r: State) {
    && WellFormed(r)
    && TasksGrow(s, r)
    && (AllCounted(s) ==> AllCounted(r))
  }

  lemma SameKeeps(s: State, r: State)
    requires WellFormed(s) && WellFormed(r) && Same(s, r)
    ensures Kept(s, r)
    ensures Inv(s) ==> Inv(r)
  {
  }

  lemma CellStateSame(s: State, cellId: nat)
    requires WellFormed(s)
    ensures WellFormed(CellState(s, cellId)) && Same(s, CellState(s, cellId))
    ensures cellId in CellState(s, cellId).cells
    ensures CellState(s, cellId).cancelled == s.cancelled
    ensures Highest(CellState(s, cellId), cellId) == Highest(s, cellId)
  {
  }

  lemma MaybeRetireSame(s: State, cellId: nat, ref: nat)
    requires WellFormed(s) && ref < |s.objects|
    ensures WellFormed(MaybeRetire(s, cellId, ref)) && Same(s, MaybeRetire(s, cellId, ref))
    ensures MaybeRetire(s, cellId, ref).cancelled == s.cancelled
  {
  }

  /** Some tasks were aborted and nothing else happened to any task. */
  predicate Aborts(s: State, r: State) {
    && r.objects == s.objects && r.cells == s.cells && r.pending == s.pending
    && |r.tasks| == |s.tasks|
    && forall t :: 0 <= t < |s.tasks| ==> r.tasks[t] == s.tasks[t] || r.tasks[t] == AbortTask(s.tasks[t])
  }

  lemma AbortsKeep(s: State, r: State)
    requires WellFormed(s) && Aborts(s, r)
    ensures Kept(s, r)
    ensures Listed(s) ==> Listed(r)
    ensures CellsListed(s) ==> CellsListed(r)
  {
  }

  lemma AbortsStopped(s: State, r: State)
    requires Aborts(s, r) && Stopped(s) && s.failed == r.failed && s.closed == r.closed
    ensures Stopped(r)
  {
  }

  lemma AbortAllAborts(s: State)
    ensures Aborts(s, AbortAll(s))
    ensures Listed(s) ==> forall t :: 0 <= t < |s.tasks| && s.tasks[t].Live() ==> AbortAll(s).tasks[t].aborted
  {
  }

  /** Aborting every pending task is what a failure and a close do; no live task stays unaborted. */
  lemma HaltKeeps(s: State, r: State)
    requires WellFormed(s)
    requires r == AbortAll(s).(failed := r.failed, closed := r.closed)
    ensures Kept(s, r)
    ensures Inv(s) ==> Inv(r)
  {
    AbortAllAborts(s);
    hide AbortAll;
    AbortsKeep(s, r);
    if Inv(s) {
      assert Stopped(r);
    }
  }

  lemma FailKeeps(s: State)
    requires WellFormed(s)
    ensures Kept(s, Fail(s))
    ensures Inv(s) ==> Inv(Fail(s))
  {
    hide AbortAll, Inv;
    if !s.closed && !s.failed { HaltKeeps(s, Fail(s)); } else { SameKeeps(s, s); }
  }

  lemma CancelKeeps(s: State, invocation: nat)
    requires WellFormed(s)
    ensures Kept(s, CancelTool(s, invocation))
    ensures Inv(s) ==> Inv(CancelTool(s, invocation))
  {
    var r := CancelTool(s, invocation);
    assert Aborts(s, r) by { hide Remember; }
    hide CancelTool;
    AbortsKeep(s, r);
    if Inv(s) { AbortsStopped(s, r); }
  }

  // ---- tasks ----

  /** Exactly one task changed, by an allowed step. */
  predicate OneTask(s: State, r: State, t: nat) {
    && t < |s.tasks| && |r.tasks| == |s.tasks| && r.tasks == s.tasks[t := r.tasks[t]]
    && TaskSteps(s.tasks[t], r.tasks[t])
    && (Counted(s.tasks[t]) ==> Counted(r.tasks[t]))
    && r.failed == s.failed && r.closed == s.closed
  }

  lemma OneTaskKeeps(s: State, r: State, t: nat)
    requires WellFormed(s) && WellFormed(r) && OneTask(s, r, t)
    ensures Kept(s, r)
    ensures Stopped(s) && (r.tasks[t].Live() ==> s.tasks[t].Live()) ==> Stopped(r)
  {
    hide Counted;
  }

  lemma StillLiveListed(s: State, r: State, t: nat)
    requires OneTask(s, r, t) && s.tasks[t].Live() && r.tasks[t].Live() && r.pending == s.pending && r.objects == s.objects
    ensures Listed(s) ==> Listed(r)
    ensures CellsListed(s) ==> CellsListed(r)
  {
    hide Counted;
  }

  lemma SendKeeps(s: State, t: nat)
    requires WellFormed(s) && (InPhase(s, t, Queued) || InPhase(s, t, Running))
    ensures Kept(s, Send(s, t))
    ensures Inv(s) ==> Inv(Send(s, t))
  {
    var r := Send(s, t);
    assert OneTask(s, r, t);
    hide OneTask, Kept, Listed, CellsListed, Stopped, AllCounted;
    OneTaskKeeps(s, r, t);
    StillLiveListed(s, r, t);
    assert AllCounted(s) ==> AllCounted(r);
  }

  lemma StartKeeps(s: State, t: nat)
    requires WellFormed(s) && InPhase(s, t, Queued) && !s.tasks[t].aborted
    ensures Kept(s, Admitted(s, t, true, true))
    ensures Inv(s) ==> Inv(Admitted(s, t, true, true))
  {
    var r := Admitted(s, t, true, true);
    assert OneTask(s, r, t);
    hide OneTask, Kept, Listed, CellsListed, Stopped, AllCounted;
    OneTaskKeeps(s, r, t);
    StillLiveListed(s, r, t);
    assert AllCounted(s) ==> AllCounted(r);
  }

  lemma UnlistListed(s: State, t: nat)
    requires WellFormed(s) && t < |s.tasks| && s.tasks[t].Live()
    requires Listed(s)
    ensures Listed(Unlist(s, t))
  {
  }

  lemma UnlistCells(s: State, t: nat)
    requires WellFormed(s) && t < |s.tasks| && s.tasks[t].Live()
    requires Listed(s) && CellsListed(s)
    ensures CellsListed(Unlist(s, t))
  {
  }

  lemma UnlistOne(s: State, t: nat)
    requires WellFormed(s) && t < |s.tasks| && s.tasks[t].Live()
    ensures WellFormed(Unlist(s, t)) && OneTask(s, Unlist(s, t), t) && Unlist(s, t).tasks[t].phase == Ended
  {
  }

  lemma FinishKeeps(s: State, t: nat)
    requires WellFormed(s) && t < |s.tasks| && s.tasks[t].Live()
    ensures Kept(s, Finish(s, t))
    ensures Inv(s) ==> Inv(Finish(s, t))
  {
    var m := Unlist(s, t);
    UnlistOne(s, t);
    if Inv(s) { UnlistListed(s, t); UnlistCells(s, t); }
    var k := s.tasks[t];
    hide Unlist, MaybeRetire, Listed, CellsListed, Stopped, AllCounted;
    OneTaskKeeps(s, m, t);
    MaybeRetireSame(m, k.cellId, k.cell);
    SameKeeps(m, Finish(s, t));
    KeptChain(s, m, Finish(s, t));
  }

  lemma KeptChain(s: State, m: State, r: State)
    requires Kept(s, m) && Kept(m, r)
    ensures Kept(s, r)
  {
  }

  /** One task was added and no other changed. */
  predicate OneMore(s: State, r: State) {
    && |r.tasks| == |s.tasks| + 1
    && (forall t :: 0 <= t < |s.tasks| ==> r.tasks[t] == s.tasks[t])
    && Counted(r.tasks[|s.tasks|]) && r.tasks[|s.tasks|].runs == 0
  }

  lemma OneMoreKeeps(s: State, r: State)
    requires WellFormed(s) && WellFormed(r) && OneMore(s, r)
    ensures Kept(s, r)
  {
    hide Counted;
  }

  lemma IdleTaskListed(s: State, r: State)
    requires OneMore(s, r) && !r.tasks[|s.tasks|].Live()
    requires r.pending == s.pending && r.objects == s.objects && r.failed == s.failed && r.closed == s.closed
    ensures Listed(s) ==> Listed(r)
    ensures CellsListed(s) && Listed(s) ==> CellsListed(r)
    ensures Stopped(s) ==> Stopped(r)
  {
    hide Counted;
  }

  lemma AddedKeeps(s: State, call: ToolCall, ref: nat, phase: Phase)
    requires WellFormed(s) && ref < |s.objects| && (phase == Ended || phase == Refusing)
    ensures Kept(s, Added(s, call, ref, phase))
    ensures Inv(s) ==> Inv(Added(s, call, ref, phase))
  {
    var r := Added(s, call, ref, phase);
    assert WellFormed(r) && OneMore(s, r);
    hide OneMore, Listed, CellsListed, Stopped, AllCounted, WellFormed;
    OneMoreKeeps(s, r);
    IdleTaskListed(s, r);
  }

  lemma QueuedListed(s: State, r: State, ref: nat)
    requires OneMore(s, r) && r.tasks[|s.tasks|].invocation !in s.pending && Listed(s)
    requires r.tasks[|s.tasks|].phase == Queued
    requires r.pending == s.pending[r.tasks[|s.tasks|].invocation := |s.tasks|]
    ensures Listed(r)
  {
    hide Counted;
  }

  lemma QueuedCells(s: State, r: State, ref: nat)
    requires WellFormed(s) && ref < |s.objects|
    requires OneMore(s, r) && r.tasks[|s.tasks|].invocation !in s.pending && Listed(s) && CellsListed(s)
    requires r.tasks[|s.tasks|].phase == Queued && r.tasks[|s.tasks|].cell == ref
    requires r.pending == s.pending[r.tasks[|s.tasks|].invocation := |s.tasks|]
    requires r.objects == s.objects[ref := s.objects[ref].(pending := s.objects[ref].pending + {r.tasks[|s.tasks|].invocation})]
    ensures CellsListed(r)
  {
    hide Counted;
  }

  lemma QueuedKeeps(s: State, call: ToolCall, ref: nat, cancelled: bool, runnable: bool)
    requires WellFormed(s) && ref < |s.objects| && call.invocation !in s.cancelled && !cancelled && runnable
    ensures Kept(s, Accept(s, call, ref, cancelled, runnable))
    ensures Inv(s) && !s.failed && !s.closed && call.invocation !in s.pending
      ==> Inv(Accept(s, call, ref, cancelled, runnable))
  {
    var r := Accept(s, call, ref, cancelled, runnable);
    assert WellFormed(r) && OneMore(s, r);
    assert r.tasks[|s.tasks|].invocation == call.invocation && r.tasks[|s.tasks|].cell == ref && r.tasks[|s.tasks|].phase == Queued;
    hide OneMore, Listed, CellsListed, AllCounted, WellFormed;
    OneMoreKeeps(s, r);
    if Inv(s) && !s.failed && !s.closed && call.invocation !in s.pending {
      QueuedListed(s, r, ref);
      QueuedCells(s, r, ref);
    }
  }

  lemma AcceptKeeps(s: State, call: ToolCall, ref: nat, cancelled: bool, runnable: bool)
    requires WellFormed(s) && ref < |s.objects|
    ensures Kept(s, Accept(s, call, ref, cancelled, runnable))
    ensures Inv(s) && !s.failed && !s.closed
      && (call.invocation in s.cancelled || cancelled || !runnable || call.invocation !in s.pending)
      ==> Inv(Accept(s, call, ref, cancelled, runnable))
  {
    if call.invocation in s.cancelled {
      var m := Added(s, call, ref, Ended);
      AddedKeeps(s, call, ref, Ended);
      var n := m.(cancelled := Without(s.cancelled, call.invocation));
      hide Added, MaybeRetire, Listed, CellsListed, Stopped, AllCounted;
      SameKeeps(m, n);
      MaybeRetireSame(n, call.cellId, ref);
      SameKeeps(m, Accept(s, call, ref, cancelled, runnable));
      KeptChain(s, m, Accept(s, call, ref, cancelled, runnable));
    } else if cancelled || !runnable {
      AddedKeeps(s, call, ref, Refusing);
    } else {
      QueuedKeeps(s, call, ref, cancelled, runnable);
    }
  }

  lemma ArriveSame(s: State, call: ToolCall)
    requires WellFormed(s)
    ensures WellFormed(Arrive(s, call)) && Same(s, Arrive(s, call))
    ensures call.cellId in Arrive(s, call).cells
    ensures Arrive(s, call).cancelled == s.cancelled
    ensures Highest(Arrive(s, call), call.cellId) == Highest(s, call.cellId)
  {
    var e := call.execution;
    var a := if e in s.executions && s.executions[e].cell.None?
      then s.(executions := s.executions[e := s.executions[e].(cell := Some(call.cellId))])
      else s;
    assert WellFormed(a) && Same(s, a);
    hide CellState;
    CellStateSame(a, call.cellId);
  }

  lemma AdvanceSame(s: State, ref: nat, sequence: nat)
    requires WellFormed(s) && ref < |s.objects|
    ensures WellFormed(Advance(s, ref, sequence)) && Same(s, Advance(s, ref, sequence))
    ensures Advance(s, ref, sequence).cancelled == s.cancelled
  {
  }

  lemma SameChain(s: State, m: State, r: State)
    requires Same(s, m) && Same(m, r)
    ensures Same(s, r)
  {
  }

  lemma DispatchKeeps(s: State, call: ToolCall)
    requires WellFormed(s)
    ensures Kept(s, Dispatch(s, call))
    ensures Inv(s) && !Collides(s, CallArrives(call)) ==> Inv(Dispatch(s, call))
  {
    hide Arrive, Advance, Accept, Inv, AllCounted, TasksGrow, Fail;
    if s.failed || s.closed {
      SameKeeps(s, s);
    } else {
      var b := Arrive(s, call);
      ArriveSame(s, call);
      var ref := b.cells[call.cellId];
      if call.sequence <= b.objects[ref].highest {
        SameKeeps(s, b);
        FailKeeps(b);
        KeptChain(s, b, Fail(b));
      } else {
        var c := Advance(b, ref, call.sequence);
        AdvanceSame(b, ref, call.sequence);
        SameChain(s, b, c);
        SameKeeps(s, c);
        var known := call.execution in s.executions;
        var cancelled, runnable := known && s.executions[call.execution].cancelled, known && call.toolKnown;
        AcceptKeeps(c, call, ref, cancelled, runnable);
        KeptChain(s, c, Accept(c, call, ref, cancelled, runnable));
      }
    }
  }

  lemma RefusedKeeps(s: State, t: nat)
    requires WellFormed(s) && InPhase(s, t, Refusing)
    ensures Kept(s, s.(tasks := s.tasks[t := s.tasks[t].(phase := Ended)]))
    ensures Inv(s) ==> Inv(s.(tasks := s.tasks[t := s.tasks[t].(phase := Ended)]))
  {
    var r := s.(tasks := s.tasks[t := s.tasks[t].(phase := Ended)]);
    assert OneTask(s, r, t) && WellFormed(r);
    hide OneTask, AllCounted, WellFormed;
    OneTaskKeeps(s, r, t);
  }

  lemma AnsweredKeeps(s: State, t: nat, ok: bool)
    requires WellFormed(s) && (InPhase(s, t, Refusing) || InPhase(s, t, Sending))
    ensures Kept(s, Answered(s, t, ok))
    ensures Inv(s) ==> Inv(Answered(s, t, ok))
  {
    hide Inv, AllCounted, TasksGrow, Fail, MaybeRetire, Finish;
    var k := s.tasks[t];
    var r := if k.phase == Refusing then s.(tasks := s.tasks[t := k.(phase := Ended)]) else Finish(s, t);
    if k.phase == Refusing {
      RefusedKeeps(s, t);
      MaybeRetireSame(r, k.cellId, k.cell);
      SameKeeps(r, MaybeRetire(r, k.cellId, k.cell));
    } else {
      FinishKeeps(s, t);
    }
    FailKeeps(r);
    SameKeeps(r, r);
    KeptChain(s, r, Answered(s, t, ok));
  }

  lemma CloseCellSame(s: State, cellId: nat, final: nat, owner: Option<nat>)
    requires WellFormed(s)
    ensures WellFormed(CloseCell(s, cellId, final, owner)) && Same(s, CloseCell(s, cellId, final, owner))
    ensures CloseCell(s, cellId, final, owner).cancelled == s.cancelled
  {
    if cellId in s.cells {
      var ref := s.cells[cellId];
      var m := s.(objects := s.objects[ref := s.objects[ref].(finalSequence := Some(final))]);
      assert WellFormed(m) && Same(s, m);
      hide MaybeRetire;
      MaybeRetireSame(m, cellId, ref);
    }
  }

  lemma StartedSame(s: State, execution: nat, cellId: nat)
    requires WellFormed(s)
    ensures WellFormed(Started(s, execution, cellId)) && Same(s, Started(s, execution, cellId))
    ensures Started(s, execution, cellId).cancelled == s.cancelled
  {
    var a :=
      if execution in s.executions
      then s.(executions := s.executions[execution := s.executions[execution].(cell := Some(cellId))])
      else s;
    assert WellFormed(a) && Same(s, a);
    hide CellState, MaybeRetire;
    CellStateSame(a, cellId);
    var b := CellState(a, cellId);
    MaybeRetireSame(b, cellId, b.cells[cellId]);
    SameChain(s, b, Started(s, execution, cellId));
  }

  lemma ClosingKeeps(s: State, ev: Event)
    requires WellFormed(s) && (ev.CloseBegins? || ev.CloseEnds? || ev.CloseDrained?)
    ensures Kept(s, Step(s, ev))
    ensures Inv(s) ==> Inv(Step(s, ev))
  {
    hide AbortAll;
    if ev.CloseBegins? && !s.closed {
      hide Inv, Kept;
      HaltKeeps(s, Step(s, ev));
    } else if ev.CloseDrained? && Step(s, ev) != s {
      assert Step(s, ev).pending == map[];
    } else {
      SameKeeps(s, Step(s, ev));
    }
  }

  lemma TaskEventKeeps(s: State, ev: Event)
    requires WellFormed(s) && (ev.AdmissionAnswers? || ev.ToolReturns? || ev.HostAnswers?)
    ensures Kept(s, Step(s, ev))
    ensures Inv(s) ==> Inv(Step(s, ev))
  {
    hide Inv, Kept, Finish, Send, Answered;
    var t := ev.task;
    SameKeeps(s, s);
    if t < |s.tasks| {
      if s.tasks[t].Live() { FinishKeeps(s, t); }
      if InPhase(s, t, Queued) || InPhase(s, t, Running) { SendKeeps(s, t); }
      if InPhase(s, t, Queued) && !s.tasks[t].aborted { StartKeeps(s, t); }
      if ev.HostAnswers? && (InPhase(s, t, Refusing) || InPhase(s, t, Sending)) { AnsweredKeeps(s, t, ev.ok); }
    }
  }

  lemma StepKeeps(s: State, ev: Event)
    requires WellFormed(s)
    ensures Kept(s, Step(s, ev))
    ensures Inv(s) && !Collides(s, ev) ==> Inv(Step(s, ev))
  {
    match ev
    case CallArrives(call) => DispatchKeeps(s, call);
    case AdmissionAnswers(_, _, _) => TaskEventKeeps(s, ev);
    case ToolReturns(_) => TaskEventKeeps(s, ev);
    case HostAnswers(_, _) => TaskEventKeeps(s, ev);
    case ToolCancelled(i) => CancelKeeps(s, i);
    case CellClosed(cellId, final, owner) =>
      hide Inv, CloseCell;
      CloseCellSame(s, cellId, final, owner);
      SameKeeps(s, Step(s, ev));
    case CellStarted(e, cellId) =>
      hide Inv, Started;
      StartedSame(s, e, cellId);
      SameKeeps(s, Step(s, ev));
    case StreamFails => FailKeeps(s);
    case CloseBegins => ClosingKeeps(s, ev);
    case CloseEnds => ClosingKeeps(s, ev);
    case CloseDrained => ClosingKeeps(s, ev);
    case ExecutionBegins(_) => SameKeeps(s, Step(s, ev));
    case ExecutionCancelled(_) => SameKeeps(s, Step(s, ev));
    case ExecutionEnds(_) => SameKeeps(s, Step(s, ev));
  }

  /** A run of events, in any order. */
  function Run(s: State, events: seq<Event>): (r: State)
    requires WellFormed(s)
    ensures WellFormed(r)
    decreases |events|
  {
    if events == [] then s
    else
      StepKeeps(s, events[0]);
      Run(Step(s, events[0]), events[1..])
  }
}
