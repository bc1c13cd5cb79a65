/** How executions and a session come to their end, and what is left behind. */
module SessionEndings {
  import opened SessionStates
  import opened SessionRuns
  import opened SessionTheorems
  import opened SessionCancels
  import opened SessionCells
  import opened SessionLaws

  // ---- closing ----

  lemma AnsweredClosed(s: State, t: nat, ok: bool)
    requires WellFormed(s) && t < |s.tasks|
    ensures Answered(s, t, ok).closed == s.closed
  {
    hide MaybeRetire, Finish, Fail;
    var k := s.tasks[t];
    var r := s.(tasks := s.tasks[t := k.(phase := Ended)]);
    MaybeRetireSame(r, k.cellId, k.cell);
    FinishFlagsSame(s, t);
    FailFlags(r);
    FailFlags(Finish(s, t));
  }

  lemma CallClosed(s: State, call: ToolCall)
    requires WellFormed(s)
    ensures Dispatch(s, call).closed == s.closed
  {
    hide Arrive, Accept, Fail;
    if !s.failed && !s.closed {
      var b := Arrive(s, call);
      ArriveSame(s, call);
      FailFlags(b);
      var ref := b.cells[call.cellId];
      var c := Advance(b, ref, call.sequence);
      AdvanceSame(b, ref, call.sequence);
      var known := call.execution in s.executions;
      AcceptJoined(c, call, ref, known && s.executions[call.execution].cancelled, known && call.toolKnown);
    }
  }

  /** A session is closed from its close on, and by nothing else. */
  lemma ClosesExactly(s: State, ev: Event)
    requires WellFormed(s)
    ensures Step(s, ev).closed <==> s.closed || ev.CloseBegins?
  {
    hide CloseCell, Started, Finish, Answered, Fail, CancelTool, AbortAll, Dispatch;
    match ev
    case CallArrives(call) => CallClosed(s, call);
    case CellClosed(cellId, final, owner) => CloseCellSame(s, cellId, final, owner);
    case CellStarted(e, cellId) => StartedSame(s, e, cellId);
    case StreamFails => FailFlags(s);
    case ToolCancelled(i) => CancelCalm(s, i);
    case AdmissionAnswers(t, _, _) => if t < |s.tasks| { FinishFlagsSame(s, t); }
    case ToolReturns(t) => if t < |s.tasks| { FinishFlagsSame(s, t); }
    case HostAnswers(t, ok) => if t < |s.tasks| { AnsweredClosed(s, t, ok); }
    case _ =>
  }

  predicate Halted(s: State) {
    s.failed || s.closed
  }

  lemma {:induction false} ClosedOn(s: State, events: seq<Event>)
    requires WellFormed(s)
    ensures Run(s, events).closed <==> s.closed || CloseBegins in events
    decreases |events|
  {
    if events != [] {
      StepWellFormed(s, events[0]);
      ClosesExactly(s, events[0]);
      hide Step, WellFormed;
      ClosedOn(Step(s, events[0]), events[1..]);
      assert events == [events[0]] + events[1..];
    }
  }

  // ---- executions ----

  /** An execution begins in an open session, unless one of that id is going on; it is then neither
      cancelled nor has it a cell, and nothing else changes. */
  lemma BeginsExactly(s: State, e: nat)
    requires WellFormed(s)
    ensures var r := Step(s, ExecutionBegins(e));
      if Halted(s) || e in s.executions then r == s
      else
        && e in r.executions && !r.executions[e].cancelled && r.executions[e].cell.None?
        && r.executions - {e} == s.executions && r == s.(executions := r.executions)
  {
  }

  /** In a session that has failed or closed no execution begins any more. */
  lemma {:induction false} NoneBegins(s: State, events: seq<Event>, e: nat)
    requires WellFormed(s) && Halted(s) && e !in s.executions
    ensures Halted(Run(s, events)) && e !in Run(s, events).executions
    decreases |events|
  {
    if events != [] {
      StepWellFormed(s, events[0]);
      ClosesExactly(s, events[0]);
      FailsExactly(s, events[0]);
      BeginsExactly(s, e);
      var r := Step(s, events[0]);
      if e in r.executions { CancelledExactly(s, events[0], e); }
      hide Step, WellFormed;
      NoneBegins(r, events[1..], e);
    }
  }

  lemma {:induction false} GoneRun(s: State, events: seq<Event>, e: nat)
    requires WellFormed(s) && e !in s.executions && forall i :: 0 <= i < |events| ==> events[i] != ExecutionBegins(e)
    ensures e !in Run(s, events).executions
    decreases |events|
  {
    if events != [] {
      StepWellFormed(s, events[0]);
      if e in Step(s, events[0]).executions { CancelledExactly(s, events[0], e); }
      hide Step, WellFormed;
      GoneRun(Step(s, events[0]), events[1..], e);
    }
  }

  /** An execution that ended is not known again until one of that id begins anew, so calls of it do
      not run. */
  lemma EndedExecutionQueuesNothing(before: seq<Event>, e: nat, after: seq<Event>, call: ToolCall)
    requires call.execution == e && forall i :: 0 <= i < |after| ==> after[i] != ExecutionBegins(e)
    ensures var s := Run(Initial, before + ([ExecutionEnds(e)] + after)); e !in s.executions && !Runnable(s, call)
  {
    var s := Run(Initial, before);
    RunSplit(Initial, before, [ExecutionEnds(e)] + after);
    RunFirst(s, ExecutionEnds(e), after);
    assert e !in Step(s, ExecutionEnds(e)).executions;
    hide Step, WellFormed;
    GoneRun(Step(s, ExecutionEnds(e)), after, e);
  }

  // ---- what a closed session forgets ----

  /** Only the tasks, their cell objects and the pending calls are left. */
  predicate Emptied(s: State) {
    s.cells == map[] && s.cancelled == [] && s.earlyClosures == map[] && s.executions == map[]
  }

  predicate AllEnded(s: State) {
    forall t :: 0 <= t < |s.tasks| ==> s.tasks[t].phase == Ended
  }

  lemma CloseSteps(s: State)
    requires WellFormed(s)
    ensures var r := Step(s, CloseEnds);
      if s.closed then Emptied(r) && r.tasks == s.tasks && r.pending == s.pending && r.objects == s.objects else r == s
    ensures var r := Step(s, CloseDrained); if s.closed && AllEnded(s) then r == s.(pending := map[]) else r == s
  {
  }

  /** Once it is closed, the end of the close call forgets cells, cancellations, closures and
      executions, and the pending calls go when every task has ended. Before the close neither
      changes anything. */
  lemma CloseForgets(events: seq<Event>)
    ensures var s, r := Run(Initial, events), Run(Initial, events + [CloseEnds]);
      if CloseBegins in events then Emptied(r) && r.tasks == s.tasks && r.pending == s.pending && r.objects == s.objects else r == s
    ensures var s, r := Run(Initial, events), Run(Initial, events + [CloseDrained]);
      if CloseBegins in events && AllEnded(s) then r == s.(pending := map[]) else r == s
  {
    hide *;
    StartsOpen();
    ClosedOn(Initial, events);
    RunSplit(Initial, events, [CloseEnds]);
    RunSplit(Initial, events, [CloseDrained]);
    RunOne(Run(Initial, events), CloseEnds);
    RunOne(Run(Initial, events), CloseDrained);
    CloseSteps(Run(Initial, events));
  }

  lemma StartsOpen()
    ensures WellFormed(Initial) && !Initial.closed
  {
  }
}
