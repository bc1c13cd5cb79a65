/** What makes a session fail, what makes a tool start, and the order of a closure and a start. */
module SessionLaws {
  import opened SessionStates
  import opened SessionRuns
  import opened SessionTheorems
  import opened SessionCancels
  import opened SessionCells
  import opened SessionRevivals

  // ---- failing ----

  /** A tool call whose sequence number its cell has already seen. */
  predicate Late(s: State, ev: Event)
    requires WellFormed(s)
  {
    ev.CallArrives? && ev.call.sequence <= Highest(s, ev.call.cellId)
  }

  /** The host did not take an answer that nobody had cancelled. */
  predicate LosesAnswer(s: State, ev: Event) {
    && ev.HostAnswers? && !ev.ok
    && (InPhase(s, ev.task, Refusing) || (InPhase(s, ev.task, Sending) && !s.tasks[ev.task].aborted))
  }

  lemma FailFlags(s: State)
    ensures Fail(s).failed == (s.failed || !s.closed) && Fail(s).closed == s.closed
  {
  }

  lemma AnsweredFlags(s: State, t: nat, ok: bool)
    requires WellFormed(s) && (InPhase(s, t, Refusing) || InPhase(s, t, Sending))
    ensures Answered(s, t, ok).failed == (s.failed || (!s.closed && LosesAnswer(s, HostAnswers(t, ok))))
  {
    hide MaybeRetire, Finish, Fail;
    var k := s.tasks[t];
    var r := if k.phase == Refusing then s.(tasks := s.tasks[t := k.(phase := Ended)]) else Finish(s, t);
    if k.phase == Refusing {
      MaybeRetireSame(r, k.cellId, k.cell);
    } else {
      FinishFlagsSame(s, t);
    }
    FailFlags(r);
  }

  lemma FinishFlagsSame(s: State, t: nat)
    requires WellFormed(s) && t < |s.tasks|
    ensures Finish(s, t).failed == s.failed && Finish(s, t).closed == s.closed
  {
  }

  lemma TaskEventFails(s: State, ev: Event)
    requires WellFormed(s) && (ev.AdmissionAnswers? || ev.ToolReturns? || ev.HostAnswers?)
    ensures Step(s, ev).failed == (s.failed || (!s.closed && LosesAnswer(s, ev)))
  {
    hide Finish, Answered;
    var t := ev.task;
    if t < |s.tasks| {
      FinishFlagsSame(s, t);
      if ev.HostAnswers? && (InPhase(s, t, Refusing) || InPhase(s, t, Sending)) { AnsweredFlags(s, t, ev.ok); }
    }
  }

  lemma CallFails(s: State, ev: Event)
    requires WellFormed(s) && ev.CallArrives?
    ensures Step(s, ev).failed == (s.failed || (!s.closed && Late(s, ev)))
  {
    hide Arrive, Accept, Fail;
    var call := ev.call;
    if !s.failed && !s.closed {
      var b := Arrive(s, call);
      ArriveSame(s, call);
      FailFlags(b);
      var ref := b.cells[call.cellId];
      var c := Advance(b, ref, call.sequence);
      AdvanceSame(b, ref, call.sequence);
      var known := call.execution in s.executions;
      AcceptJoined(c, call, ref, known && s.executions[call.execution].cancelled, known && call.toolKnown);
    }
  }

  /** An open session fails exactly with its streams, with a tool call that is out of sequence, or
      with an answer that the host did not take. */
  lemma FailsExactly(s: State, ev: Event)
    requires WellFormed(s)
    ensures Step(s, ev).failed <==> s.failed || (!s.closed && (ev.StreamFails? || Late(s, ev) || LosesAnswer(s, ev)))
  {
    hide CloseCell, Started, Finish, Answered, Fail, CancelTool, AbortAll, Dispatch;
    match ev
    case CallArrives(_) => CallFails(s, ev);
    case CellClosed(cellId, final, owner) => CloseCellSame(s, cellId, final, owner);
    case CellStarted(e, cellId) => StartedSame(s, e, cellId);
    case StreamFails => FailFlags(s);
    case CloseBegins => AbortAllCalm(s); AbortAllFlags(s);
    case ToolCancelled(i) => CancelCalm(s, i);
    case AdmissionAnswers(_, _, _) => TaskEventFails(s, ev);
    case ToolReturns(_) => TaskEventFails(s, ev);
    case HostAnswers(_, _) => TaskEventFails(s, ev);
    case _ =>
  }

  lemma AbortAllFlags(s: State)
    ensures AbortAll(s).failed == s.failed
  {
  }

  // ---- starting ----

  predicate StartedAt(events: seq<Event>, i: nat, t: nat)
    requires i < |events|
  {
    && events[i] == AdmissionAnswers(t, true, true)
    && InPhase(Run(Initial, events[..i]), t, Queued) && !Run(Initial, events[..i]).tasks[t].aborted
  }

  lemma FinishRuns(s: State, t: nat)
    requires WellFormed(s) && t < |s.tasks|
    ensures |Finish(s, t).tasks| == |s.tasks|
    ensures forall u :: 0 <= u < |s.tasks| ==> Finish(s, t).tasks[u].runs == s.tasks[u].runs
  {
  }

  lemma FailRuns(s: State)
    ensures |Fail(s).tasks| == |s.tasks| && forall u :: 0 <= u < |s.tasks| ==> Fail(s).tasks[u].runs == s.tasks[u].runs
  {
    AbortAllAborts(s);
    hide AbortAll;
  }

  lemma AnsweredRuns(s: State, t: nat, ok: bool)
    requires WellFormed(s) && t < |s.tasks|
    ensures |Answered(s, t, ok).tasks| == |s.tasks|
    ensures forall u :: 0 <= u < |s.tasks| ==> Answered(s, t, ok).tasks[u].runs == s.tasks[u].runs
  {
    hide MaybeRetire, Finish, Fail;
    var k := s.tasks[t];
    var r := s.(tasks := s.tasks[t := k.(phase := Ended)]);
    MaybeRetireSame(r, k.cellId, k.cell);
    FinishRuns(s, t);
    FailRuns(r);
    FailRuns(Finish(s, t));
  }

  /** A tool starts exactly when a waiting call that nobody aborted is admitted and its input can be
      decoded. */
  lemma StartsExactly(s: State, ev: Event, t: nat)
    requires WellFormed(s) && t < |s.tasks|
    ensures t < |Step(s, ev).tasks|
    ensures Step(s, ev).tasks[t].runs == s.tasks[t].runs +
      if ev == AdmissionAnswers(t, true, true) && InPhase(s, t, Queued) && !s.tasks[t].aborted then 1 else 0
  {
    hide Finish, Answered, Dispatch, CloseCell, Started, Fail, CancelTool, AbortAll;
    StepKeeps(s, ev);
    KeptLonger(s, Step(s, ev));
    match ev
    case AdmissionAnswers(u, _, _) => if u < |s.tasks| { FinishRuns(s, u); }
    case ToolReturns(u) => if u < |s.tasks| { FinishRuns(s, u); }
    case HostAnswers(u, ok) => if u < |s.tasks| { AnsweredRuns(s, u, ok); }
    case CallArrives(call) => DispatchRuns(s, call);
    case CellClosed(cellId, final, owner) => CloseCellSame(s, cellId, final, owner);
    case CellStarted(e, cellId) => StartedSame(s, e, cellId);
    case StreamFails => FailRuns(s);
    case CloseBegins => AbortAllRuns(s);
    case ToolCancelled(i) => CancelRuns(s, i);
    case _ =>
  }

  lemma KeptLonger(s: State, r: State)
    requires Kept(s, r)
    ensures |s.tasks| <= |r.tasks|
  {
  }

  lemma AbortAllRuns(s: State)
    ensures |AbortAll(s).tasks| == |s.tasks| && forall u :: 0 <= u < |s.tasks| ==> AbortAll(s).tasks[u].runs == s.tasks[u].runs
  {
    AbortAllAborts(s);
    hide AbortAll;
  }

  lemma CancelRuns(s: State, id: nat)
    requires WellFormed(s)
    ensures |CancelTool(s, id).tasks| == |s.tasks|
    ensures forall u :: 0 <= u < |s.tasks| ==> CancelTool(s, id).tasks[u].runs == s.tasks[u].runs
  {
    hide Remember;
  }

  lemma DispatchRuns(s: State, call: ToolCall)
    requires WellFormed(s)
    ensures var r := Dispatch(s, call); |s.tasks| <= |r.tasks| && forall t :: 0 <= t < |s.tasks| ==> r.tasks[t].runs == s.tasks[t].runs
  {
    if !s.failed && !s.closed {
      var b := Arrive(s, call);
      ArriveSame(s, call);
      var ref := b.cells[call.cellId];
      hide Arrive, Accept, Fail;
      if call.sequence <= b.objects[ref].highest {
        FailRuns(b);
      } else {
        var c := Advance(b, ref, call.sequence);
        AdvanceSame(b, ref, call.sequence);
        var known := call.execution in s.executions;
        var cancelled, runnable := known && s.executions[call.execution].cancelled, known && call.toolKnown;
        AcceptBears(c, call, ref, cancelled, runnable);
        assert forall t :: 0 <= t < |c.tasks| ==>
          Accept(c, call, ref, cancelled, runnable).tasks[t] == Accept(c, call, ref, cancelled, runnable).tasks[..|c.tasks|][t];
      }
    }
  }

  // ---- cancelled executions ----

  /** Executions only leave or are bound to a cell. */
  predicate ExecutionsGo(s: State, r: State) {
    forall e :: e in r.executions ==> e in s.executions && r.executions[e].cancelled == s.executions[e].cancelled
  }

  lemma GoChain(s: State, m: State, r: State)
    requires ExecutionsGo(s, m) && ExecutionsGo(m, r)
    ensures ExecutionsGo(s, r)
  {
  }

  lemma RetireGoes(s: State, cellId: nat, ref: nat)
    requires ref < |s.objects|
    ensures ExecutionsGo(s, MaybeRetire(s, cellId, ref))
  {
  }

  lemma FinishGoes(s: State, t: nat)
    requires WellFormed(s) && t < |s.tasks|
    ensures ExecutionsGo(s, Finish(s, t))
  {
    hide MaybeRetire;
    RetireGoes(Unlist(s, t), s.tasks[t].cellId, s.tasks[t].cell);
  }

  lemma FailGoes(s: State)
    ensures Fail(s).executions == s.executions
  {
  }

  lemma AnsweredGoes(s: State, t: nat, ok: bool)
    requires WellFormed(s) && t < |s.tasks|
    ensures ExecutionsGo(s, Answered(s, t, ok))
  {
    hide MaybeRetire, Finish, Fail;
    var k := s.tasks[t];
    var r := s.(tasks := s.tasks[t := k.(phase := Ended)]);
    RetireGoes(r, k.cellId, k.cell);
    FinishGoes(s, t);
    FailGoes(r);
    FailGoes(Finish(s, t));
  }

  lemma AcceptGoes(s: State, call: ToolCall, ref: nat, cancelled: bool, runnable: bool)
    requires ref < |s.objects|
    ensures ExecutionsGo(s, Accept(s, call, ref, cancelled, runnable))
  {
    hide MaybeRetire, Without;
    RetireGoes(Added(s, call, ref, Ended).(cancelled := Without(s.cancelled, call.invocation)), call.cellId, ref);
  }

  lemma DispatchGoes(s: State, call: ToolCall)
    requires WellFormed(s)
    ensures ExecutionsGo(s, Dispatch(s, call))
  {
    if !s.failed && !s.closed {
      var b := Arrive(s, call);
      assert ExecutionsGo(s, b);
      ArriveSame(s, call);
      hide Arrive, Accept, Fail, ExecutionsGo;
      var ref := b.cells[call.cellId];
      FailGoes(b);
      var c := Advance(b, ref, call.sequence);
      var known := call.execution in s.executions;
      var cancelled, runnable := known && s.executions[call.execution].cancelled, known && call.toolKnown;
      AcceptGoes(c, call, ref, cancelled, runnable);
      SameGoes(s, b, c);
      SameGoes(s, b, Fail(b));
      if call.sequence > b.objects[ref].highest { GoChain(s, c, Accept(c, call, ref, cancelled, runnable)); }
    } else {
      assert Dispatch(s, call) == s;
    }
  }

  lemma SameGoes(s: State, b: State, c: State)
    requires ExecutionsGo(s, b) && c.executions == b.executions
    ensures ExecutionsGo(s, c)
  {
  }

  lemma CellStateExecutions(s: State, cellId: nat)
    ensures CellState(s, cellId).executions == s.executions
  {
  }

  lemma StartedGoes(s: State, execution: nat, cellId: nat)
    requires WellFormed(s)
    ensures ExecutionsGo(s, Started(s, execution, cellId))
  {
    hide CellState, MaybeRetire;
    var a :=
      if execution in s.executions
      then s.(executions := s.executions[execution := s.executions[execution].(cell := Some(cellId))])
      else s;
    CellStateSame(a, cellId);
    CellStateExecutions(a, cellId);
    var b := CellState(a, cellId);
    RetireGoes(b, cellId, b.cells[cellId]);
  }

  lemma CloseGoes(s: State, cellId: nat, final: nat, owner: Option<nat>)
    requires WellFormed(s)
    ensures ExecutionsGo(s, CloseCell(s, cellId, final, owner))
  {
    if cellId in s.cells {
      var ref := s.cells[cellId];
      var m := s.(objects := s.objects[ref := s.objects[ref].(finalSequence := Some(final))]);
      hide MaybeRetire;
      RetireGoes(m, cellId, ref);
    }
  }

  lemma OtherEventsGo(s: State, ev: Event)
    requires WellFormed(s) && !ev.ExecutionBegins? && !ev.ExecutionCancelled?
    ensures ExecutionsGo(s, Step(s, ev))
  {
    hide CloseCell, Started, Finish, Answered, Fail, CancelTool, AbortAll, Dispatch, ExecutionsGo, WellFormed;
    NothingGoes(s);
    match ev
    case CallArrives(call) => DispatchGoes(s, call);
    case CellClosed(cellId, final, owner) => CloseGoes(s, cellId, final, owner);
    case CellStarted(x, cellId) => StartedGoes(s, x, cellId);
    case StreamFails => FailGoes(s); SameGoes(s, s, Fail(s));
    case CloseBegins => AbortAllExecutions(s); SameGoes(s, s, Step(s, ev));
    case ToolCancelled(i) => CancelExecutions(s, i); SameGoes(s, s, CancelTool(s, i));
    case AdmissionAnswers(_, _, _) => TaskEventGoes(s, ev);
    case ToolReturns(_) => TaskEventGoes(s, ev);
    case HostAnswers(_, _) => TaskEventGoes(s, ev);
    case ExecutionEnds(_) => EndingGoes(s, ev);
    case CloseEnds => EndingGoes(s, ev);
    case CloseDrained => EndingGoes(s, ev);
  }

  lemma NothingGoes(s: State)
    ensures ExecutionsGo(s, s)
  {
  }

  lemma EndingGoes(s: State, ev: Event)
    requires WellFormed(s) && (ev.ExecutionEnds? || ev.CloseEnds? || ev.CloseDrained?)
    ensures ExecutionsGo(s, Step(s, ev))
  {
  }

  lemma TaskEventGoes(s: State, ev: Event)
    requires WellFormed(s) && (ev.AdmissionAnswers? || ev.ToolReturns? || ev.HostAnswers?)
    ensures ExecutionsGo(s, Step(s, ev))
  {
    hide Finish, Answered, ExecutionsGo;
    NothingGoes(s);
    var t := ev.task;
    if t < |s.tasks| {
      FinishGoes(s, t);
      SameGoes(s, s, Send(s, t));
      if InPhase(s, t, Queued) && !s.tasks[t].aborted { SameGoes(s, s, Admitted(s, t, true, true)); }
      if ev.HostAnswers? { AnsweredGoes(s, t, ev.ok); }
    }
  }

  /** An execution is cancelled by its own cancellation alone, and begins uncancelled. */
  lemma CancelledExactly(s: State, ev: Event, e: nat)
    requires WellFormed(s) && e in Step(s, ev).executions
    ensures if e in s.executions
      then Step(s, ev).executions[e].cancelled == (s.executions[e].cancelled || ev == ExecutionCancelled(e))
      else ev == ExecutionBegins(e) && !Step(s, ev).executions[e].cancelled
  {
    if !ev.ExecutionBegins? && !ev.ExecutionCancelled? {
      hide Step;
      OtherEventsGo(s, ev);
    }
  }

  lemma AbortAllExecutions(s: State)
    ensures AbortAll(s).executions == s.executions
  {
  }

  lemma CancelExecutions(s: State, id: nat)
    requires WellFormed(s)
    ensures CancelTool(s, id).executions == s.executions
  {
    hide Remember;
  }

  /** The execution is cancelled, or not known any more: its calls are refused. */
  predicate Off(s: State, e: nat) {
    e in s.executions ==> s.executions[e].cancelled
  }

  lemma {:induction false} OffRun(s: State, events: seq<Event>, e: nat)
    requires WellFormed(s) && Off(s, e) && forall i :: 0 <= i < |events| ==> events[i] != ExecutionBegins(e)
    ensures Off(Run(s, events), e)
    decreases |events|
  {
    if events != [] {
      StepWellFormed(s, events[0]);
      if e in Step(s, events[0]).executions { CancelledExactly(s, events[0], e); }
      hide Step, WellFormed;
      OffRun(Step(s, events[0]), events[1..], e);
    }
  }

  /** No call of an execution is queued after that was cancelled, whatever happens in between, until
      an execution of that id begins anew. */
  lemma CancelledExecutionQueuesNothing(before: seq<Event>, e: nat, after: seq<Event>, call: ToolCall)
    requires call.execution == e && forall i :: 0 <= i < |after| ==> after[i] != ExecutionBegins(e)
    ensures var s := Run(Initial, before + ([ExecutionCancelled(e)] + after));
      var r := Dispatch(s, call);
      !Runnable(s, call) && |r.tasks| <= |s.tasks| + 1 && (|r.tasks| == |s.tasks| + 1 ==> !r.tasks[|s.tasks|].Live())
  {
    var s := Run(Initial, before);
    RunSplit(Initial, before, [ExecutionCancelled(e)] + after);
    RunFirst(s, ExecutionCancelled(e), after);
    var m := Step(s, ExecutionCancelled(e));
    if e in m.executions { CancelledExactly(s, ExecutionCancelled(e), e); }
    hide Step, WellFormed;
    OffRun(m, after, e);
    DispatchJoined(Run(m, after), call);
    SteadyOrJoined(Run(m, after), Dispatch(Run(m, after), call));
  }

  lemma SteadyOrJoined(s: State, r: State)
    requires Steady(s, r) || Joined(s, r)
    ensures |s.tasks| <= |r.tasks| <= |s.tasks| + 1
  {
  }

  // ---- a closure and a start, in either order ----

  /** An early closure is kept for a cell that is not listed. */
  predicate EarlyUnlisted(s: State) {
    forall c :: c in s.earlyClosures ==> c !in s.cells
  }

  function ClosedThenStarted(s: State, e: nat, c: nat, final: nat): State
    requires WellFormed(s)
  {
    StepWellFormed(s, CellClosed(c, final, Some(e)));
    Step(Step(s, CellClosed(c, final, Some(e))), CellStarted(e, c))
  }

  function StartedThenClosed(s: State, e: nat, c: nat, final: nat): State
    requires WellFormed(s)
  {
    StepWellFormed(s, CellStarted(e, c));
    Step(Step(s, CellStarted(e, c)), CellClosed(c, final, Some(e)))
  }

  /** The closure does not find the cell at its end already: what is listed is not complete, with
      this closure or without, and an earlier closure did not close an empty cell. */
  predicate InTime(s: State, c: nat, final: nat)
    requires WellFormed(s)
  {
    if c in s.cells then !Complete(s.objects[s.cells[c]]) && !Complete(s.objects[s.cells[c]].(finalSequence := Some(final)))
    else c in s.earlyClosures && s.earlyClosures[c] == 0 ==> final == 0
  }

  lemma Dropped(s: State, c: nat, ref: nat)
    requires ref < |s.objects| && Complete(s.objects[ref])
    ensures MaybeRetire(s, c, ref) == s.(cells := s.cells - {c}, executions := Others(s.executions, c))
  {
  }

  /** The executions of other cells. */
  function Others(executions: map<nat, Execution>, c: nat): map<nat, Execution> {
    map e | e in executions && executions[e].cell != Some(c) :: executions[e]
  }

  /** The executions with this one bound to the cell. */
  function Bind(s: State, e: nat, c: nat): map<nat, Execution>
    requires e in s.executions
  {
    s.executions[e := s.executions[e].(cell := Some(c))]
  }

  lemma StartedListed(s: State, e: nat, c: nat)
    requires WellFormed(s) && e in s.executions && c in s.cells
    ensures Started(s, e, c) ==
      if Complete(s.objects[s.cells[c]]) then s.(cells := s.cells - {c}, executions := Others(Bind(s, e, c), c))
      else s.(executions := Bind(s, e, c))
  {
    hide MaybeRetire;
    var a := s.(executions := Bind(s, e, c));
    if Complete(s.objects[s.cells[c]]) { Dropped(a, c, s.cells[c]); } else { StaysListed(a, c, s.cells[c]); }
  }

  lemma StaysListed(s: State, c: nat, ref: nat)
    requires ref < |s.objects| && !Complete(s.objects[ref])
    ensures MaybeRetire(s, c, ref) == s
  {
  }

  lemma ClosedListed(s: State, c: nat, final: nat, owner: Option<nat>)
    requires WellFormed(s) && c in s.cells
    ensures var ref := s.cells[c];
      var o := s.objects[ref].(finalSequence := Some(final));
      CloseCell(s, c, final, owner) ==
        if Complete(o) then s.(objects := s.objects[ref := o], cells := s.cells - {c}, executions := Others(s.executions, c))
        else s.(objects := s.objects[ref := o])
  {
    hide MaybeRetire;
    var ref := s.cells[c];
    var m := s.(objects := s.objects[ref := s.objects[ref].(finalSequence := Some(final))]);
    if Complete(m.objects[ref]) { Dropped(m, c, ref); } else { StaysListed(m, c, ref); }
  }

  lemma OrderSteps(s: State, e: nat, c: nat, final: nat)
    requires WellFormed(s)
    ensures var a := CloseCell(s, c, final, Some(e)); WellFormed(a) && ClosedThenStarted(s, e, c, final) == Started(a, e, c)
    ensures var b := Started(s, e, c); WellFormed(b) && StartedThenClosed(s, e, c, final) == CloseCell(b, c, final, Some(e))
  {
    CloseCellSame(s, c, final, Some(e));
    StartedSame(s, e, c);
    hide CloseCell, Started, WellFormed;
  }

  /** A cell that is dropped at its closure is listed again by a later start. */
  lemma StartedUnlisted(s: State, e: nat, c: nat)
    requires WellFormed(s) && c !in s.cells && c !in s.earlyClosures
    ensures c in Started(s, e, c).cells && |Started(s, e, c).objects| == |s.objects| + 1
  {
    hide WellFormed;
  }

  lemma ListedOrder(s: State, e: nat, c: nat, final: nat)
    requires WellFormed(s) && EarlyUnlisted(s) && e in s.executions && c in s.cells
    ensures ClosedThenStarted(s, e, c, final) == StartedThenClosed(s, e, c, final) <==> InTime(s, c, final)
  {
    OrderSteps(s, e, c, final);
    hide ClosedThenStarted, StartedThenClosed, CloseCell, Started, Complete, Others, WellFormed;
    var ref := s.cells[c];
    var o := s.objects[ref].(finalSequence := Some(final));
    var a, b := CloseCell(s, c, final, Some(e)), Started(s, e, c);
    ClosedListed(s, c, final, Some(e));
    StartedListed(s, e, c);
    if Complete(o) {
      StartedUnlisted(a, e, c);
      if Complete(s.objects[ref]) { UnlistedKeepsObjects(b, c, final, Some(e)); } else { ClosedListed(b, c, final, Some(e)); }
    } else {
      StartedListed(a, e, c);
      if Complete(s.objects[ref]) { UnlistedKeepsObjects(b, c, final, Some(e)); } else { ClosedListed(b, c, final, Some(e)); }
    }
  }

  /** A closure that ends a listed cell drops it, but a later start lists it once more. */
  lemma ClosureThenLateStart(s: State, e: nat, c: nat, final: nat)
    requires WellFormed(s) && EarlyUnlisted(s) && e in s.executions && c in s.cells
    requires !Complete(s.objects[s.cells[c]]) && Complete(s.objects[s.cells[c]].(finalSequence := Some(final)))
    ensures c in ClosedThenStarted(s, e, c, final).cells && c !in StartedThenClosed(s, e, c, final).cells
  {
    OrderSteps(s, e, c, final);
    hide ClosedThenStarted, StartedThenClosed, CloseCell, Started, Complete, Others, WellFormed;
    var a, b := CloseCell(s, c, final, Some(e)), Started(s, e, c);
    ClosedListed(s, c, final, Some(e));
    StartedListed(s, e, c);
    StartedUnlisted(a, e, c);
    ClosedListed(b, c, final, Some(e));
  }

  lemma UnlistedKeepsObjects(s: State, c: nat, final: nat, owner: Option<nat>)
    requires WellFormed(s) && c !in s.cells
    ensures CloseCell(s, c, final, owner).objects == s.objects && CloseCell(s, c, final, owner).cells == s.cells
  {
  }

  /** A start of a new cell, with the closure that waits for it. */
  lemma StartedNew(s: State, e: nat, c: nat)
    requires WellFormed(s) && e in s.executions && c !in s.cells
    ensures var final := if c in s.earlyClosures then Some(s.earlyClosures[c]) else None;
      var b := s.(objects := s.objects + [Cell(final, 0, {})], cells := s.cells[c := |s.objects|],
                  earlyClosures := s.earlyClosures - {c}, executions := Bind(s, e, c));
      Started(s, e, c) == if final == Some(0) then b.(cells := b.cells - {c}, executions := Others(b.executions, c)) else b
  {
    hide MaybeRetire, WellFormed;
    var final := if c in s.earlyClosures then Some(s.earlyClosures[c]) else None;
    var b := s.(objects := s.objects + [Cell(final, 0, {})], cells := s.cells[c := |s.objects|],
                earlyClosures := s.earlyClosures - {c}, executions := Bind(s, e, c));
    assert b == CellState(s.(executions := Bind(s, e, c)), c);
    assert b.objects[|s.objects|] == Cell(final, 0, {});
    assert Complete(b.objects[|s.objects|]) <==> final == Some(0);
    if final == Some(0) { Dropped(b, c, |s.objects|); } else { StaysListed(b, c, |s.objects|); }
  }

  lemma NewOrder(s: State, e: nat, c: nat, final: nat)
    requires WellFormed(s) && e in s.executions && c !in s.cells
    ensures ClosedThenStarted(s, e, c, final) == StartedThenClosed(s, e, c, final) <==> InTime(s, c, final)
  {
    OrderSteps(s, e, c, final);
    var a := s.(earlyClosures := s.earlyClosures[c := final]);
    assert CloseCell(s, c, final, Some(e)) == a;
    hide ClosedThenStarted, StartedThenClosed, CloseCell, Started, Others, WellFormed;
    StartedNew(a, e, c);
    assert a.earlyClosures - {c} == s.earlyClosures - {c};
    StartedNew(s, e, c);
    var b := Started(s, e, c);
    var early := if c in s.earlyClosures then Some(s.earlyClosures[c]) else None;
    if early == Some(0) {
      NewForgotten(s, e, c, final);
    } else {
      ClosedListed(b, c, final, Some(e));
      assert b.objects[|s.objects| := Cell(Some(final), 0, {})] == s.objects + [Cell(Some(final), 0, {})];
      assert Complete(Cell(Some(final), 0, {})) <==> final == 0;
    }
  }

  /** A cell that its early closure ended at the start ignores a second closure. */
  lemma NewForgotten(s: State, e: nat, c: nat, final: nat)
    requires WellFormed(s) && e in s.executions && c !in s.cells && c in s.earlyClosures && s.earlyClosures[c] == 0
    ensures var b := Started(s, e, c); CloseCell(b, c, final, Some(e)) == b && c !in b.cells && WellFormed(b)
  {
    StartedSame(s, e, c);
    StartedNew(s, e, c);
    hide Started, WellFormed;
  }

  /** Cells at most left the list, and the early closures are the same. */
  predicate EarlySame(s: State, r: State) {
    r.earlyClosures == s.earlyClosures && r.cells.Keys <= s.cells.Keys
  }

  lemma RetireEarly(s: State, c: nat, ref: nat)
    requires ref < |s.objects|
    ensures EarlySame(s, MaybeRetire(s, c, ref))
  {
  }

  lemma FinishEarly(s: State, t: nat)
    requires WellFormed(s) && t < |s.tasks|
    ensures EarlySame(s, Finish(s, t))
  {
    hide MaybeRetire;
    RetireEarly(Unlist(s, t), s.tasks[t].cellId, s.tasks[t].cell);
  }

  lemma FailEarly(s: State)
    ensures Fail(s).earlyClosures == s.earlyClosures && Fail(s).cells == s.cells
  {
  }

  lemma TaskEventEarly(s: State, ev: Event)
    requires WellFormed(s) && (ev.AdmissionAnswers? || ev.ToolReturns? || ev.HostAnswers?)
    ensures EarlySame(s, Step(s, ev))
  {
    hide Finish, Fail, MaybeRetire;
    var t := ev.task;
    if t < |s.tasks| {
      FinishEarly(s, t);
      FailEarly(Finish(s, t));
      var r := s.(tasks := s.tasks[t := s.tasks[t].(phase := Ended)]);
      FailEarly(r);
      RetireEarly(r, s.tasks[t].cellId, s.tasks[t].cell);
    }
  }

  lemma CellStateEarly(s: State, c: nat)
    requires EarlyUnlisted(s)
    ensures EarlyUnlisted(CellState(s, c))
  {
  }

  lemma CallEarly(s: State, call: ToolCall)
    requires WellFormed(s) && EarlyUnlisted(s)
    ensures EarlyUnlisted(Dispatch(s, call))
  {
    if !s.failed && !s.closed {
      hide CellState, Accept, Fail, Advance;
      var e := call.execution;
      var a := if e in s.executions && s.executions[e].cell.None?
        then s.(executions := s.executions[e := s.executions[e].(cell := Some(call.cellId))])
        else s;
      CellStateEarly(a, call.cellId);
      ArriveSame(s, call);
      var b := Arrive(s, call);
      assert b == CellState(a, call.cellId);
      var ref := b.cells[call.cellId];
      FailEarly(b);
      AdvanceEarly(b, ref, call.sequence);
      var known := call.execution in s.executions;
      AcceptEarly(Advance(b, ref, call.sequence), call, ref, known && s.executions[call.execution].cancelled, known && call.toolKnown);
    }
  }

  lemma AdvanceEarly(s: State, ref: nat, sequence: nat)
    requires ref < |s.objects|
    ensures EarlySame(s, Advance(s, ref, sequence)) && |Advance(s, ref, sequence).objects| == |s.objects|
  {
  }

  lemma AcceptEarly(s: State, call: ToolCall, ref: nat, cancelled: bool, runnable: bool)
    requires ref < |s.objects|
    ensures EarlySame(s, Accept(s, call, ref, cancelled, runnable))
  {
    hide MaybeRetire, Without;
    RetireEarly(Added(s, call, ref, Ended).(cancelled := Without(s.cancelled, call.invocation)), call.cellId, ref);
  }

  lemma StartedEarly(s: State, e: nat, c: nat)
    requires WellFormed(s) && EarlyUnlisted(s)
    ensures EarlyUnlisted(Started(s, e, c))
  {
    hide CellState, MaybeRetire;
    var a := if e in s.executions then s.(executions := s.executions[e := s.executions[e].(cell := Some(c))]) else s;
    CellStateSame(a, c);
    CellStateEarly(a, c);
    RetireEarly(CellState(a, c), c, CellState(a, c).cells[c]);
  }

  lemma ClosedEarly(s: State, c: nat, final: nat, owner: Option<nat>)
    requires WellFormed(s) && EarlyUnlisted(s)
    ensures EarlyUnlisted(CloseCell(s, c, final, owner))
  {
    hide MaybeRetire;
    if c in s.cells {
      var ref := s.cells[c];
      RetireEarly(s.(objects := s.objects[ref := s.objects[ref].(finalSequence := Some(final))]), c, ref);
    }
  }

  lemma EarlyStep(s: State, ev: Event)
    requires WellFormed(s) && EarlyUnlisted(s)
    ensures EarlyUnlisted(Step(s, ev))
  {
    hide Dispatch, Started, CloseCell, Fail, CancelTool, AbortAll, WellFormed;
    match ev {
      case CallArrives(call) => CallEarly(s, call);
      case CellStarted(e, c) => StartedEarly(s, e, c);
      case CellClosed(c, final, owner) => ClosedEarly(s, c, final, owner);
      case StreamFails => FailEarly(s);
      case ToolCancelled(i) => CancelEarly(s, i);
      case CloseBegins => AbortAllEarly(s);
      case AdmissionAnswers(_, _, _) => TaskEventEarly(s, ev); hide Step;
      case ToolReturns(_) => TaskEventEarly(s, ev); hide Step;
      case HostAnswers(_, _) => TaskEventEarly(s, ev); hide Step;
      case _ =>
    }
  }

  lemma CancelEarly(s: State, id: nat)
    requires WellFormed(s)
    ensures EarlySame(s, CancelTool(s, id))
  {
    hide Remember;
  }

  lemma AbortAllEarly(s: State)
    ensures EarlySame(s, AbortAll(s))
  {
  }

  lemma {:induction false} EarlyRun(s: State, events: seq<Event>)
    requires WellFormed(s) && EarlyUnlisted(s)
    ensures EarlyUnlisted(Run(s, events))
    decreases |events|
  {
    if events != [] {
      StepWellFormed(s, events[0]);
      EarlyStep(s, events[0]);
      hide Step, WellFormed, EarlyUnlisted;
      EarlyRun(Step(s, events[0]), events[1..]);
    }
  }

  /** In every run, a closure and a start of a cell of a known execution lead to the same session in
      either order exactly when the closure does not find the cell at its end already. */
  lemma OrderExact(events: seq<Event>, e: nat, c: nat, final: nat)
    requires e in Run(Initial, events).executions
    ensures var s := Run(Initial, events);
      ClosedThenStarted(s, e, c, final) == StartedThenClosed(s, e, c, final) <==> InTime(s, c, final)
  {
    var s := Run(Initial, events);
    assert EarlyUnlisted(Initial) && WellFormed(Initial);
    hide ClosedThenStarted, StartedThenClosed, InTime, WellFormed, EarlyUnlisted;
    EarlyRun(Initial, events);
    if c in s.cells { ListedOrder(s, e, c, final); } else { NewOrder(s, e, c, final); }
  }

  // ---- one run in which the order matters ----

  const Bound5 := map[0 := Execution(false, Some(5))]

  /** The only call of cell 5 was refused, and the host has the answer. */
  const Refused5 := State([Cell(None, 1, {})], map[5 := 0], [Task(1, 5, 0, false, Ended, 0, 1)], map[], [], map[], Bound5, false, false)

  const Refusal5: seq<Event> := [ExecutionBegins(0), CallArrives(ToolCall(0, 5, 1, 1, false)), HostAnswers(0, true)]

  lemma RefusalSteps(a: State, b: State)
    requires a == Initial.(executions := map[0 := Execution(false, None)])
    requires b == Refused5.(tasks := [Task(1, 5, 0, false, Refusing, 0, 1)])
    ensures WellFormed(a) && WellFormed(b) && Dispatch(a, Refusal5[1].call) == b && Answered(b, 0, true) == Refused5
  {
    assert WellFormed(a) && WellFormed(b);
    hide WellFormed;
    var m := Arrive(a, Refusal5[1].call);
    assert m.executions == Bound5 && m.cells == map[5 := 0] && m.objects == [Cell(None, 0, {})] && m.earlyClosures == map[];
    hide Arrive;
    var c := Advance(m, 0, 1);
    assert c.objects == [Cell(None, 1, {})];
  }

  lemma RefusalRuns()
    ensures Run(Initial, Refusal5) == Refused5
  {
    var a := Initial.(executions := map[0 := Execution(false, None)]);
    var b := Refused5.(tasks := [Task(1, 5, 0, false, Refusing, 0, 1)]);
    RefusalSteps(a, b);
    hide Dispatch, Started, Finish, Answered, CancelTool, CloseCell, Fail, AbortAll;
    assert Step(Initial, Refusal5[0]) == a && Step(a, Refusal5[1]) == b && Step(b, Refusal5[2]) == Refused5;
    hide Step;
    RunFirst(Initial, Refusal5[0], [Refusal5[1]] + ([Refusal5[2]] + []));
    RunFirst(a, Refusal5[1], [Refusal5[2]] + []);
    RunFirst(b, Refusal5[2], []);
    assert Refusal5 == [Refusal5[0]] + ([Refusal5[1]] + ([Refusal5[2]] + []));
  }

  lemma RefusedParts()
    ensures WellFormed(Refused5) && EarlyUnlisted(Refused5) && 5 in Refused5.cells && 0 in Refused5.executions
    ensures Refused5.objects[Refused5.cells[5]] == Cell(None, 1, {})
  {
  }

  /** When the start of a cell comes after the closure that ended it, the cell is listed once more;
      in the other order it is gone. */
  lemma LateStartListsAgain()
    ensures Run(Initial, Refusal5) == Refused5
    ensures WellFormed(Refused5) && 0 in Refused5.executions
    ensures 5 in ClosedThenStarted(Refused5, 0, 5, 1).cells && 5 !in StartedThenClosed(Refused5, 0, 5, 1).cells
  {
    RefusalRuns();
    RefusedParts();
    hide ClosedThenStarted, StartedThenClosed, WellFormed, EarlyUnlisted, Run, Others, Bind, MaybeRetire;
    ClosureThenLateStart(Refused5, 0, 5, 1);
  }
}
