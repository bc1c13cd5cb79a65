/** Tool calls of one session, over whole runs: how often a call starts and answers, and that
    nothing starts after a failure or a close. */
module SessionTheorems {
  import opened SessionStates
  import opened SessionRuns

  // ---- each call at most once ----

  /** How often tools started for one invocation id. */
  function Starts(tasks: seq<Task>, id: nat): nat {
    if tasks == [] then 0
    else Starts(tasks[..|tasks| - 1], id) + (if tasks[|tasks| - 1].invocation == id then tasks[|tasks| - 1].runs else 0)
  }

  /** How many completions were handed to the host for one invocation id. */
  function Completions(tasks: seq<Task>, id: nat): nat {
    if tasks == [] then 0
    else Completions(tasks[..|tasks| - 1], id) + (if tasks[|tasks| - 1].invocation == id then tasks[|tasks| - 1].sent else 0)
  }

  function Holders(tasks: seq<Task>, id: nat): nat {
    if tasks == [] then 0
    else Holders(tasks[..|tasks| - 1], id) + (if tasks[|tasks| - 1].invocation == id then 1 else 0)
  }

  /** How many tool calls the host delivered under one invocation id. */
  function Calls(events: seq<Event>, id: nat): nat {
    if events == [] then 0
    else (if events[0].CallArrives? && events[0].call.invocation == id then 1 else 0) + Calls(events[1..], id)
  }

  lemma {:induction false} OncePerHolder(tasks: seq<Task>, id: nat)
    requires forall t :: 0 <= t < |tasks| ==> Counted(tasks[t])
    ensures Starts(tasks, id) <= Holders(tasks, id) && Completions(tasks, id) <= Holders(tasks, id)
  {
    if tasks != [] {
      assert Counted(tasks[|tasks| - 1]);
      OncePerHolder(tasks[..|tasks| - 1], id);
    }
  }

  lemma {:induction false} SameIdsSameHolders(a: seq<Task>, b: seq<Task>, id: nat)
    requires |a| == |b| && forall t :: 0 <= t < |a| ==> a[t].invocation == b[t].invocation
    ensures Holders(a, id) == Holders(b, id)
  {
    if a != [] {
      SameIdsSameHolders(a[..|a| - 1], b[..|b| - 1], id);
    }
  }

  /** What a call may add: one task under its id, which has not started anything. */
  predicate Born(s: State, r: State, call: ToolCall) {
    && |r.tasks| == |s.tasks| + 1
    && r.tasks[..|s.tasks|] == s.tasks
    && r.tasks[|s.tasks|].invocation == call.invocation && r.tasks[|s.tasks|].runs == 0
    && r.cancelled == Without(s.cancelled, call.invocation)
    && (call.invocation in s.cancelled ==> r.tasks[|s.tasks|].phase == Ended)
    && (s.failed ==> r.failed) && (s.closed ==> r.closed)
  }

  predicate SameCount(s: State, r: State) {
    |r.tasks| == |s.tasks| && r.cancelled == s.cancelled && (s.failed ==> r.failed) && (s.closed ==> r.closed)
  }

  lemma {:induction false} WithoutAbsent(q: seq<nat>, x: nat)
    requires x !in q
    ensures Without(q, x) == q
  {
    if q != [] { WithoutAbsent(q[1..], x); }
  }

  lemma AcceptBears(s: State, call: ToolCall, ref: nat, cancelled: bool, runnable: bool)
    requires WellFormed(s) && ref < |s.objects|
    ensures Born(s, Accept(s, call, ref, cancelled, runnable), call)
  {
    hide Without;
    if call.invocation in s.cancelled {
      var m := Added(s, call, ref, Ended).(cancelled := Without(s.cancelled, call.invocation));
      hide MaybeRetire;
      MaybeRetireSame(m, call.cellId, ref);
    } else {
      WithoutAbsent(s.cancelled, call.invocation);
    }
  }

  lemma DispatchBears(s: State, call: ToolCall)
    requires WellFormed(s)
    ensures SameCount(s, Dispatch(s, call)) || Born(s, Dispatch(s, call), call)
    ensures s.failed || s.closed ==> Dispatch(s, call) == s
  {
    if !s.failed && !s.closed {
      var b := Arrive(s, call);
      ArriveSame(s, call);
      hide Arrive, Accept;
      var ref := b.cells[call.cellId];
      if call.sequence > b.objects[ref].highest {
        var c := Advance(b, ref, call.sequence);
        var known := call.execution in s.executions;
        AdvanceSame(b, ref, call.sequence);
        AcceptBears(c, call, ref, known && s.executions[call.execution].cancelled, known && call.toolKnown);
      }
    }
  }

  lemma CancelCalm(s: State, invocation: nat)
    requires WellFormed(s)
    ensures |CancelTool(s, invocation).tasks| == |s.tasks|
    ensures CancelTool(s, invocation).failed == s.failed && CancelTool(s, invocation).closed == s.closed
  {
    hide Remember;
  }

  lemma FinishCalm(s: State, t: nat)
    requires WellFormed(s) && t < |s.tasks| && s.tasks[t].Live()
    ensures SameCount(s, Finish(s, t))
  {
    var m := Unlist(s, t);
    UnlistOne(s, t);
    assert m.cancelled == s.cancelled;
    hide Unlist, MaybeRetire, WellFormed;
    MaybeRetireSame(m, s.tasks[t].cellId, s.tasks[t].cell);
  }

  lemma AbortAllCalm(s: State)
    ensures SameCount(s, AbortAll(s))
  {
  }

  lemma FailCalm(s: State)
    ensures SameCount(s, Fail(s))
  {
  }

  lemma AnsweredCalm(s: State, t: nat, ok: bool)
    requires WellFormed(s) && (InPhase(s, t, Refusing) || InPhase(s, t, Sending))
    ensures SameCount(s, Answered(s, t, ok))
  {
    hide MaybeRetire, Finish, Fail;
    var k := s.tasks[t];
    var r := if k.phase == Refusing then s.(tasks := s.tasks[t := k.(phase := Ended)]) else Finish(s, t);
    if k.phase == Refusing {
      MaybeRetireSame(r, k.cellId, k.cell);
    } else {
      FinishCalm(s, t);
    }
    FailCalm(r);
  }

  /** Only calls add tasks; only cancellations, calls and the end of a close touch the record of
      early cancellations; a failure or a close is never undone. */
  lemma StepBears(s: State, ev: Event)
    requires WellFormed(s)
    ensures ev.CallArrives? ==> SameCount(s, Step(s, ev)) || Born(s, Step(s, ev), ev.call)
    ensures !ev.CallArrives? ==> |Step(s, ev).tasks| == |s.tasks|
    ensures !ev.CallArrives? && !ev.ToolCancelled? && !ev.CloseEnds? ==> Step(s, ev).cancelled == s.cancelled
    ensures s.failed ==> Step(s, ev).failed
    ensures s.closed ==> Step(s, ev).closed
  {
    hide CloseCell, Started, Finish, Answered, Fail, WellFormed, CancelTool, AbortAll;
    match ev
    case CallArrives(call) => DispatchBears(s, call);
    case CellClosed(cellId, final, owner) => CloseCellSame(s, cellId, final, owner);
    case CellStarted(e, cellId) => StartedSame(s, e, cellId);
    case StreamFails => FailCalm(s);
    case CloseBegins => AbortAllCalm(s);
    case CloseEnds =>
    case CloseDrained =>
    case ToolCancelled(i) =>
      CancelCalm(s, i);
    case ExecutionBegins(_) =>
    case ExecutionCancelled(_) =>
    case ExecutionEnds(_) =>
    case AdmissionAnswers(_, _, _) => TaskEventCalm(s, ev);
    case ToolReturns(_) => TaskEventCalm(s, ev);
    case HostAnswers(_, _) => TaskEventCalm(s, ev);
  }

  lemma TaskEventCalm(s: State, ev: Event)
    requires WellFormed(s) && (ev.AdmissionAnswers? || ev.ToolReturns? || ev.HostAnswers?)
    ensures SameCount(s, Step(s, ev))
  {
    hide Finish, Answered, WellFormed;
    var t := ev.task;
    if t < |s.tasks| {
      if s.tasks[t].Live() { FinishCalm(s, t); }
      if ev.HostAnswers? && (InPhase(s, t, Refusing) || InPhase(s, t, Sending)) { AnsweredCalm(s, t, ev.ok); }
    }
  }

  lemma HoldersStep(s: State, r: State, ev: Event, id: nat)
    requires TasksGrow(s, r)
    requires ev.CallArrives? ==> SameCount(s, r) || Born(s, r, ev.call)
    requires !ev.CallArrives? ==> |r.tasks| == |s.tasks|
    ensures Holders(r.tasks, id) <= Holders(s.tasks, id) + (if ev.CallArrives? && ev.call.invocation == id then 1 else 0)
  {
    SameIdsSameHolders(s.tasks, r.tasks[..|s.tasks|], id);
    if |r.tasks| == |s.tasks| {
      assert r.tasks[..|s.tasks|] == r.tasks;
    }
  }

  /** A session's tool tasks are never more than the calls that arrived. */
  lemma {:induction false} HoldersWithinCalls(s: State, events: seq<Event>, id: nat)
    requires WellFormed(s) && AllCounted(s)
    ensures Holders(Run(s, events).tasks, id) <= Holders(s.tasks, id) + Calls(events, id)
    ensures AllCounted(Run(s, events))
    decreases |events|
  {
    if events != [] {
      var r := Step(s, events[0]);
      StepKeeps(s, events[0]);
      StepBears(s, events[0]);
      hide Step, AllCounted, WellFormed, Holders, TasksGrow, SameCount, Born;
      HoldersStep(s, r, events[0], id);
      HoldersWithinCalls(r, events[1..], id);
    }
  }

  /** Under every order of the streams, a delivered call starts its tool at most once and answers
      at most once. */
  lemma EachCallOnce(events: seq<Event>, id: nat)
    ensures Starts(Run(Initial, events).tasks, id) <= Calls(events, id)
    ensures Completions(Run(Initial, events).tasks, id) <= Calls(events, id)
  {
    HoldersWithinCalls(Initial, events, id);
    OncePerHolder(Run(Initial, events).tasks, id);
  }

  // ---- runs without a collision of invocation ids ----

  lemma StepWellFormed(s: State, ev: Event)
    requires WellFormed(s)
    ensures WellFormed(Step(s, ev))
  {
    StepKeeps(s, ev);
  }

  predicate CollidesOn(s: State, ev: Event, id: nat)
    requires WellFormed(s)
  {
    Collides(s, ev) && ev.call.invocation == id
  }

  /** No event of the run queues a call under this id while the pending table still holds it. */
  predicate ClearOf(s: State, events: seq<Event>, id: nat)
    requires WellFormed(s)
    decreases |events|
  {
    events == [] ||
    (!CollidesOn(s, events[0], id) && (StepWellFormed(s, events[0]); ClearOf(Step(s, events[0]), events[1..], id)))
  }

  /** No event of the run queues a call under any id that the pending table still holds. */
  ghost predicate Clear(s: State, events: seq<Event>)
    requires WellFormed(s)
  {
    forall id: nat :: ClearOf(s, events, id)
  }

  lemma ClearFirst(s: State, events: seq<Event>)
    requires WellFormed(s) && Clear(s, events) && events != []
    ensures !Collides(s, events[0])
    ensures WellFormed(Step(s, events[0])) && Clear(Step(s, events[0]), events[1..])
  {
    StepWellFormed(s, events[0]);
    hide Step, WellFormed, Runnable;
    if events[0].CallArrives? {
      assert ClearOf(s, events, events[0].call.invocation);
    }
    forall id: nat ensures ClearOf(Step(s, events[0]), events[1..], id) {
      assert ClearOf(s, events, id);
    }
  }

  /** Every state of a run without a collision. */
  lemma {:induction false} RunKeeps(s: State, events: seq<Event>)
    requires Inv(s) && Clear(s, events)
    ensures Inv(Run(s, events))
    decreases |events|
  {
    if events != [] {
      StepKeeps(s, events[0]);
      ClearFirst(s, events);
      hide Step, Inv, Clear, Collides;
      RunKeeps(Step(s, events[0]), events[1..]);
    }
  }

  lemma {:induction false} RunSplit(s: State, a: seq<Event>, b: seq<Event>)
    requires WellFormed(s)
    ensures Run(s, a + b) == Run(Run(s, a), b)
    decreases |a|
  {
    if a == [] {
      assert a + b == b;
    } else {
      StepWellFormed(s, a[0]);
      assert (a + b)[0] == a[0] && (a + b)[1..] == a[1..] + b;
      hide Step, WellFormed;
      RunSplit(Step(s, a[0]), a[1..], b);
    }
  }

  lemma RunFirst(s: State, ev: Event, rest: seq<Event>)
    requires WellFormed(s)
    ensures WellFormed(Step(s, ev))
    ensures Run(s, [ev] + rest) == Run(Step(s, ev), rest)
  {
    StepKeeps(s, ev);
    assert ([ev] + rest)[1..] == rest;
  }

  lemma RunOne(s: State, ev: Event)
    requires WellFormed(s)
    ensures Run(s, [ev]) == Step(s, ev)
  {
    RunFirst(s, ev, []);
    assert [ev] + [] == [ev];
  }

  lemma {:induction false} ClearOfSplit(s: State, a: seq<Event>, b: seq<Event>, id: nat)
    requires WellFormed(s)
    ensures ClearOf(s, a + b, id) <==> ClearOf(s, a, id) && ClearOf(Run(s, a), b, id)
    decreases |a|
  {
    if a == [] {
      assert a + b == b;
    } else {
      StepWellFormed(s, a[0]);
      assert (a + b)[0] == a[0] && (a + b)[1..] == a[1..] + b;
      hide Step, WellFormed, CollidesOn;
      ClearOfSplit(Step(s, a[0]), a[1..], b, id);
    }
  }

  lemma ClearSplit(s: State, a: seq<Event>, b: seq<Event>)
    requires WellFormed(s)
    ensures Clear(s, a + b) <==> Clear(s, a) && Clear(Run(s, a), b)
  {
    hide WellFormed, ClearOf;
    forall id: nat ensures ClearOf(s, a + b, id) <==> ClearOf(s, a, id) && ClearOf(Run(s, a), b, id) {
      ClearOfSplit(s, a, b, id);
    }
  }

  // ---- nothing starts after a failure or a close ----

  predicate Halted(s: State) {
    s.failed || s.closed
  }

  /** Every task has started exactly as often as it had in `s`. */
  predicate NoStarts(s: State, r: State) {
    && |s.tasks| <= |r.tasks|
    && (forall t :: 0 <= t < |s.tasks| ==> r.tasks[t].runs == s.tasks[t].runs)
    && (forall t :: |s.tasks| <= t < |r.tasks| ==> r.tasks[t].runs == 0)
  }

  lemma HaltedStep(s: State, ev: Event)
    requires Inv(s) && Halted(s)
    ensures Inv(Step(s, ev)) && NoStarts(s, Step(s, ev)) && |Step(s, ev).tasks| == |s.tasks|
    ensures Halted(Step(s, ev))
  {
    StepKeeps(s, ev);
    StepBears(s, ev);
    hide Step, CellsListed, AllCounted, WellFormed;
    if ev.CallArrives? {
      assert Step(s, ev) == s by { DispatchBears(s, ev.call); }
    }
  }

  lemma {:induction false} HaltedRun(s: State, events: seq<Event>)
    requires Inv(s) && Halted(s)
    ensures NoStarts(s, Run(s, events))
    decreases |events|
  {
    if events != [] {
      HaltedStep(s, events[0]);
      hide Step, Inv, Halted;
      HaltedRun(Step(s, events[0]), events[1..]);
    }
  }

  lemma InitialInv()
    ensures Inv(Initial)
  {
  }

  /** Once the session has failed or closed, no queued call starts any more, whatever follows, as
      long as no call before was queued under an id that was still pending. */
  lemma NoStartAfterHalt(before: seq<Event>, after: seq<Event>)
    requires Clear(Initial, before) && Halted(Run(Initial, before))
    ensures NoStarts(Run(Initial, before), Run(Initial, before + after))
  {
    InitialInv();
    hide Inv, Clear, Halted, NoStarts;
    RunKeeps(Initial, before);
    HaltedRun(Run(Initial, before), after);
    RunSplit(Initial, before, after);
  }
}
