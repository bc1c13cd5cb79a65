/** What an invocation id that is queued again while it is still pending does: exactly then some
    continuation starts a tool after a failure or after its own cancellation. */
module SessionReuse {
  import opened SessionStates
  import opened SessionRuns
  import opened SessionTheorems
  import opened SessionCancels

  // ---- the first collision ----

  lemma {:induction false} FirstCollision(s: State, events: seq<Event>, id: nat) returns (k: nat)
    requires WellFormed(s) && !ClearOf(s, events, id)
    ensures k < |events| && ClearOf(s, events[..k], id) && CollidesOn(Run(s, events[..k]), events[k], id)
    decreases |events|
  {
    StepWellFormed(s, events[0]);
    hide Step, WellFormed, CollidesOn;
    if CollidesOn(s, events[0], id) {
      k := 0;
    } else {
      var m := Step(s, events[0]);
      var j := FirstCollision(m, events[1..], id);
      k := j + 1;
      assert events[..k][0] == events[0] && events[..k][1..] == events[1..][..j];
    }
  }

  // ---- a task that no failure and no cancellation reaches ----

  /** The task waits to start and the pending table does not list it. */
  predicate Loose(s: State, t: nat) {
    && !s.failed && !s.closed && InPhase(s, t, Queued) && !s.tasks[t].aborted && s.tasks[t].runs == 0
    && t !in PendingTasks(s)
  }

  /** How the events of a task go on until it has ended, when it is not just queued. */
  function EndOf(k: Task, u: nat): (events: seq<Event>)
    ensures NoCalls(events)
  {
    if k.phase == Queued then if k.aborted then [AdmissionAnswers(u, true, true)] else []
    else if k.phase == Running then
      if k.aborted then [ToolReturns(u)] else [ToolReturns(u), HostAnswers(u, true)]
    else [HostAnswers(u, true)]
  }

  predicate NoCalls(events: seq<Event>) {
    forall i :: 0 <= i < |events| ==> !events[i].CallArrives?
  }

  lemma {:induction false} NoCallsClear(s: State, events: seq<Event>, id: nat)
    requires WellFormed(s) && NoCalls(events)
    ensures ClearOf(s, events, id)
    decreases |events|
  {
    if events != [] {
      StepWellFormed(s, events[0]);
      hide Step, WellFormed;
      NoCallsClear(Step(s, events[0]), events[1..], id);
    }
  }

  lemma FinishFlags(s: State, t: nat)
    requires WellFormed(s) && t < |s.tasks|
    ensures Finish(s, t).failed == s.failed && Finish(s, t).closed == s.closed
    ensures Finish(s, t).tasks == s.tasks[t := s.tasks[t].(phase := Ended)]
    ensures Finish(s, t).pending == s.pending - {s.tasks[t].invocation}
  {
  }

  /** Two live tasks under one id, of which the table lists only the younger one. */
  predicate Doubled(s: State, u: nat, t: nat) {
    && u < t < |s.tasks| && s.tasks[u].Live() && s.tasks[u].invocation == s.tasks[t].invocation
    && !s.failed && !s.closed
    && s.tasks[t].phase == Queued && !s.tasks[t].aborted && s.tasks[t].runs == 0
    && PendingOwn(s) && s.tasks[t].invocation in s.pending && s.pending[s.tasks[t].invocation] == t
  }

  lemma CollisionDoubles(s: State, call: ToolCall)
    requires WellFormed(s) && Sole(s, call.invocation) && Collides(s, CallArrives(call))
    ensures WellFormed(Dispatch(s, call)) && Doubled(Dispatch(s, call), s.pending[call.invocation], |s.tasks|)
    ensures Dispatch(s, call).tasks[|s.tasks|].invocation == call.invocation
  {
    DispatchJoined(s, call);
    DispatchKeeps(s, call);
    DispatchBears(s, call);
    DispatchSole(s, call, call.invocation);
    hide Dispatch, Runnable;
  }

  lemma FinishLoosens(s: State, u: nat, t: nat)
    requires WellFormed(s) && Doubled(s, u, t)
    ensures WellFormed(Finish(s, u)) && Loose(Finish(s, u), t)
    ensures Finish(s, u).tasks[t].invocation == s.tasks[t].invocation
  {
    FinishFlags(s, u);
    FinishKeeps(s, u);
    hide Finish;
  }

  lemma SendDoubled(s: State, u: nat, t: nat)
    requires WellFormed(s) && Doubled(s, u, t)
    ensures WellFormed(Send(s, u)) && Doubled(Send(s, u), u, t) && Send(s, u).tasks[u].phase == Sending
    ensures Send(s, u).tasks[t] == s.tasks[t]
  {
  }

  lemma OlderIsLoose(s: State, u: nat, t: nat)
    requires Doubled(s, u, t) && s.tasks[u].phase == Queued && !s.tasks[u].aborted && Counted(s.tasks[u])
    ensures Loose(s, u)
  {
  }

  /** The one of the two that is loose once the older one has ended or has always been. */
  function LooseOf(s: State, u: nat, t: nat): nat
    requires u < |s.tasks|
  {
    if s.tasks[u].phase == Queued && !s.tasks[u].aborted then u else t
  }

  lemma ReturnedLoosens(s: State, u: nat, t: nat)
    requires WellFormed(s) && Doubled(s, u, t) && s.tasks[u].phase == Running && !s.tasks[u].aborted
    ensures Loose(Run(s, [ToolReturns(u), HostAnswers(u, true)]), t)
    ensures Run(s, [ToolReturns(u), HostAnswers(u, true)]).tasks[t].invocation == s.tasks[t].invocation
  {
    SendDoubled(s, u, t);
    var m := Send(s, u);
    assert Step(s, ToolReturns(u)) == m;
    AnsweredLoosens(m, u, t);
    hide Step, Send, Loose, Doubled;
    RunOne(s, ToolReturns(u));
    RunSplit(s, [ToolReturns(u)], [HostAnswers(u, true)]);
    assert [ToolReturns(u)] + [HostAnswers(u, true)] == [ToolReturns(u), HostAnswers(u, true)];
  }

  lemma AnsweredLoosens(s: State, u: nat, t: nat)
    requires WellFormed(s) && Doubled(s, u, t) && s.tasks[u].phase == Sending
    ensures Loose(Run(s, [HostAnswers(u, true)]), t)
    ensures Run(s, [HostAnswers(u, true)]).tasks[t].invocation == s.tasks[t].invocation
  {
    FinishLoosens(s, u, t);
    hide Finish, Loose;
    assert Step(s, HostAnswers(u, true)) == Finish(s, u);
    hide Step;
    RunOne(s, HostAnswers(u, true));
  }

  lemma AbortedLoosens(s: State, u: nat, t: nat)
    requires WellFormed(s) && Doubled(s, u, t) && s.tasks[u].aborted && (s.tasks[u].phase == Queued || s.tasks[u].phase == Running)
    ensures Loose(Run(s, EndOf(s.tasks[u], u)), t)
    ensures Run(s, EndOf(s.tasks[u], u)).tasks[t].invocation == s.tasks[t].invocation
  {
    FinishLoosens(s, u, t);
    hide Finish, Loose;
    var ev := if s.tasks[u].phase == Queued then AdmissionAnswers(u, true, true) else ToolReturns(u);
    assert Step(s, ev) == Finish(s, u);
    hide Step;
    RunOne(s, ev);
    assert EndOf(s.tasks[u], u) == [ev];
  }

  lemma DoubledLoosens(s: State, u: nat, t: nat)
    requires WellFormed(s) && AllCounted(s) && Doubled(s, u, t)
    ensures var m := Run(s, EndOf(s.tasks[u], u));
      Loose(m, LooseOf(s, u, t)) && m.tasks[LooseOf(s, u, t)].invocation == s.tasks[t].invocation
  {
    assert Counted(s.tasks[u]);
    if s.tasks[u].phase == Queued && !s.tasks[u].aborted {
      OlderIsLoose(s, u, t);
    } else if s.tasks[u].phase == Sending {
      AnsweredLoosens(s, u, t);
    } else if s.tasks[u].aborted {
      AbortedLoosens(s, u, t);
    } else {
      ReturnedLoosens(s, u, t);
    }
  }

  // ---- a loose task starts after a failure, and after its cancellation ----

  lemma StartOne(s: State, t: nat)
    requires WellFormed(s) && InPhase(s, t, Queued) && !s.tasks[t].aborted
    ensures Run(s, [AdmissionAnswers(t, true, true)]).tasks == s.tasks[t := s.tasks[t].(phase := Running, runs := s.tasks[t].runs + 1)]
  {
    RunOne(s, AdmissionAnswers(t, true, true));
  }

  lemma LooseAfterFailure(s: State, t: nat)
    requires WellFormed(s) && Loose(s, t)
    ensures var m := Run(s, [StreamFails]);
      m.failed && t < |m.tasks| && m.tasks[t].runs == 0
      && |Run(m, [AdmissionAnswers(t, true, true)]).tasks| > t && Run(m, [AdmissionAnswers(t, true, true)]).tasks[t].runs == 1
  {
    RunOne(s, StreamFails);
    FailKeeps(s);
    assert Fail(s).tasks[t] == s.tasks[t] && Fail(s).failed && |Fail(s).tasks| == |s.tasks|;
    hide Fail, Kept, WellFormed, Loose;
    StartOne(Fail(s), t);
  }

  lemma LooseAfterCancel(s: State, t: nat)
    requires WellFormed(s) && Loose(s, t)
    ensures var m := Run(s, [ToolCancelled(s.tasks[t].invocation)]);
      && |Run(m, [AdmissionAnswers(t, true, true)]).tasks| > t && Run(m, [AdmissionAnswers(t, true, true)]).tasks[t].runs == 1
  {
    var id := s.tasks[t].invocation;
    CancelMisses(s, t);
    hide Loose;
    RunOne(s, ToolCancelled(id));
    StepWellFormed(s, ToolCancelled(id));
    assert Step(s, ToolCancelled(id)) == CancelTool(s, id);
    hide CancelTool, WellFormed, Step;
    StartOne(CancelTool(s, id), t);
  }

  lemma CancelMisses(s: State, t: nat)
    requires WellFormed(s) && Loose(s, t)
    ensures var m := CancelTool(s, s.tasks[t].invocation);
      |m.tasks| == |s.tasks| && m.tasks[t] == s.tasks[t] && InPhase(m, t, Queued) && !m.tasks[t].aborted && m.tasks[t].runs == 0
  {
    hide Remember;
    var id := s.tasks[t].invocation;
    assert id in s.pending ==> s.pending[id] in PendingTasks(s);
  }

  // ---- the exact conditions ----

  /** Task `t` had not started as often in the halted state after `events[..i]` as at the end. */
  predicate LateStart(events: seq<Event>, i: nat, t: nat)
    requires i <= |events|
  {
    var s, r := Run(Initial, events[..i]), Run(Initial, events);
    Halted(s) && t < |r.tasks| && r.tasks[t].runs > (if t < |s.tasks| then s.tasks[t].runs else 0)
  }

  /** Some tool starts after a failure or a close. */
  ghost predicate StartsAfterHalt(events: seq<Event>) {
    exists i: nat, t: nat :: i <= |events| && LateStart(events, i, t)
  }

  /** Task `t` of a call that had arrived when `events[i]` cancelled it starts after that. */
  predicate LateStartOf(events: seq<Event>, id: nat, i: nat, t: nat)
    requires i < |events|
  {
    var s, r := Run(Initial, events[..i]), Run(Initial, events);
    && events[i] == ToolCancelled(id)
    && t < |s.tasks| && s.tasks[t].invocation == id
    && t < |r.tasks| && r.tasks[t].runs > s.tasks[t].runs
  }

  /** Some call of this invocation starts after its cancellation. */
  ghost predicate StartsAfterCancel(events: seq<Event>, id: nat) {
    exists i: nat, t: nat :: i < |events| && LateStartOf(events, id, i, t)
  }

  lemma ClearNoLateStart(events: seq<Event>)
    requires Clear(Initial, events)
    ensures !StartsAfterHalt(events)
  {
    forall i: nat, t: nat | i <= |events| ensures !LateStart(events, i, t) {
      assert events == events[..i] + events[i..];
      ClearSplit(Initial, events[..i], events[i..]);
      if Halted(Run(Initial, events[..i])) {
        hide Clear, Halted;
        NoStartAfterHalt(events[..i], events[i..]);
      }
    }
  }

  lemma ClearNoLateStartOf(events: seq<Event>, id: nat)
    requires ClearOf(Initial, events, id)
    ensures !StartsAfterCancel(events, id)
  {
    hide ClearOf;
    forall i: nat, t: nat | i < |events| ensures !LateStartOf(events, id, i, t) {
      assert events == events[..i] + events[i..];
      ClearOfSplit(Initial, events[..i], events[i..], id);
      if events[i] == ToolCancelled(id) {
        assert events[i..] == [ToolCancelled(id)] + events[i + 1..];
        NoStartAfterCancel(events[..i], id, events[i + 1..]);
      }
    }
  }

  lemma CollidingStepLoosens(s: State, ev: Event, id: nat) returns (rest: seq<Event>, t: nat)
    requires WellFormed(s) && Sole(s, id) && AllCounted(s) && CollidesOn(s, ev, id)
    ensures NoCalls(rest)
    ensures var m := Run(s, [ev] + rest); Loose(m, t) && m.tasks[t].invocation == id
  {
    CollisionDoubles(s, ev.call);
    StepKeeps(s, ev);
    RunOne(s, ev);
    var r := Step(s, ev);
    assert r == Dispatch(s, ev.call);
    hide Dispatch, Step, Doubled, Loose, AllCounted, WellFormed, TasksGrow, Runnable;
    var u, v := s.pending[id], |s.tasks|;
    DoubledLoosens(r, u, v);
    rest, t := EndOf(r.tasks[u], u), LooseOf(r, u, v);
    RunSplit(s, [ev], rest);
  }

  lemma InitialSole(id: nat)
    ensures WellFormed(Initial) && PendingOwn(Initial) && Sole(Initial, id) && AllCounted(Initial)
  {
  }

  /** The task that a collision at `events[k]` leaves loose, and the events up to there. */
  lemma CollisionLoosens(events: seq<Event>, id: nat) returns (k: nat, rest: seq<Event>, t: nat)
    requires !ClearOf(Initial, events, id)
    ensures k < |events| && NoCalls(rest)
    ensures var m := Run(Initial, events[..k + 1] + rest); Loose(m, t) && m.tasks[t].invocation == id
  {
    hide *;
    InitialSole(id);
    k := FirstCollision(Initial, events, id);
    RunSole(Initial, events[..k], id);
    HoldersWithinCalls(Initial, events[..k], id);
    rest, t := CollidingStepLoosens(Run(Initial, events[..k]), events[k], id);
    assert events[..k + 1] + rest == events[..k] + ([events[k]] + rest);
    RunSplit(Initial, events[..k], [events[k]] + rest);
  }

  lemma LooseStartsLate(before: seq<Event>, t: nat)
    requires Loose(Run(Initial, before), t)
    ensures StartsAfterHalt(before + [StreamFails, AdmissionAnswers(t, true, true)])
  {
    var s := Run(Initial, before);
    var m := before + [StreamFails];
    var all := m + [AdmissionAnswers(t, true, true)];
    assert all == before + [StreamFails, AdmissionAnswers(t, true, true)];
    LooseAfterFailure(s, t);
    RunSplit(Initial, before, [StreamFails]);
    RunSplit(Initial, m, [AdmissionAnswers(t, true, true)]);
    assert all[..|m|] == m;
    hide Loose, Run;
    assert LateStart(all, |m|, t);
  }

  lemma LooseStartsCancelled(before: seq<Event>, t: nat)
    requires Loose(Run(Initial, before), t)
    ensures var id := Run(Initial, before).tasks[t].invocation;
      StartsAfterCancel(before + [ToolCancelled(id), AdmissionAnswers(t, true, true)], id)
  {
    var s := Run(Initial, before);
    var id := s.tasks[t].invocation;
    var m := before + [ToolCancelled(id)];
    var all := m + [AdmissionAnswers(t, true, true)];
    assert all == before + [ToolCancelled(id), AdmissionAnswers(t, true, true)];
    LooseAfterCancel(s, t);
    RunSplit(Initial, before, [ToolCancelled(id)]);
    RunSplit(Initial, m, [AdmissionAnswers(t, true, true)]);
    assert all[..|before|] == before && all[|before|] == ToolCancelled(id);
    hide Run;
    assert LateStartOf(all, id, |before|, t);
  }

  /** Continued after `events[..i]` without a collision, the run starts nothing after a halt. */
  ghost predicate HaltHolds(events: seq<Event>, i: nat, rest: seq<Event>)
    requires i <= |events|
  {
    Clear(Run(Initial, events[..i]), rest) ==> !StartsAfterHalt(events[..i] + rest)
  }

  /** A call was queued under a pending id exactly when the run, stopped somewhere and continued
      without any such call, can start a tool after a failure or a close. */
  lemma HaltExact(events: seq<Event>)
    ensures Clear(Initial, events) <==> forall i: nat, rest: seq<Event> :: i <= |events| ==> HaltHolds(events, i, rest)
  {
    if Clear(Initial, events) {
      forall i: nat, rest: seq<Event> | i <= |events| ensures HaltHolds(events, i, rest) {
        assert events == events[..i] + events[i..];
        ClearSplit(Initial, events[..i], events[i..]);
        ClearSplit(Initial, events[..i], rest);
        hide Clear, StartsAfterHalt;
        if Clear(Run(Initial, events[..i]), rest) { ClearNoLateStart(events[..i] + rest); }
      }
    } else {
      var id: nat :| !ClearOf(Initial, events, id);
      var k, rest, t := CollisionLoosens(events, id);
      var before := events[..k + 1];
      var ending := rest + [StreamFails, AdmissionAnswers(t, true, true)];
      LooseStartsLate(before + rest, t);
      assert before + rest + [StreamFails, AdmissionAnswers(t, true, true)] == before + ending;
      hide StartsAfterHalt, Loose, WellFormed;
      forall other: nat ensures ClearOf(Run(Initial, before), ending, other) {
        NoCallsClear(Run(Initial, before), ending, other);
      }
      assert !HaltHolds(events, k + 1, ending);
    }
  }

  /** Continued after `events[..i]` without a collision under `id`, no cancelled call of it starts. */
  ghost predicate CancelHolds(events: seq<Event>, id: nat, i: nat, rest: seq<Event>)
    requires i <= |events|
  {
    ClearOf(Run(Initial, events[..i]), rest, id) ==> !StartsAfterCancel(events[..i] + rest, id)
  }

  /** A call was queued under `id` while that was pending exactly when the run, stopped somewhere
      and continued without any such call, can start a call of `id` after its cancellation. */
  lemma CancelExact(events: seq<Event>, id: nat)
    ensures ClearOf(Initial, events, id) <==> forall i: nat, rest: seq<Event> :: i <= |events| ==> CancelHolds(events, id, i, rest)
  {
    if ClearOf(Initial, events, id) {
      forall i: nat, rest: seq<Event> | i <= |events| ensures CancelHolds(events, id, i, rest) {
        assert events == events[..i] + events[i..];
        ClearOfSplit(Initial, events[..i], events[i..], id);
        ClearOfSplit(Initial, events[..i], rest, id);
        hide ClearOf, StartsAfterCancel;
        if ClearOf(Run(Initial, events[..i]), rest, id) { ClearNoLateStartOf(events[..i] + rest, id); }
      }
    } else {
      var k, rest, t := CollisionLoosens(events, id);
      var before := events[..k + 1];
      var ending := rest + [ToolCancelled(id), AdmissionAnswers(t, true, true)];
      LooseStartsCancelled(before + rest, t);
      assert before + rest + [ToolCancelled(id), AdmissionAnswers(t, true, true)] == before + ending;
      hide StartsAfterCancel, Loose, WellFormed;
      NoCallsClear(Run(Initial, before), ending, id);
      assert !CancelHolds(events, id, k + 1, ending);
    }
  }

  // ---- the shortest such run ----

  const Bound := map[0 := Execution(false, Some(5))]
  const Waiting := Task(7, 5, 0, false, Queued, 0, 0)

  /** Two calls share id 7: the second hides the first from the pending table. */
  const Hidden := State([Cell(None, 2, {7})], map[5 := 0], [Waiting, Waiting], map[7 := 1], [], map[], Bound, false, false)

  const Reuse: seq<Event> := [
    ExecutionBegins(0), CallArrives(ToolCall(0, 5, 7, 1, true)), CallArrives(ToolCall(0, 5, 7, 2, true))]

  lemma FirstCallQueued(a: State, b: State)
    requires a == Initial.(executions := map[0 := Execution(false, None)])
    requires b == State([Cell(None, 1, {7})], map[5 := 0], [Waiting], map[7 := 0], [], map[], Bound, false, false)
    ensures Dispatch(a, Reuse[1].call) == b
  {
    var m := Arrive(a, Reuse[1].call);
    assert m.executions == Bound && m.cells == map[5 := 0] && m.objects == [Cell(None, 0, {})] && m.earlyClosures == map[];
    hide Arrive, WellFormed;
    var c := Advance(m, 0, 1);
    assert c.objects == [Cell(None, 1, {})];
    assert {} + {7} == {7};
  }

  lemma SecondCallQueued(b: State)
    requires b == State([Cell(None, 1, {7})], map[5 := 0], [Waiting], map[7 := 0], [], map[], Bound, false, false)
    ensures Dispatch(b, Reuse[2].call) == Hidden
  {
    hide WellFormed;
    assert {7} + {7} == {7};
  }

  lemma ReuseHides()
    ensures Run(Initial, Reuse) == Hidden
  {
    var a := Initial.(executions := map[0 := Execution(false, None)]);
    var b := State([Cell(None, 1, {7})], map[5 := 0], [Waiting], map[7 := 0], [], map[], Bound, false, false);
    FirstCallQueued(a, b);
    SecondCallQueued(b);
    hide Dispatch, Started, Finish, Answered, CancelTool, CloseCell, Fail, AbortAll;
    assert Step(Initial, Reuse[0]) == a;
    assert Step(a, Reuse[1]) == b;
    assert Step(b, Reuse[2]) == Hidden;
    hide Step;
    RunFirst(Initial, Reuse[0], [Reuse[1]] + ([Reuse[2]] + []));
    RunFirst(a, Reuse[1], [Reuse[2]] + []);
    RunFirst(b, Reuse[2], []);
    assert Reuse == [Reuse[0]] + ([Reuse[1]] + ([Reuse[2]] + []));
  }

  lemma FailureHides()
    ensures Fail(Hidden) == Hidden.(tasks := [Waiting, AbortTask(Waiting)], failed := true)
  {
    assert Hidden.pending[7] == 1 && forall i :: i in Hidden.pending ==> i == 7;
    assert 1 in PendingTasks(Hidden) && 0 !in PendingTasks(Hidden);
    assert AbortAll(Hidden).tasks == [Waiting, AbortTask(Waiting)];
  }

  /** With a reused invocation id a tool starts although the session has failed. */
  lemma ReusedIdStartsAfterFailure()
    ensures Run(Initial, Reuse) == Hidden
    ensures Run(Hidden, [StreamFails]).failed && Run(Hidden, [StreamFails]).tasks == [Waiting, AbortTask(Waiting)]
    ensures Run(Hidden, [StreamFails, AdmissionAnswers(0, true, true)]).tasks[0].runs == 1
  {
    ReuseHides();
    FailureHides();
    hide Fail, Dispatch, Started, Answered, Finish, CancelTool, CloseCell;
    var c := Step(Hidden, StreamFails);
    assert c == Hidden.(tasks := [Waiting, AbortTask(Waiting)], failed := true);
    var d := Step(c, AdmissionAnswers(0, true, true));
    assert d.tasks[0].runs == 1;
    hide Step;
    assert [StreamFails, AdmissionAnswers(0, true, true)] == [StreamFails] + ([AdmissionAnswers(0, true, true)] + []);
    assert [StreamFails] == [StreamFails] + [];
    RunFirst(Hidden, StreamFails, []);
    RunFirst(Hidden, StreamFails, [AdmissionAnswers(0, true, true)] + []);
    RunFirst(c, AdmissionAnswers(0, true, true), []);
  }
}
