/** One `CodeModeSession`: tool calls, session events and execution streams arrive in any order.
    Every function is the code between two suspension points. A tool call becomes a task; cells
    are objects behind references, because a task keeps the ref it started with. */
module SessionStates {

  datatype Option<+T> = None | Some(value: T)

  const MAX_EARLY_CANCELLATIONS: nat := 1024

  datatype Cell = Cell(finalSequence: Option<nat>, highest: nat, pending: set<nat>)

  datatype Execution = Execution(cancelled: bool, cell: Option<nat>)

  datatype Phase =
    | Refusing   // answering that the call does not run
    | Queued     // waiting for admission
    | Running    // the tool runs
    | Sending    // the completion is on its way
    | Ended

  /** `runs` and `sent` count the starts of the tool and the completions handed to the host. */
  datatype Task = Task(invocation: nat, cellId: nat, cell: nat, aborted: bool, phase: Phase, runs: nat, sent: nat) {
    /** Listed in its cell's pending invocations. */
    predicate Live() {
      phase == Queued || phase == Running || phase == Sending
    }
  }

  datatype State = State(
    objects: seq<Cell>,
    cells: map<nat, nat>,
    tasks: seq<Task>,
    pending: map<nat, nat>,
    cancelled: seq<nat>,
    earlyClosures: map<nat, nat>,
    executions: map<nat, Execution>,
    failed: bool,
    closed: bool)

  const Initial := State([], map[], [], map[], [], map[], map[], false, false)

  predicate WellFormed(s: State) {
    && (forall c :: c in s.cells ==> s.cells[c] < |s.objects|)
    && (forall i :: i in s.pending ==> s.pending[i] < |s.tasks|)
    && (forall t :: 0 <= t < |s.tasks| ==> s.tasks[t].cell < |s.objects|)
  }

  // ---- cells ----

  /** `#cellState`: the cell's object, created with an early closure when there is one. */
  function CellState(s: State, cellId: nat): State {
    if cellId in s.cells then s
    else
      var final := if cellId in s.earlyClosures then Some(s.earlyClosures[cellId]) else None;
      s.(objects := s.objects + [Cell(final, 0, {})],
         cells := s.cells[cellId := |s.objects|],
         earlyClosures := s.earlyClosures - {cellId})
  }

  predicate Complete(c: Cell) {
    c.finalSequence.Some? && c.highest >= c.finalSequence.value && c.pending == {}
  }

  /** `#maybeRetireCell`. */
  function MaybeRetire(s: State, cellId: nat, ref: nat): State
    requires ref < |s.objects|
  {
    if !Complete(s.objects[ref]) then s
    else
      s.(cells := s.cells - {cellId},
         executions := map e | e in s.executions && s.executions[e].cell != Some(cellId) :: s.executions[e])
  }

  // ---- failing and aborting ----

  function AbortTask(t: Task): Task {
    t.(aborted := true)
  }

  function PendingTasks(s: State): set<nat> {
    set i | i in s.pending :: s.pending[i]
  }

  function AbortAll(s: State): State {
    s.(tasks := seq(|s.tasks|, t requires 0 <= t < |s.tasks| =>
         if t in PendingTasks(s) then AbortTask(s.tasks[t]) else s.tasks[t]))
  }

  function Fail(s: State): State {
    if s.closed || s.failed then s else AbortAll(s).(failed := true)
  }

  // ---- tool calls ----

  datatype ToolCall = ToolCall(execution: nat, cellId: nat, invocation: nat, sequence: nat, toolKnown: bool)

  /** An execution without a cell takes the call's cell; the cell's object exists afterwards. */
  function Arrive(s: State, call: ToolCall): State {
    var e := call.execution;
    CellState(
      if e in s.executions && s.executions[e].cell.None?
      then s.(executions := s.executions[e := s.executions[e].(cell := Some(call.cellId))])
      else s,
      call.cellId)
  }

  /** `#dispatchToolCall` up to its first suspension. */
  function Dispatch(s: State, call: ToolCall): State
    requires WellFormed(s)
  {
    if s.failed || s.closed then s
    else
      var b := Arrive(s, call);
      var ref := b.cells[call.cellId];
      if call.sequence <= b.objects[ref].highest then Fail(b)
      else
        var known := call.execution in s.executions;
        Accept(Advance(b, ref, call.sequence), call, ref,
               known && s.executions[call.execution].cancelled, known && call.toolKnown)
  }

  function Advance(s: State, ref: nat, sequence: nat): State
    requires ref < |s.objects|
  {
    s.(objects := s.objects[ref := s.objects[ref].(highest := sequence)])
  }

  /** The call is new: drop it, refuse it, or queue it for admission. */
  function Accept(s: State, call: ToolCall, ref: nat, cancelled: bool, runnable: bool): State
    requires ref < |s.objects|
  {
    if call.invocation in s.cancelled then
      MaybeRetire(Added(s, call, ref, Ended).(cancelled := Without(s.cancelled, call.invocation)), call.cellId, ref)
    else if cancelled || !runnable then Added(s, call, ref, Refusing)
    else
      Added(s, call, ref, Queued).(
        pending := s.pending[call.invocation := |s.tasks|],
        objects := s.objects[ref := s.objects[ref].(pending := s.objects[ref].pending + {call.invocation})])
  }

  /** A new task; one that only refuses has its completion on the way. */
  function Added(s: State, call: ToolCall, ref: nat, phase: Phase): State {
    s.(tasks := s.tasks + [Task(call.invocation, call.cellId, ref, false, phase, 0, if phase == Refusing then 1 else 0)])
  }

  function Without(q: seq<nat>, x: nat): (r: seq<nat>)
    ensures forall y :: y in r <==> y in q && y != x
    ensures |r| <= |q|
  {
    if q == [] then []
    else if q[0] == x then Without(q[1..], x)
    else [q[0]] + Without(q[1..], x)
  }

  /** A pending call is over: it leaves the pending table and its cell's pending set. */
  function Unlist(s: State, t: nat): State
    requires t < |s.tasks| && s.tasks[t].cell < |s.objects|
  {
    var k := s.tasks[t];
    var cell := s.objects[k.cell];
    s.(tasks := s.tasks[t := k.(phase := Ended)],
       pending := s.pending - {k.invocation},
       objects := s.objects[k.cell := cell.(pending := cell.pending - {k.invocation})])
  }

  /** The `finally` block of a task that was pending. */
  function Finish(s: State, t: nat): State
    requires t < |s.tasks| && s.tasks[t].cell < |s.objects|
  {
    MaybeRetire(Unlist(s, t), s.tasks[t].cellId, s.tasks[t].cell)
  }

  /** A completion goes out, once. */
  function Send(s: State, t: nat): State
    requires t < |s.tasks|
  {
    s.(tasks := s.tasks[t := s.tasks[t].(phase := Sending, sent := s.tasks[t].sent + 1)])
  }

  /** After the admission queue answered; the input may still fail to decode. */
  function Admitted(s: State, t: nat, granted: bool, decodes: bool): State
    requires WellFormed(s) && t < |s.tasks|
  {
    if s.tasks[t].aborted then Finish(s, t)
    else if !granted || !decodes then Send(s, t)
    else s.(tasks := s.tasks[t := s.tasks[t].(phase := Running, runs := s.tasks[t].runs + 1)])
  }

  /** After the tool returned or threw. */
  function Returned(s: State, t: nat): State
    requires WellFormed(s) && t < |s.tasks|
  {
    if s.tasks[t].aborted then Finish(s, t) else Send(s, t)
  }

  /** After the host answered the completion. A failed answer to a task that nobody cancelled
      fails the session. */
  function Answered(s: State, t: nat, ok: bool): State
    requires WellFormed(s) && t < |s.tasks|
  {
    var k := s.tasks[t];
    if k.phase == Refusing then
      var r := s.(tasks := s.tasks[t := k.(phase := Ended)]);
      if ok then MaybeRetire(r, k.cellId, k.cell) else Fail(r)
    else
      var r := Finish(s, t);
      if ok || k.aborted then r else Fail(r)
  }

  // ---- session events ----

  /** `toolCallCancelled`: abort the pending task, or remember the cancellation. */
  function CancelTool(s: State, invocation: nat): State
    requires WellFormed(s)
  {
    if invocation in s.pending then
      var t := s.pending[invocation];
      s.(tasks := s.tasks[t := AbortTask(s.tasks[t])])
    else
      s.(cancelled := Remember(s.cancelled, invocation))
  }

  /** A Set of at most 1024 entries in insertion order. The oldest leaves even when the new one
      is already there. */
  function Remember(q: seq<nat>, x: nat): (r: seq<nat>)
    ensures x in r
  {
    var kept := if |q| >= MAX_EARLY_CANCELLATIONS then q[1..] else q;
    if x in kept then kept else kept + [x]
  }

  function CloseCell(s: State, cellId: nat, final: nat, owner: Option<nat>): State
    requires WellFormed(s)
  {
    if cellId in s.cells then
      var ref := s.cells[cellId];
      MaybeRetire(s.(objects := s.objects[ref := s.objects[ref].(finalSequence := Some(final))]), cellId, ref)
    else if owner.Some? && owner.value in s.executions then
      s.(earlyClosures := s.earlyClosures[cellId := final])
    else s
  }

  // ---- executions ----

  /** The `started` event of an execution stream. */
  function Started(s: State, execution: nat, cellId: nat): State
    requires WellFormed(s)
  {
    var a :=
      if execution in s.executions
      then s.(executions := s.executions[execution := s.executions[execution].(cell := Some(cellId))])
      else s;
    var b := CellState(a, cellId);
    MaybeRetire(b, cellId, b.cells[cellId])
  }

  datatype Event =
    | ExecutionBegins(execution: nat)
    | ExecutionCancelled(execution: nat)
    | ExecutionEnds(execution: nat)
    | CellStarted(execution: nat, cellId: nat)
    | CallArrives(call: ToolCall)
    | AdmissionAnswers(task: nat, granted: bool, decodes: bool)
    | ToolReturns(task: nat)
    | HostAnswers(task: nat, ok: bool)
    | ToolCancelled(invocation: nat)
    | CellClosed(cellId: nat, final: nat, owner: Option<nat>)
    | StreamFails
    | CloseBegins
    | CloseEnds
    | CloseDrained

  predicate InPhase(s: State, t: nat, phase: Phase) {
    t < |s.tasks| && s.tasks[t].phase == phase
  }

  function Step(s: State, ev: Event): State
    requires WellFormed(s)
  {
    match ev
    case ExecutionBegins(e) =>
      if s.failed || s.closed || e in s.executions then s else s.(executions := s.executions[e := Execution(false, None)])
    case ExecutionCancelled(e) =>
      if e in s.executions then s.(executions := s.executions[e := s.executions[e].(cancelled := true)]) else s
    case ExecutionEnds(e) => s.(executions := s.executions - {e})
    case CellStarted(e, cellId) => Started(s, e, cellId)
    case CallArrives(call) => Dispatch(s, call)
    case AdmissionAnswers(t, granted, decodes) => if InPhase(s, t, Queued) then Admitted(s, t, granted, decodes) else s
    case ToolReturns(t) => if InPhase(s, t, Running) then Returned(s, t) else s
    case HostAnswers(t, ok) => if InPhase(s, t, Refusing) || InPhase(s, t, Sending) then Answered(s, t, ok) else s
    case ToolCancelled(invocation) => CancelTool(s, invocation)
    case CellClosed(cellId, final, owner) => CloseCell(s, cellId, final, owner)
    case StreamFails => Fail(s)
    case CloseBegins => if s.closed then s else AbortAll(s).(closed := true)
    case CloseEnds =>
      if s.closed then s.(cells := map[], cancelled := [], earlyClosures := map[], executions := map[]) else s
    case CloseDrained =>
      if s.closed && (forall t :: 0 <= t < |s.tasks| ==> s.tasks[t].phase == Ended) then s.(pending := map[]) else s
  }
}
