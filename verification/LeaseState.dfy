/** One Code Mode service: the session pool (`SessionPool`), the public cells (`CellRegistry`) and
    the calls that hold session leases (`CodeModeService`). Every function here is one atomic
    step, the code between two suspension points. An entry is identified by its generation and a
    lease by the call that acquired it. */
module LeaseStates {

  datatype Option<+T> = None | Some(value: T)

  datatype Reason = Memory | Idle | Failure | Shutdown | Unscoped

  /** A native session; `ready` says whether the entry knows its session object yet. */
  datatype Entry = Entry(
    scope: Option<nat>,
    users: int,
    idleSince: int,
    lastUsed: int,
    previous: Option<nat>,
    announced: bool,
    ready: bool,
    retired: Option<Reason>)

  /** What a scope is bound to: a session, or the notice that an announced one was lost. */
  datatype Binding = Live(generation: nat) | Notice(generation: nat, at: int)

  datatype Phase =
    | Captured               // the generation was captured, the session is not acquired yet
    | Opening                // waiting for the session to open
    | Executing              // holds the lease during exec
    | Tracked(cell: nat)     // the lease belongs to a yielded cell
    | Terminating            // the cell was taken and is being terminated
    | Done                   // the lease was released, or never granted

  datatype Call = Call(scope: Option<nat>, expected: Option<nat>, generation: nat, phase: Phase) {
    predicate Holding() {
      phase.Opening? || phase.Executing? || phase.Tracked? || phase.Terminating?
    }
  }

  datatype State = State(
    shared: map<nat, Binding>,
    entries: map<nat, Entry>,
    generation: nat,
    calls: map<nat, Call>,
    cells: map<nat, nat>,
    closed: bool)

  const Initial := State(map[], map[], 0, map[], map[], false)

  predicate Unretired(s: State, g: nat) {
    g in s.entries && s.entries[g].retired.None?
  }

  function Holders(s: State, g: nat): set<nat> {
    set c | c in s.calls && s.calls[c].generation == g && s.calls[c].Holding()
  }

  function TrackedIn(s: State, gens: set<nat>): set<nat> {
    set c | c in s.calls && s.calls[c].generation in gens && s.calls[c].phase.Tracked?
  }

  function OfGeneration(s: State, cs: set<nat>, g: nat): set<nat> {
    set c | c in cs && c in s.calls && s.calls[c].generation == g
  }

  // ---- leases ----

  function ReleaseEntry(e: Entry, count: nat, now: int): (r: Entry)
    ensures r == e.(users := e.users - count, idleSince := r.idleSince, retired := r.retired)
    ensures r.retired == e.retired || (e.retired.None? && e.scope.None? && r.retired == Some(Unscoped) && r.users == 0)
    ensures count > 0 && e.scope.None? && r.users == 0 ==> r.retired.Some?
  {
    if count == 0 then e
    else
      var users := e.users - count;
      e.(users := users,
         idleSince := if users == 0 then now else e.idleSince,
         retired := if users == 0 && e.scope.None? && e.retired.None? then Some(Unscoped) else e.retired)
  }

  /** `lease.release()` for the calls `cs`, which leave the registry too; an unscoped session is
      retired with its last user. */
  function ReleaseCalls(s: State, cs: set<nat>, now: int): (r: State)
    ensures r.calls.Keys == s.calls.Keys && r.entries.Keys == s.entries.Keys
  {
    s.(entries := map g | g in s.entries :: ReleaseEntry(s.entries[g], |OfGeneration(s, cs, g)|, now),
       calls := map c | c in s.calls :: if c in cs then s.calls[c].(phase := Done) else s.calls[c],
       cells := map h | h in s.cells && s.cells[h] !in cs :: s.cells[h])
  }

  // ---- retirement ----

  function Victims(s: State, gens: set<nat>): set<nat> {
    set g | g in gens && Unretired(s, g)
  }

  /** A scope keeps a notice only when a session the user knew of is lost. */
  predicate LeavesNotice(e: Entry, reason: Reason) {
    (reason == Failure || reason == Memory) && (e.announced || e.previous.Some?)
  }

  predicate Unbinds(s: State, sc: nat, victims: set<nat>, reason: Reason) {
    sc in s.shared && s.shared[sc].Live? && s.shared[sc].generation in victims &&
    s.shared[sc].generation in s.entries && !LeavesNotice(s.entries[s.shared[sc].generation], reason)
  }

  function Rebound(s: State, b: Binding, victims: set<nat>, reason: Reason, now: int): Binding {
    if b.Live? && b.generation in victims && b.generation in s.entries && LeavesNotice(s.entries[b.generation], reason) then
      var e := s.entries[b.generation];
      Notice(if e.previous.Some? then e.previous.value else b.generation, now)
    else b
  }

  /** The first half of `#retire`: the entries are marked and their scopes unbound. */
  function Mark(s: State, victims: set<nat>, reason: Reason, now: int): State {
    s.(entries := map g | g in s.entries :: if g in victims then s.entries[g].(retired := Some(reason)) else s.entries[g],
       shared := map sc | sc in s.shared && !Unbinds(s, sc, victims, reason) :: Rebound(s, s.shared[sc], victims, reason, now))
  }

  /** `#retire` for every entry of `gens` that is not retired yet; `onRetire` ends their cells. */
  function Retire(s: State, gens: set<nat>, reason: Reason, now: int): (r: State)
    ensures r.calls.Keys == s.calls.Keys && r.entries.Keys == s.entries.Keys
  {
    var victims := Victims(s, gens);
    var marked := Mark(s, victims, reason, now);
    ReleaseCalls(marked, TrackedIn(marked, victims), now)
  }

  // ---- the pool ----

  predicate Expired(b: Binding, deadline: int) {
    b.Notice? && b.at <= deadline
  }

  function IdleEntries(s: State, deadline: int): set<nat> {
    set g | g in s.entries && s.entries[g].users == 0 && s.entries[g].idleSince <= deadline
  }

  function Sweep(s: State, deadline: int, now: int): (r: State)
    ensures r.calls.Keys == s.calls.Keys && r.entries.Keys == s.entries.Keys
  {
    var swept := Retire(s, IdleEntries(s, deadline), Idle, now);
    swept.(shared := map sc | sc in swept.shared && !Expired(swept.shared[sc], deadline) :: swept.shared[sc])
  }

  function BindingOf(s: State, scope: Option<nat>): Option<Binding> {
    if scope.Some? && scope.value in s.shared then Some(s.shared[scope.value]) else None
  }

  /** The generation a caller sees: the one before, until a replacement finished opening. */
  function SeenGeneration(s: State, scope: Option<nat>): Option<nat> {
    match BindingOf(s, scope)
    case None => None
    case Some(Notice(g, _)) => Some(g)
    case Some(Live(g)) =>
      if g in s.entries && s.entries[g].previous.Some? then s.entries[g].previous else Some(g)
  }

  function Capture(s: State, call: nat, scope: Option<nat>, deadline: int, now: int): State {
    var swept := Sweep(s, deadline, now);
    swept.(calls := swept.calls[call := Call(scope, SeenGeneration(swept, scope), 0, Captured)])
  }

  /** `acquire` up to its first suspension. A call that captured no generation looks again. */
  function StartAcquire(s: State, call: nat, deadline: int, now: int): State
    requires call in s.calls
  {
    Join(Sweep(s, deadline, now), call, now)
  }

  /** Use the session that the scope is bound to, or start to open a new one. */
  function Join(t: State, call: nat, now: int): State
    requires call in t.calls
  {
    var c := t.calls[call];
    var expected := if c.expected.Some? then c.expected else SeenGeneration(t, c.scope);
    var binding := BindingOf(t, c.scope);
    var creating := binding.None? || binding.value.Notice?;
    var g := if creating then t.generation + 1 else binding.value.generation;
    var e :=
      if !creating && g in t.entries then t.entries[g]
      else Entry(c.scope, 0, now, now, if binding.Some? then Some(binding.value.generation) else None, false, false, None);
    t.(generation := if creating then g else t.generation,
       entries := t.entries[g := e.(users := e.users + 1, lastUsed := now)],
       shared := if creating && c.scope.Some? then t.shared[c.scope.value := Live(g)] else t.shared,
       calls := t.calls[call := Call(c.scope, expected, g, Opening)])
  }

  datatype OpenResult = OpenFailed | OpenUsable | OpenUnusable

  /** The rest of `acquire`. */
  function FinishAcquire(s: State, call: nat, result: OpenResult, now: int): State
    requires call in s.calls && s.calls[call].generation in s.entries
  {
    var g := s.calls[call].generation;
    var e := s.entries[g].(ready := s.entries[g].ready || !result.OpenFailed?);
    var t := s.(entries := s.entries[g := e]);
    if result != OpenUsable || e.retired.Some? then
      Retire(ReleaseCalls(t, {call}, now), {g}, Failure, now)
    else if Replaced(s, call) then
      ReleaseCalls(t.(entries := t.entries[g := e.(previous := None)]), {call}, now)
    else
      t.(entries := t.entries[g := e.(previous := None, announced := true)],
         calls := t.calls[call := t.calls[call].(phase := Executing)])
  }

  /** The caller expected another generation: it gets the replaced notice instead of a lease. */
  predicate Replaced(s: State, call: nat)
    requires call in s.calls
  {
    s.calls[call].expected.Some? && s.calls[call].expected.value != s.calls[call].generation
  }

  predicate Older(s: State, idleOnly: bool, a: nat, b: nat)
    requires a in s.entries && b in s.entries
  {
    var x, y := s.entries[a], s.entries[b];
    var p, q := if idleOnly then x.idleSince else x.lastUsed, if idleOnly then y.idleSince else y.lastUsed;
    p < q || (p == q && a <= b)
  }

  predicate Candidate(s: State, idleOnly: bool, through: nat, g: nat) {
    Unretired(s, g) && g <= through && (idleOnly ==> s.entries[g].users == 0)
  }

  /** The candidate that `reclaimOldest` sorts first. */
  function Oldest(s: State, idleOnly: bool, through: nat): (r: Option<nat>)
    ensures r.Some? ==> Candidate(s, idleOnly, through, r.value)
    ensures r.Some? ==> forall g :: Candidate(s, idleOnly, through, g) ==> Older(s, idleOnly, r.value, g)
    ensures r.None? ==> forall g :: !Candidate(s, idleOnly, through, g)
  {
    var best := if through == 0 then None else Oldest(s, idleOnly, through - 1);
    assert through > 0 ==> forall g :: Candidate(s, idleOnly, through, g) ==> g == through || Candidate(s, idleOnly, through - 1, g);
    if !Candidate(s, idleOnly, through, through) then best
    else if best.Some? && Older(s, idleOnly, best.value, through) then best
    else Some(through)
  }

  function Reclaim(s: State, idleOnly: bool, through: nat, now: int): State {
    match Oldest(s, idleOnly, through)
    case None => s
    case Some(g) => Retire(s, {g}, Memory, now)
  }

  // ---- the service ----

  datatype Outcome = Failed | Finished | Yielded(cell: nat, deliverable: bool)

  /** `#trackOutcome` and `#modelResult` at the end of exec. */
  function FinishExec(s: State, call: nat, outcome: Outcome, now: int): State
    requires call in s.calls
  {
    var c := s.calls[call];
    if outcome.Yielded? && Unretired(s, c.generation) && outcome.cell !in s.cells then
      if outcome.deliverable then
        s.(calls := s.calls[call := c.(phase := Tracked(outcome.cell))], cells := s.cells[outcome.cell := call])
      else
        s.(calls := s.calls[call := c.(phase := Terminating)])
    else
      ReleaseCalls(s, {call}, now)
  }

  /** The end of a wait call on a tracked cell; a yielded cell stays where it is. */
  function FinishWait(s: State, cell: nat, outcome: Outcome, now: int): State {
    if cell !in s.cells || s.cells[cell] !in s.calls || outcome.Failed? then s
    else if outcome.Finished? then ReleaseCalls(s, {s.cells[cell]}, now)
    else if outcome.deliverable then s
    else TakeCells(s, {cell})
  }

  /** Cells that leave the registry to be terminated; their leases stay held until then. */
  function TakeCells(s: State, taken: set<nat>): State {
    var cs := set h | h in taken && h in s.cells :: s.cells[h];
    s.(calls := map c | c in s.calls :: if c in cs then s.calls[c].(phase := Terminating) else s.calls[c],
       cells := map h | h in s.cells && h !in taken :: s.cells[h])
  }

  function FinishTerminate(s: State, call: nat, confirmed: bool, now: int): State
    requires call in s.calls
  {
    ReleaseCalls(if confirmed then s else FailSession(s, s.calls[call].generation, now), {call}, now)
  }

  /** `#invalidateSession`. */
  function FailSession(s: State, g: nat, now: int): State {
    Retire(ReleaseCalls(s, TrackedIn(s, {g}), now), {g}, Failure, now)
  }

  /** `#invalidateSessions`: the host stopped, or is being replaced to free memory. */
  function FailAll(s: State, memory: bool, now: int): State {
    var t := ReleaseCalls(s, TrackedIn(s, s.entries.Keys), now);
    Retire(t, t.entries.Keys, if memory then Memory else Failure, now)
  }

  function Close(s: State, now: int): State {
    var t := s.(cells := map[], calls := map c | c in s.calls :: if s.calls[c].phase.Tracked? then s.calls[c].(phase := Done) else s.calls[c]);
    Retire(t, t.entries.Keys, Shutdown, now).(shared := map[], closed := true)
  }

  datatype Event =
    | CaptureGeneration(call: nat, scope: Option<nat>, now: int)
    | Acquire(call: nat, now: int)
    | Resume(call: nat, result: OpenResult, now: int)
    | Touch(call: nat, now: int)
    | ExecEnds(call: nat, outcome: Outcome, now: int)
    | WaitEnds(cell: nat, outcome: Outcome, now: int)
    | StopCells(cells: set<nat>)
    | TerminateEnds(call: nat, confirmed: bool, now: int)
    | SessionFails(generation: nat, now: int)
    | HostStops(memory: bool, now: int)
    | SweepIdle(now: int)
    | ReclaimOldest(idleOnly: bool, through: nat, now: int)
    | CloseService(now: int)

  /** Events that do not apply in a state leave it unchanged, and nothing happens after close. */
  function Step(idleMs: nat, s: State, ev: Event): State {
    if s.closed then s else
    match ev
    case CaptureGeneration(call, scope, now) =>
      if call in s.calls then s else Capture(s, call, scope, now - idleMs, now)
    case Acquire(call, now) =>
      if call in s.calls && s.calls[call].phase.Captured? then StartAcquire(s, call, now - idleMs, now) else s
    case Resume(call, result, now) =>
      if call in s.calls && s.calls[call].phase.Opening? && s.calls[call].generation in s.entries
      then FinishAcquire(s, call, result, now) else s
    case Touch(call, now) =>
      if call in s.calls && s.calls[call].Holding() && Unretired(s, s.calls[call].generation)
      then s.(entries := s.entries[s.calls[call].generation := s.entries[s.calls[call].generation].(lastUsed := now)]) else s
    case ExecEnds(call, outcome, now) =>
      if call in s.calls && s.calls[call].phase.Executing? then FinishExec(s, call, outcome, now) else s
    case WaitEnds(cell, outcome, now) => FinishWait(s, cell, outcome, now)
    case StopCells(cells) => TakeCells(s, cells)
    case TerminateEnds(call, confirmed, now) =>
      if call in s.calls && s.calls[call].phase.Terminating? then FinishTerminate(s, call, confirmed, now) else s
    case SessionFails(g, now) => if g in s.entries && s.entries[g].ready then FailSession(s, g, now) else s
    case HostStops(memory, now) => FailAll(s, memory, now)
    case SweepIdle(now) => Sweep(s, now - idleMs, now)
    case ReclaimOldest(idleOnly, through, now) => Reclaim(s, idleOnly, through, now)
    case CloseService(now) => Close(s, now)
  }
}
