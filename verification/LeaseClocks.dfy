/** When a native session ends: what ends one, how long an idle one is kept, and that a conversation
    comes back to its own session until then. */
module LeaseClocks {
  import opened LeaseStates
  import opened LeaseInvariants
  import opened LeaseTheorems

  // ---- what ends a session ----

  /** Nobody has held a lease on the session for at least `idleMs`. */
  predicate IdleTooLong(idleMs: nat, s: State, g: nat, now: int) {
    g in s.entries && s.entries[g].users == 0 && now - s.entries[g].idleSince >= idleMs
  }

  /** A session that a reclaim may take: it existed by then, and holds no lease if only idle ones go. */
  predicate MayGo(s: State, idleOnly: bool, through: nat, g: nat) {
    && g in s.entries && s.entries[g].retired.None? && g <= through
    && (idleOnly ==> s.entries[g].users == 0)
  }

  /** Of these the longest idle goes, or the least recently used; of equal ones the older. */
  ghost predicate FirstToGo(s: State, idleOnly: bool, through: nat, g: nat) {
    && MayGo(s, idleOnly, through, g)
    && forall x :: MayGo(s, idleOnly, through, x) ==>
         var a, b := s.entries[g], s.entries[x];
         if idleOnly then a.idleSince < b.idleSince || (a.idleSince == b.idleSince && g <= x)
         else a.lastUsed < b.lastUsed || (a.lastUsed == b.lastUsed && g <= x)
  }

  function When(condition: bool, reason: Reason): Option<Reason> {
    if condition then Some(reason) else None
  }

  /** The event looks at the pool, which sweeps it first. */
  predicate Sweeps(s: State, ev: Event) {
    match ev
    case CaptureGeneration(call, _, _) => call !in s.calls
    case Acquire(call, _) => call in s.calls && s.calls[call].phase.Captured?
    case SweepIdle(_) => true
    case _ => false
  }

  /** Why the event ends the session of a scope: a failure, a reclaim, a close, or a sweep after
      too long an idle time. */
  ghost function Ends(idleMs: nat, s: State, ev: Event, g: nat): Option<Reason> {
    if Sweeps(s, ev) then When(IdleTooLong(idleMs, s, g, NowOf(ev)), Idle)
    else match ev
      case Resume(call, result, _) =>
        When(call in s.calls && s.calls[call].phase.Opening? && s.calls[call].generation == g && result != OpenUsable, Failure)
      case TerminateEnds(call, confirmed, _) =>
        When(call in s.calls && s.calls[call].phase.Terminating? && s.calls[call].generation == g && !confirmed, Failure)
      case SessionFails(h, _) => When(h == g && g in s.entries && s.entries[g].ready, Failure)
      case HostStops(memory, _) => Some(if memory then Memory else Failure)
      case ReclaimOldest(idleOnly, through, _) => When(FirstToGo(s, idleOnly, through, g), Memory)
      case CloseService(_) => Some(Shutdown)
      case _ => None
  }

  function NowOf(ev: Event): int {
    if ev.StopCells? then 0 else ev.now
  }

  // ---- what one step does to an entry ----

  /** The user count only falls; where it reaches zero the idle time begins. */
  predicate Aged(a: Entry, b: Entry, now: int) {
    && b.scope == a.scope && b.lastUsed == a.lastUsed && b.users <= a.users
    && (b.users == a.users ==> b.idleSince == a.idleSince)
    && (b.users == 0 && a.users > 0 ==> b.idleSince == now)
    && (a.previous.None? ==> b.previous.None?) && (a.ready ==> b.ready)
  }

  /** The entry ages, and if it is scoped it is retired exactly as `ends` says. */
  predicate Fate(s: State, r: State, g: nat, now: int, ends: Option<Reason>) {
    && g in s.entries && g in r.entries && Aged(s.entries[g], r.entries[g], now)
    && (s.entries[g].scope.Some? ==> r.entries[g].retired == Then(s.entries[g].retired, ends))
    && (!Unretired(s, g) ==> !Unretired(r, g))
  }

  function Then(a: Option<Reason>, b: Option<Reason>): Option<Reason> {
    if a.Some? then a else b
  }

  lemma FateChain(s: State, m: State, r: State, g: nat, now: int, a: Option<Reason>, b: Option<Reason>)
    requires Fate(s, m, g, now, a) && Fate(m, r, g, now, b)
    ensures Fate(s, r, g, now, Then(a, b))
  {
  }

  lemma SameFate(s: State, r: State, g: nat, now: int)
    requires g in s.entries && g in r.entries && r.entries[g] == s.entries[g]
    ensures Fate(s, r, g, now, None)
  {
  }

  lemma FateWhen(s: State, r: State, g: nat, now: int, a: Option<Reason>, b: Option<Reason>)
    requires Fate(s, r, g, now, a) && (Unretired(s, g) ==> a == b)
    ensures Fate(s, r, g, now, b)
  {
  }

  lemma ReleaseFate(s: State, cs: set<nat>, now: int, g: nat)
    requires g in s.entries
    ensures Fate(s, ReleaseCalls(s, cs, now), g, now, None)
  {
    hide OfGeneration;
  }

  lemma MarkFate(s: State, victims: set<nat>, reason: Reason, now: int, g: nat)
    requires g in s.entries && (g in victims ==> Unretired(s, g))
    ensures g in Mark(s, victims, reason, now).entries
    ensures Fate(s, Mark(s, victims, reason, now), g, now, When(g in victims, reason))
  {
    hide Rebound, Unbinds;
  }

  lemma RetireFate(s: State, gens: set<nat>, reason: Reason, now: int, g: nat)
    requires g in s.entries
    ensures Fate(s, Retire(s, gens, reason, now), g, now, When(g in gens, reason))
  {
    hide Mark, ReleaseCalls, Fate, TrackedIn;
    var victims := Victims(s, gens);
    var marked := Mark(s, victims, reason, now);
    MarkFate(s, victims, reason, now, g);
    ReleaseFate(marked, TrackedIn(marked, victims), now, g);
    FateChain(s, marked, Retire(s, gens, reason, now), g, now, When(g in victims, reason), None);
    FateWhen(s, Retire(s, gens, reason, now), g, now, When(g in victims, reason), When(g in gens, reason));
  }

  lemma SweepFate(idleMs: nat, s: State, now: int, g: nat)
    requires g in s.entries
    ensures Fate(s, Sweep(s, now - idleMs, now), g, now, When(IdleTooLong(idleMs, s, g, now), Idle))
  {
    hide Retire;
    RetireFate(s, IdleEntries(s, now - idleMs), Idle, now, g);
  }

  lemma FailFate(s: State, h: nat, now: int, g: nat)
    requires g in s.entries
    ensures g in FailSession(s, h, now).entries
    ensures Fate(s, FailSession(s, h, now), g, now, When(g == h, Failure))
  {
    hide Retire, ReleaseCalls, Fate;
    var t := ReleaseCalls(s, TrackedIn(s, {h}), now);
    ReleaseFate(s, TrackedIn(s, {h}), now, g);
    RetireFate(t, {h}, Failure, now, g);
    FateChain(s, t, FailSession(s, h, now), g, now, None, When(g in {h}, Failure));
  }

  lemma FailAllFate(s: State, memory: bool, now: int, g: nat)
    requires g in s.entries
    ensures Fate(s, FailAll(s, memory, now), g, now, Some(if memory then Memory else Failure))
  {
    hide Retire, ReleaseCalls, Fate;
    var t := ReleaseCalls(s, TrackedIn(s, s.entries.Keys), now);
    ReleaseFate(s, TrackedIn(s, s.entries.Keys), now, g);
    RetireFate(t, t.entries.Keys, if memory then Memory else Failure, now, g);
    FateChain(s, t, FailAll(s, memory, now), g, now, None, Some(if memory then Memory else Failure));
  }

  lemma CloseFate(s: State, now: int, g: nat)
    requires g in s.entries
    ensures Fate(s, Close(s, now), g, now, Some(Shutdown))
  {
    var t := s.(cells := map[], calls := map c | c in s.calls :: if s.calls[c].phase.Tracked? then s.calls[c].(phase := Done) else s.calls[c]);
    SameFate(s, t, g, now);
    hide Retire, Fate;
    RetireFate(t, t.entries.Keys, Shutdown, now, g);
    FateChain(s, t, Retire(t, t.entries.Keys, Shutdown, now), g, now, None, Some(Shutdown));
    SameEntryFate(s, Retire(t, t.entries.Keys, Shutdown, now), Close(s, now), g, now, Some(Shutdown));
  }

  lemma SameEntryFate(s: State, m: State, r: State, g: nat, now: int, ends: Option<Reason>)
    requires Fate(s, m, g, now, ends) && r.entries == m.entries
    ensures Fate(s, r, g, now, ends)
  {
  }

  lemma TerminateFate(s: State, call: nat, confirmed: bool, now: int, g: nat)
    requires g in s.entries && call in s.calls
    ensures Fate(s, FinishTerminate(s, call, confirmed, now), g, now, When(s.calls[call].generation == g && !confirmed, Failure))
  {
    hide FailSession, ReleaseCalls, Fate;
    var h := s.calls[call].generation;
    var t := if confirmed then s else FailSession(s, h, now);
    SameFate(s, s, g, now);
    FailFate(s, h, now, g);
    ReleaseFate(t, {call}, now, g);
    FateChain(s, t, FinishTerminate(s, call, confirmed, now), g, now, When(h == g && !confirmed, Failure), None);
  }

  lemma OldestIs(s: State, idleOnly: bool, through: nat, g: nat)
    ensures Oldest(s, idleOnly, through) == Some(g) <==> FirstToGo(s, idleOnly, through, g)
  {
    forall x ensures Candidate(s, idleOnly, through, x) <==> MayGo(s, idleOnly, through, x) {
    }
    var o := Oldest(s, idleOnly, through);
    hide Oldest;
    if o.Some? && FirstToGo(s, idleOnly, through, g) {
      assert Candidate(s, idleOnly, through, g) && MayGo(s, idleOnly, through, o.value);
      assert Older(s, idleOnly, o.value, g);
    }
  }

  lemma ReclaimFate(s: State, idleOnly: bool, through: nat, now: int, g: nat)
    requires g in s.entries
    ensures Fate(s, Reclaim(s, idleOnly, through, now), g, now, When(FirstToGo(s, idleOnly, through, g), Memory))
  {
    hide Retire, Oldest, FirstToGo, Fate;
    OldestIs(s, idleOnly, through, g);
    SameFate(s, s, g, now);
    if Oldest(s, idleOnly, through).Some? {
      RetireFate(s, {Oldest(s, idleOnly, through).value}, Memory, now, g);
    }
  }

  lemma OpenedFate(s: State, call: nat, result: OpenResult, now: int, g: nat)
    requires g in s.entries && call in s.calls && s.calls[call].generation in s.entries
    ensures var h := s.calls[call].generation;
      var e := s.entries[h].(ready := s.entries[h].ready || !result.OpenFailed?);
      && Fate(s, s.(entries := s.entries[h := e]), g, now, None)
      && Fate(s, s.(entries := s.entries[h := e.(previous := None)]), g, now, None)
      && Fate(s, s.(entries := s.entries[h := e.(previous := None, announced := true)],
                    calls := s.calls[call := s.calls[call].(phase := Executing)]), g, now, None)
  {
  }

  lemma FinishFate(s: State, call: nat, result: OpenResult, now: int, g: nat)
    requires g in s.entries && call in s.calls && s.calls[call].generation in s.entries
    ensures Fate(s, FinishAcquire(s, call, result, now), g, now, When(s.calls[call].generation == g && result != OpenUsable, Failure))
  {
    hide Retire, ReleaseCalls, Fate;
    var h := s.calls[call].generation;
    var e := s.entries[h].(ready := s.entries[h].ready || !result.OpenFailed?);
    OpenedFate(s, call, result, now, g);
    var r := FinishAcquire(s, call, result, now);
    if result != OpenUsable || e.retired.Some? {
      var t := s.(entries := s.entries[h := e]);
      var m := ReleaseCalls(t, {call}, now);
      FinishFails(s, call, result, now);
      hide FinishAcquire;
      ReleaseFate(t, {call}, now, g);
      RetireFate(m, {h}, Failure, now, g);
      FateChain(s, t, m, g, now, None, None);
      FateChain(s, m, r, g, now, None, When(g in {h}, Failure));
      FateWhen(s, r, g, now, When(g in {h}, Failure), When(h == g && result != OpenUsable, Failure));
    } else if Replaced(s, call) {
      var u := s.(entries := s.entries[h := e.(previous := None)]);
      assert s.entries[h := e][h := e.(previous := None)] == s.entries[h := e.(previous := None)];
      ReleaseFate(u, {call}, now, g);
      FateChain(s, u, r, g, now, None, None);
    } else {
      assert s.entries[h := e][h := e.(previous := None, announced := true)] == s.entries[h := e.(previous := None, announced := true)];
    }
  }

  // ---- acquiring ----

  /** The entry that an acquire uses. */
  predicate Joins(s: State, r: State, ev: Event, g: nat) {
    && ev.Acquire? && ev.call in s.calls && s.calls[ev.call].phase.Captured?
    && ev.call in r.calls && r.calls[ev.call].generation == g
  }

  /** The event counts as a use of the session. */
  predicate Uses(s: State, r: State, ev: Event, g: nat) {
    || Joins(s, r, ev, g)
    || (ev.Touch? && ev.call in s.calls && s.calls[ev.call].Holding() && s.calls[ev.call].generation == g && Unretired(s, g))
  }

  /** A user joins the entry. */
  predicate Joined(a: Entry, b: Entry, now: int) {
    b == a.(users := a.users + 1, lastUsed := now)
  }

  lemma JoinEntries(t: State, call: nat, now: int, g: nat)
    requires Known(t) && Bound(t) && Counted(t) && call in t.calls
    ensures var r := Join(t, call, now);
      && call in r.calls
      && (g in t.entries ==>
            && g in r.entries
            && (if r.calls[call].generation == g then Joined(t.entries[g], r.entries[g], now) else r.entries[g] == t.entries[g]))
      && (g !in t.entries && g in r.entries ==>
            r.calls[call].generation == g && r.entries[g].users == 1 && r.entries[g].lastUsed == now)
  {
    hide Holders, SeenGeneration;
  }

  /** What a step does to an entry that was there. */
  ghost predicate Stepped(idleMs: nat, s: State, r: State, ev: Event, g: nat)
    requires g in s.entries
  {
    && g in r.entries
    && r.entries[g].scope == s.entries[g].scope
    && r.entries[g].lastUsed == (if Uses(s, r, ev, g) then NowOf(ev) else s.entries[g].lastUsed)
    && (r.entries[g].users == 0 ==>
          r.entries[g].idleSince == if s.entries[g].users == 0 then s.entries[g].idleSince else NowOf(ev))
    && (s.entries[g].previous.None? ==> r.entries[g].previous.None?)
    && (s.entries[g].scope.Some? ==> r.entries[g].retired == Then(s.entries[g].retired, Ends(idleMs, s, ev, g)))
  }

  lemma FateSteps(idleMs: nat, s: State, r: State, ev: Event, g: nat, ends: Option<Reason>)
    requires g in s.entries && s.entries[g].users >= 0 && Fate(s, r, g, NowOf(ev), ends)
    requires !Uses(s, r, ev, g) && (Unretired(s, g) ==> ends == Ends(idleMs, s, ev, g))
    ensures Stepped(idleMs, s, r, ev, g)
  {
    hide FirstToGo;
  }

  lemma JoinSteps(idleMs: nat, s: State, t: State, r: State, ev: Event, g: nat)
    requires ev.Acquire? && ev.call in s.calls && s.calls[ev.call].phase.Captured? && g in s.entries
    requires Fate(s, t, g, ev.now, When(IdleTooLong(idleMs, s, g, ev.now), Idle)) && s.entries[g].users >= 0 && t.entries[g].users >= 0
    requires ev.call in r.calls && g in r.entries
    requires if r.calls[ev.call].generation == g then Joined(t.entries[g], r.entries[g], ev.now) else r.entries[g] == t.entries[g]
    ensures Stepped(idleMs, s, r, ev, g)
  {
  }

  lemma AcquireSteps(idleMs: nat, s: State, ev: Event, g: nat)
    requires Running(s) && ev.Acquire? && g in s.entries
    ensures Stepped(idleMs, s, Step(idleMs, s, ev), ev, g)
  {
    hide *;
    var r := Step(idleMs, s, ev);
    RunningParts(s);
    UsersNat(s, g);
    if ev.call in s.calls && s.calls[ev.call].phase.Captured? {
      AcquireIsJoin(idleMs, s, ev);
      var t := Sweep(s, ev.now - idleMs, ev.now);
      SweepRunning(s, ev.now - idleMs, ev.now);
      RunningParts(t);
      SweepFate(idleMs, s, ev.now, g);
      FateIn(s, t, g, ev.now, When(IdleTooLong(idleMs, s, g, ev.now), Idle));
      UsersNat(t, g);
      JoinEntries(t, ev.call, ev.now, g);
      JoinSteps(idleMs, s, t, r, ev, g);
    } else {
      SameSteps(idleMs, s, ev, g);
    }
  }

  lemma AcquireIsJoin(idleMs: nat, s: State, ev: Event)
    requires !s.closed && ev.Acquire? && ev.call in s.calls && s.calls[ev.call].phase.Captured?
    ensures Step(idleMs, s, ev) == Join(Sweep(s, ev.now - idleMs, ev.now), ev.call, ev.now)
  {
    hide Sweep, Join;
  }

  lemma RunningParts(s: State)
    requires Running(s)
    ensures Known(s) && Bound(s) && Exclusive(s) && Counted(s) && !s.closed
  {
  }

  lemma FateIn(s: State, r: State, g: nat, now: int, ends: Option<Reason>)
    requires Fate(s, r, g, now, ends)
    ensures g in r.entries
  {
  }

  lemma SameSteps(idleMs: nat, s: State, ev: Event, g: nat)
    requires ev.Acquire? && !s.closed && g in s.entries && s.entries[g].users >= 0
    requires !(ev.call in s.calls && s.calls[ev.call].phase.Captured?)
    ensures Stepped(idleMs, s, Step(idleMs, s, ev), ev, g)
  {
  }

  lemma UsersNat(s: State, g: nat)
    requires Counted(s) && g in s.entries
    ensures s.entries[g].users >= 0
  {
    hide Holders;
  }

  lemma TouchSteps(idleMs: nat, s: State, ev: Event, g: nat)
    requires ev.Touch? && g in s.entries && s.entries[g].users >= 0 && !s.closed
    ensures Stepped(idleMs, s, Step(idleMs, s, ev), ev, g)
  {
  }

  lemma ExecFate(s: State, call: nat, outcome: Outcome, now: int, g: nat)
    requires call in s.calls && g in s.entries
    ensures Fate(s, FinishExec(s, call, outcome, now), g, now, None)
  {
    ReleaseFate(s, {call}, now, g);
    hide ReleaseCalls;
  }

  lemma WaitFate(s: State, cell: nat, outcome: Outcome, now: int, g: nat)
    requires g in s.entries
    ensures Fate(s, FinishWait(s, cell, outcome, now), g, now, None)
  {
    SameFate(s, s, g, now);
    SameFate(s, TakeCells(s, {cell}), g, now);
    hide ReleaseCalls, TakeCells, Fate;
    if cell in s.cells { ReleaseFate(s, {s.cells[cell]}, now, g); }
  }

  /** The fate of a session in any step but an acquire and a touch. */
  lemma OtherFate(idleMs: nat, s: State, ev: Event, g: nat)
    requires g in s.entries && !s.closed && !ev.Acquire? && !ev.Touch?
    ensures Fate(s, Step(idleMs, s, ev), g, NowOf(ev), Ends(idleMs, s, ev, g))
  {
    hide Fate, FirstToGo, FinishAcquire, FinishExec, FinishWait, FinishTerminate, FailSession, FailAll, Sweep, Reclaim, Close;
    var r := Step(idleMs, s, ev);
    SameFate(s, s, g, NowOf(ev));
    match ev
    case CaptureGeneration(call, scope, now) =>
      SweepFate(idleMs, s, now, g);
      if call !in s.calls { SameEntryFate(s, Sweep(s, now - idleMs, now), r, g, now, When(IdleTooLong(idleMs, s, g, now), Idle)); }
    case Resume(call, result, now) =>
      if call in s.calls && s.calls[call].phase.Opening? && s.calls[call].generation in s.entries { FinishFate(s, call, result, now, g); }
    case ExecEnds(call, outcome, now) => if call in s.calls { ExecFate(s, call, outcome, now, g); }
    case WaitEnds(cell, outcome, now) => WaitFate(s, cell, outcome, now, g);
    case StopCells(cells) => SameFate(s, TakeCells(s, cells), g, NowOf(ev));
    case TerminateEnds(call, confirmed, now) =>
      if call in s.calls && s.calls[call].phase.Terminating? { TerminateFate(s, call, confirmed, now, g); }
    case SessionFails(h, now) =>
      FailFate(s, h, now, g);
    case HostStops(memory, now) => FailAllFate(s, memory, now, g);
    case SweepIdle(now) => SweepFate(idleMs, s, now, g);
    case ReclaimOldest(idleOnly, through, now) => ReclaimFate(s, idleOnly, through, now, g);
    case CloseService(now) => CloseFate(s, now, g);
  }

  /** What any step of a running service does to the entry of a session. */
  lemma StepSteps(idleMs: nat, s: State, ev: Event, g: nat)
    requires Running(s) && g in s.entries
    ensures Stepped(idleMs, s, Step(idleMs, s, ev), ev, g)
  {
    var r := Step(idleMs, s, ev);
    RunningParts(s);
    UsersNat(s, g);
    hide Step, Running, Fate, Ends, Stepped, Counted, Known, Bound, Exclusive;
    if ev.Acquire? {
      AcquireSteps(idleMs, s, ev, g);
    } else if ev.Touch? {
      TouchSteps(idleMs, s, ev, g);
    } else {
      OtherFate(idleMs, s, ev, g);
      FateSteps(idleMs, s, r, ev, g, Ends(idleMs, s, ev, g));
    }
  }

  // ---- what a step does to the binding of a scope ----

  /** What is left of a scope's session: the notice of a loss that the user has to hear of. */
  function AfterEnd(e: Entry, g: nat, reason: Reason, now: int): Option<Binding> {
    if (reason == Failure || reason == Memory) && (e.announced || e.previous.Some?)
    then Some(Notice(if e.previous.Some? then e.previous.value else g, now))
    else None
  }

  /** The binding once its session has ended, or its notice has grown old, if either happens. */
  ghost function Left(idleMs: nat, s: State, ev: Event, sc: nat): Option<Binding> {
    if sc !in s.shared then None
    else match s.shared[sc]
      case Live(g) =>
        if g in s.entries && Ends(idleMs, s, ev, g).Some?
        then AfterEnd(s.entries[g], g, Ends(idleMs, s, ev, g).value, NowOf(ev)) else Some(Live(g))
      case Notice(g, at) =>
        if ev.CloseService? || (Sweeps(s, ev) && NowOf(ev) - at >= idleMs) then None else Some(Notice(g, at))
  }

  /** An acquire of the scope binds it to a new session unless one is there. */
  ghost function Rebinds(idleMs: nat, s: State, ev: Event, sc: nat): Option<Binding> {
    var left := Left(idleMs, s, ev, sc);
    if ev.Acquire? && Sweeps(s, ev) && s.calls[ev.call].scope == Some(sc) && !(left.Some? && left.value.Live?)
    then Some(Live(s.generation + 1)) else left
  }

  /** The binding after the sessions `gens` of it ended. */
  function Cleared(s: State, gens: set<nat>, reason: Reason, now: int, sc: nat): Option<Binding> {
    if sc !in s.shared then None
    else match s.shared[sc]
      case Live(g) =>
        if g in gens && g in s.entries && s.entries[g].retired.None? then AfterEnd(s.entries[g], g, reason, now) else Some(Live(g))
      case Notice(g, at) => Some(Notice(g, at))
  }

  lemma RetireClears(s: State, gens: set<nat>, reason: Reason, now: int, sc: nat)
    ensures BindingOf(Retire(s, gens, reason, now), Some(sc)) == Cleared(s, gens, reason, now, sc)
  {
    hide TrackedIn, OfGeneration, ReleaseEntry;
  }

  lemma ReleaseBinds(s: State, cs: set<nat>, now: int)
    ensures ReleaseCalls(s, cs, now).shared == s.shared
  {
  }

  lemma ReleasedClears(s: State, cs: set<nat>, gens: set<nat>, reason: Reason, now: int, sc: nat)
    requires Bound(s)
    ensures BindingOf(Retire(ReleaseCalls(s, cs, now), gens, reason, now), Some(sc)) == Cleared(s, gens, reason, now, sc)
  {
    hide OfGeneration, Retire;
    RetireClears(ReleaseCalls(s, cs, now), gens, reason, now, sc);
  }

  /** The binding after a sweep. */
  function Swept(idleMs: nat, s: State, now: int, sc: nat): Option<Binding> {
    if sc !in s.shared then None
    else match s.shared[sc]
      case Live(g) => if IdleTooLong(idleMs, s, g, now) then None else Some(Live(g))
      case Notice(g, at) => if now - at >= idleMs then None else Some(Notice(g, at))
  }

  lemma SweepClears(idleMs: nat, s: State, now: int, sc: nat)
    requires Bound(s)
    ensures BindingOf(Sweep(s, now - idleMs, now), Some(sc)) == Swept(idleMs, s, now, sc)
  {
    hide Retire;
    RetireClears(s, IdleEntries(s, now - idleMs), Idle, now, sc);
  }

  lemma CaptureBinds(idleMs: nat, s: State, ev: Event, sc: nat)
    requires Bound(s) && !s.closed && (ev.CaptureGeneration? || ev.SweepIdle?)
    ensures BindingOf(Step(idleMs, s, ev), Some(sc)) == Rebinds(idleMs, s, ev, sc)
  {
    hide Sweep;
    SweepClears(idleMs, s, ev.now, sc);
  }

  lemma JoinBinds(t: State, call: nat, now: int, sc: nat)
    requires call in t.calls
    ensures var b := BindingOf(t, Some(sc));
      BindingOf(Join(t, call, now), Some(sc)) ==
        if t.calls[call].scope == Some(sc) && !(b.Some? && b.value.Live?) then Some(Live(t.generation + 1)) else b
  {
    hide SeenGeneration;
  }

  lemma SweptLeft(idleMs: nat, s: State, ev: Event, sc: nat)
    requires Bound(s) && Sweeps(s, ev)
    ensures Left(idleMs, s, ev, sc) == Swept(idleMs, s, NowOf(ev), sc)
  {
  }

  lemma RebindsIs(idleMs: nat, s: State, ev: Event, sc: nat, left: Option<Binding>)
    requires ev.Acquire? && Sweeps(s, ev) && Left(idleMs, s, ev, sc) == left
    ensures Rebinds(idleMs, s, ev, sc) ==
      if s.calls[ev.call].scope == Some(sc) && !(left.Some? && left.value.Live?) then Some(Live(s.generation + 1)) else left
  {
    hide Left;
  }

  lemma AcquireRebinds(idleMs: nat, s: State, ev: Event, sc: nat)
    requires Bound(s) && !s.closed && ev.Acquire? && ev.call in s.calls && s.calls[ev.call].phase.Captured? && Sweeps(s, ev)
    ensures BindingOf(Step(idleMs, s, ev), Some(sc)) == Rebinds(idleMs, s, ev, sc)
  {
    hide *;
    var t := Sweep(s, ev.now - idleMs, ev.now);
    AcquireIsJoin(idleMs, s, ev);
    SweepClears(idleMs, s, ev.now, sc);
    assert NowOf(ev) == ev.now by { NowIs(ev); }
    SweptLeft(idleMs, s, ev, sc);
    SweepOrigin(s, ev.now - idleMs, ev.now, ev.call);
    JoinBinds(t, ev.call, ev.now, sc);
    RebindsIs(idleMs, s, ev, sc, Swept(idleMs, s, ev.now, sc));
  }

  lemma NowIs(ev: Event)
    requires !ev.StopCells?
    ensures NowOf(ev) == ev.now
  {
  }

  lemma AcquireBinds(idleMs: nat, s: State, ev: Event, sc: nat)
    requires Bound(s) && !s.closed && ev.Acquire?
    ensures BindingOf(Step(idleMs, s, ev), Some(sc)) == Rebinds(idleMs, s, ev, sc)
  {
    hide StartAcquire;
    if ev.call in s.calls && s.calls[ev.call].phase.Captured? {
      hide Step, Rebinds, Bound, BindingOf;
      AcquireRebinds(idleMs, s, ev, sc);
    }
  }

  lemma SweepOrigin(s: State, deadline: int, now: int, call: nat)
    requires call in s.calls
    ensures Sweep(s, deadline, now).generation == s.generation && Sweep(s, deadline, now).calls[call].scope == s.calls[call].scope
  {
    hide Rebound, Unbinds, ReleaseEntry, OfGeneration, IdleEntries;
  }

  lemma OpenedBound(s: State, h: nat, ready: bool)
    requires Bound(s) && h in s.entries
    ensures Bound(s.(entries := s.entries[h := s.entries[h].(ready := ready)]))
  {
  }

  /** An opening that succeeds leaves the bindings alone; one that fails ends its session. */
  lemma FinishBinds(s: State, call: nat, result: OpenResult, now: int, sc: nat)
    requires Bound(s) && call in s.calls && s.calls[call].generation in s.entries
    ensures var h := s.calls[call].generation;
      BindingOf(FinishAcquire(s, call, result, now), Some(sc)) ==
        if result != OpenUsable || s.entries[h].retired.Some? then Cleared(s, {h}, Failure, now, sc) else BindingOf(s, Some(sc))
  {
    hide Retire, ReleaseCalls, Bound;
    var h := s.calls[call].generation;
    var e := s.entries[h].(ready := s.entries[h].ready || !result.OpenFailed?);
    var t := s.(entries := s.entries[h := e]);
    OpenedBound(s, h, e.ready);
    if result != OpenUsable || e.retired.Some? {
      FinishFails(s, call, result, now);
      hide FinishAcquire;
      ReleasedClears(t, {call}, {h}, Failure, now, sc);
    } else {
      ReleaseBinds(t.(entries := t.entries[h := e.(previous := None)]), {call}, now);
    }
  }

  lemma ResumeBinds(idleMs: nat, s: State, ev: Event, sc: nat)
    requires Bound(s) && !s.closed && ev.Resume?
    ensures BindingOf(Step(idleMs, s, ev), Some(sc)) == Rebinds(idleMs, s, ev, sc)
  {
    hide FinishAcquire;
    if ev.call in s.calls && s.calls[ev.call].phase.Opening? && s.calls[ev.call].generation in s.entries {
      FinishBinds(s, ev.call, ev.result, ev.now, sc);
    }
  }

  lemma TerminateBinds(idleMs: nat, s: State, ev: Event, sc: nat)
    requires Bound(s) && !s.closed && ev.TerminateEnds?
    ensures BindingOf(Step(idleMs, s, ev), Some(sc)) == Rebinds(idleMs, s, ev, sc)
  {
    hide Retire, ReleaseCalls;
    if ev.call in s.calls && s.calls[ev.call].phase.Terminating? {
      var h := s.calls[ev.call].generation;
      ReleasedClears(s, TrackedIn(s, {h}), {h}, Failure, ev.now, sc);
      ReleaseBinds(if ev.confirmed then s else FailSession(s, h, ev.now), {ev.call}, ev.now);
    }
  }

  lemma LossBinds(idleMs: nat, s: State, ev: Event, sc: nat)
    requires Bound(s) && !s.closed && (ev.SessionFails? || ev.HostStops? || ev.ReclaimOldest?)
    ensures BindingOf(Step(idleMs, s, ev), Some(sc)) == Rebinds(idleMs, s, ev, sc)
  {
    hide Retire, ReleaseCalls, FirstToGo, Oldest;
    match ev
    case SessionFails(g, now) => ReleasedClears(s, TrackedIn(s, {g}), {g}, Failure, now, sc);
    case HostStops(memory, now) =>
      ReleasedClears(s, TrackedIn(s, s.entries.Keys), s.entries.Keys, if memory then Memory else Failure, now, sc);
    case ReclaimOldest(idleOnly, through, now) =>
      if sc in s.shared && s.shared[sc].Live? { OldestIs(s, idleOnly, through, s.shared[sc].generation); }
      if Oldest(s, idleOnly, through).Some? {
        RetireClears(s, {Oldest(s, idleOnly, through).value}, Memory, now, sc);
      }
  }

  lemma CellBinds(idleMs: nat, s: State, ev: Event, sc: nat)
    requires Bound(s) && !s.closed && (ev.Touch? || ev.ExecEnds? || ev.WaitEnds? || ev.StopCells? || ev.CloseService?)
    ensures BindingOf(Step(idleMs, s, ev), Some(sc)) == Rebinds(idleMs, s, ev, sc)
  {
    hide Retire, ReleaseEntry, OfGeneration;
  }

  /** The binding of every scope after any step of a running service. */
  lemma StepBinds(idleMs: nat, s: State, ev: Event, sc: nat)
    requires Running(s)
    ensures BindingOf(Step(idleMs, s, ev), Some(sc)) == Rebinds(idleMs, s, ev, sc)
  {
    RunningParts(s);
    hide Step, Running, Rebinds, Bound, Known, Exclusive, Counted;
    match ev
    case CaptureGeneration(_, _, _) => CaptureBinds(idleMs, s, ev, sc);
    case SweepIdle(_) => CaptureBinds(idleMs, s, ev, sc);
    case Acquire(_, _) => AcquireBinds(idleMs, s, ev, sc);
    case Resume(_, _, _) => ResumeBinds(idleMs, s, ev, sc);
    case TerminateEnds(_, _, _) => TerminateBinds(idleMs, s, ev, sc);
    case SessionFails(_, _) => LossBinds(idleMs, s, ev, sc);
    case HostStops(_, _) => LossBinds(idleMs, s, ev, sc);
    case ReclaimOldest(_, _, _) => LossBinds(idleMs, s, ev, sc);
    case _ => CellBinds(idleMs, s, ev, sc);
  }

  // ---- over whole runs ----

  /** With this event the last lease on the session was given back. */
  ghost predicate FreedAt(idleMs: nat, events: seq<Event>, i: nat, g: nat)
    requires i < |events|
  {
    var s, r := Run(idleMs, events[..i]), Run(idleMs, events[..i + 1]);
    g in s.entries && g in r.entries && s.entries[g].users > 0 && r.entries[g].users == 0
  }

  /** It was, and nobody has taken one since. */
  ghost predicate LastFreed(idleMs: nat, events: seq<Event>, i: nat, g: nat) {
    && i < |events| && FreedAt(idleMs, events, i, g)
    && forall k :: i < k <= |events| ==> FreeAt(idleMs, events, k, g)
  }

  ghost predicate FreeAt(idleMs: nat, events: seq<Event>, k: nat, g: nat)
    requires k <= |events|
  {
    g in Run(idleMs, events[..k]).entries && Run(idleMs, events[..k]).entries[g].users == 0
  }

  /** The idle time of a session runs from the event that gave back its last lease. */
  lemma {:induction false} IdleFromRelease(idleMs: nat, events: seq<Event>, g: nat) returns (i: nat)
    requires !Run(idleMs, events).closed && g in Run(idleMs, events).entries && Run(idleMs, events).entries[g].users == 0
    ensures LastFreed(idleMs, events, i, g)
    ensures Run(idleMs, events).entries[g].idleSince == NowOf(events[i])
    decreases |events|
  {
    RunLast(idleMs, events);
    hide Run, Step, Inv, Running, Counted, Ends;
    var n := |events| - 1;
    var before, ev := events[..n], events[n];
    var s, r := Run(idleMs, before), Run(idleMs, events);
    RunOpen(idleMs, s, ev);
    assert events[..n + 1] == events;
    NewEntryUsed(idleMs, s, ev, g);
    StepSteps(idleMs, s, ev, g);
    RunningParts(s);
    UsersNat(s, g);
    if s.entries[g].users > 0 {
      i := n;
      assert FreedAt(idleMs, events, n, g);
      assert FreeAt(idleMs, events, |events|, g);
    } else {
      i := IdleFromRelease(idleMs, before, g);
      assert before + [ev] == events;
      LongerFreed(idleMs, before, ev, i, g);
    }
  }

  lemma RunLast(idleMs: nat, events: seq<Event>)
    ensures events == [] ==> Run(idleMs, events) == Initial
    ensures events != [] ==> Run(idleMs, events) == Step(idleMs, Run(idleMs, events[..|events| - 1]), events[|events| - 1])
  {
    hide Step, Inv;
  }

  lemma LongerFreed(idleMs: nat, before: seq<Event>, ev: Event, i: nat, g: nat)
    requires LastFreed(idleMs, before, i, g)
    requires var r := Run(idleMs, before + [ev]); g in r.entries && r.entries[g].users == 0
    ensures LastFreed(idleMs, before + [ev], i, g) && (before + [ev])[i] == before[i]
  {
    hide Run;
    var all := before + [ev];
    assert all[..i] == before[..i] && all[..i + 1] == before[..i + 1];
    forall k | i < k <= |all| ensures FreeAt(idleMs, all, k, g) {
      if k <= |before| {
        assert FreeAt(idleMs, before, k, g);
        assert all[..k] == before[..k];
      } else {
        assert all[..k] == all;
      }
    }
  }

  lemma RunOpen(idleMs: nat, s: State, ev: Event)
    requires Inv(s) && !Step(idleMs, s, ev).closed
    ensures Running(s) && !s.closed
  {
    hide Base, TrackedLive, Pending;
    hide Sweep, FinishAcquire, FinishExec, FinishTerminate, FailSession, FailAll, Close, Reclaim, StartAcquire;
  }

  /** An entry that a step adds has its first user already. */
  lemma NewEntryUsed(idleMs: nat, s: State, ev: Event, g: nat)
    requires Running(s) && g in Step(idleMs, s, ev).entries
    ensures g in s.entries || Step(idleMs, s, ev).entries[g].users > 0
  {
    hide *;
    RunningOpen(s);
    if ev.Acquire? && ev.call in s.calls && s.calls[ev.call].phase.Captured? {
      var t := Sweep(s, ev.now - idleMs, ev.now);
      AcquireIsJoin(idleMs, s, ev);
      SweepRunning(s, ev.now - idleMs, ev.now);
      RunningParts(t);
      JoinEntries(t, ev.call, ev.now, g);
    } else {
      SameEntries(idleMs, s, ev);
    }
  }

  lemma SameEntries(idleMs: nat, s: State, ev: Event)
    requires !s.closed && !(ev.Acquire? && ev.call in s.calls && s.calls[ev.call].phase.Captured?)
    ensures Step(idleMs, s, ev).entries.Keys == s.entries.Keys
  {
    hide Retire, ReleaseCalls, Oldest, IdleEntries, StartAcquire;
  }

  lemma RunningOpen(s: State)
    requires Running(s)
    ensures !s.closed
  {
  }

  /** The session goes with the sweep if that comes `idleMs` after its last release, and stays the
      session of its scope otherwise. */
  ghost predicate SweptInTime(idleMs: nat, events: seq<Event>, now: int, g: nat, sc: nat, i: nat) {
    && LastFreed(idleMs, events, i, g)
    && var r := Step(idleMs, Run(idleMs, events), SweepIdle(now));
       if now - NowOf(events[i]) >= idleMs then !Unretired(r, g) && BindingOf(r, Some(sc)) == None
       else Unretired(r, g) && BindingOf(r, Some(sc)) == Some(Live(g))
  }

  /** A sweep ends the session of a scope exactly when nobody holds a lease on it and the last one
      was given back at least `idleMs` before; then it leaves no notice behind. */
  lemma SweepExact(idleMs: nat, events: seq<Event>, now: int, g: nat, sc: nat)
    requires !Run(idleMs, events).closed && Unretired(Run(idleMs, events), g) && Run(idleMs, events).entries[g].scope == Some(sc)
    ensures Run(idleMs, events).entries[g].users > 0 ==>
      var r := Step(idleMs, Run(idleMs, events), SweepIdle(now)); Unretired(r, g) && BindingOf(r, Some(sc)) == Some(Live(g))
    ensures Run(idleMs, events).entries[g].users <= 0 ==> exists i :: SweptInTime(idleMs, events, now, g, sc, i)
  {
    hide Run, Step, Inv, Running, Known, Bound, Exclusive, Counted, LastFreed;
    var s := Run(idleMs, events);
    RunningNow(s);
    SweepDecides(idleMs, s, now, g, sc);
    RunningParts(s);
    UsersNat(s, g);
    if s.entries[g].users == 0 {
      var i := IdleFromRelease(idleMs, events, g);
      assert SweptInTime(idleMs, events, now, g, sc, i);
    }
  }

  lemma SweepDecides(idleMs: nat, s: State, now: int, g: nat, sc: nat)
    requires Running(s) && Unretired(s, g) && s.entries[g].scope == Some(sc)
    ensures var r := Step(idleMs, s, SweepIdle(now));
      if IdleTooLong(idleMs, s, g, now) then !Unretired(r, g) && BindingOf(r, Some(sc)) == None
      else Unretired(r, g) && BindingOf(r, Some(sc)) == Some(Live(g))
  {
    RunningParts(s);
    assert s.shared[sc] == Live(g);
    hide Step, Running, Known, Bound, Exclusive, Counted, Ends, Rebinds, IdleTooLong, Sweep;
    SweepEnds(idleMs, s, now, g);
    SweepRebinds(idleMs, s, now, g, sc);
    StepSteps(idleMs, s, SweepIdle(now), g);
    StepBinds(idleMs, s, SweepIdle(now), sc);
  }

  lemma SweepRebinds(idleMs: nat, s: State, now: int, g: nat, sc: nat)
    requires sc in s.shared && s.shared[sc] == Live(g)
    ensures Rebinds(idleMs, s, SweepIdle(now), sc) == if IdleTooLong(idleMs, s, g, now) then None else Some(Live(g))
  {
  }

  lemma RunningNow(s: State)
    requires Inv(s) && !s.closed
    ensures Running(s)
  {
    hide Base, TrackedLive, Pending;
  }

  // ---- a conversation comes back to its session ----

  /** Nothing between two places of the run ended the session. */
  ghost predicate Undisturbed(idleMs: nat, events: seq<Event>, i: nat, j: nat, g: nat)
    requires i <= j <= |events|
  {
    forall k :: i <= k < j ==> Spares(idleMs, events, k, g)
  }

  ghost predicate Spares(idleMs: nat, events: seq<Event>, k: nat, g: nat)
    requires k < |events|
  {
    Ends(idleMs, Run(idleMs, events[..k]), events[k], g).None?
  }

  /** The scope is bound to this session, which has been opened before. */
  predicate Serves(s: State, g: nat, sc: nat) {
    && !s.closed && Unretired(s, g) && s.entries[g].scope == Some(sc) && s.entries[g].previous.None?
    && BindingOf(s, Some(sc)) == Some(Live(g))
  }

  lemma ServesOn(idleMs: nat, s: State, ev: Event, g: nat, sc: nat)
    requires Running(s) && Serves(s, g, sc) && Ends(idleMs, s, ev, g).None?
    ensures Serves(Step(idleMs, s, ev), g, sc)
  {
    hide Step, Running, Ends, Rebinds;
    StepSteps(idleMs, s, ev, g);
    StepBinds(idleMs, s, ev, sc);
    RebindsStays(idleMs, s, ev, g, sc);
    StaysOpen(idleMs, s, ev);
    ClosingEnds(idleMs, s, ev, g);
  }

  lemma ClosingEnds(idleMs: nat, s: State, ev: Event, g: nat)
    ensures ev.CloseService? ==> Ends(idleMs, s, ev, g).Some?
  {
    hide IdleTooLong, FirstToGo;
  }

  lemma RebindsStays(idleMs: nat, s: State, ev: Event, g: nat, sc: nat)
    requires sc in s.shared && s.shared[sc] == Live(g) && Ends(idleMs, s, ev, g).None?
    ensures Rebinds(idleMs, s, ev, sc) == Some(Live(g))
  {
    hide Ends;
  }

  lemma StaysOpen(idleMs: nat, s: State, ev: Event)
    requires Running(s)
    ensures Step(idleMs, s, ev).closed <==> ev.CloseService?
  {
    hide Base, TrackedLive, Pending, Step;
    StepRunning(idleMs, s, ev);
    if ev.CloseService? { CloseCloses(idleMs, s, ev); }
  }

  lemma CloseCloses(idleMs: nat, s: State, ev: Event)
    requires ev.CloseService?
    ensures Step(idleMs, s, ev).closed
  {
  }

  lemma {:induction false} SessionKept(idleMs: nat, events: seq<Event>, i: nat, j: nat, g: nat, sc: nat)
    requires i <= j <= |events| && Serves(Run(idleMs, events[..i]), g, sc) && Undisturbed(idleMs, events, i, j, g)
    ensures Serves(Run(idleMs, events[..j]), g, sc)
    decreases j - i
  {
    if i < j {
      var s := Run(idleMs, events[..i]);
      RunSplit(idleMs, events, i);
      RunningNow(s);
      hide Run, Step, Running, Inv, Serves, Ends;
      assert Spares(idleMs, events, i, g);
      ServesOn(idleMs, s, events[i], g, sc);
      SessionKept(idleMs, events, i + 1, j, g, sc);
    }
  }

  /** Until something ends a session, every call of its scope sees its generation, joins it, and is
      granted a lease on it if it opens for the call and the call expected no other. */
  lemma SameSessionAgain(idleMs: nat, events: seq<Event>, i: nat, j: nat, g: nat, sc: nat, c: nat)
    requires i <= j < |events| && Serves(Run(idleMs, events[..i]), g, sc) && Undisturbed(idleMs, events, i, j + 1, g)
    ensures var s, r, ev := Run(idleMs, events[..j]), Run(idleMs, events[..j + 1]), events[j];
      && (ev.CaptureGeneration? && ev.call == c && c !in s.calls && ev.scope == Some(sc) ==>
            c in r.calls && r.calls[c].expected == Some(g))
      && (ev.Acquire? && ev.call == c && c in s.calls && s.calls[c].phase.Captured? && s.calls[c].scope == Some(sc) ==>
            && c in r.calls && r.calls[c].generation == g && r.calls[c].phase.Opening?
            && r.calls[c].expected == if s.calls[c].expected.Some? then s.calls[c].expected else Some(g))
      && (ev.Resume? && ev.call == c && c in s.calls && s.calls[c].phase.Opening? && s.calls[c].generation == g
          && ev.result == OpenUsable && (s.calls[c].expected == None || s.calls[c].expected == Some(g)) ==>
            Granted(s, r, c) && r.calls[c].generation == g)
  {
    var s, ev := Run(idleMs, events[..j]), events[j];
    assert Undisturbed(idleMs, events, i, j, g);
    assert Spares(idleMs, events, j, g);
    RunSplit(idleMs, events, j);
    hide Run, Step, Ends, Serves, Inv;
    SessionKept(idleMs, events, i, j, g, sc);
    RunningNow(s);
    if ev.CaptureGeneration? && ev.call == c && c !in s.calls && ev.scope == Some(sc) { SeesSession(idleMs, s, ev, g, sc); }
    if ev.Acquire? && ev.call == c && c in s.calls && s.calls[c].phase.Captured? && s.calls[c].scope == Some(sc) {
      JoinsSession(idleMs, s, ev, g, sc);
    }
    if ev.Resume? && ev.call == c && c in s.calls && s.calls[c].phase.Opening? && s.calls[c].generation == g
       && ev.result == OpenUsable && (s.calls[c].expected == None || s.calls[c].expected == Some(g)) {
      GetsSession(idleMs, s, ev, g, sc);
    }
  }

  /** A session that serves still serves after a sweep that spares it. */
  lemma ServesSwept(idleMs: nat, s: State, now: int, g: nat, sc: nat)
    requires Running(s) && Serves(s, g, sc) && !IdleTooLong(idleMs, s, g, now)
    ensures Serves(Sweep(s, now - idleMs, now), g, sc)
  {
    SweepEnds(idleMs, s, now, g);
    assert !s.closed;
    hide Running, Serves, Ends, Sweep, Step, IdleTooLong;
    ServesOn(idleMs, s, SweepIdle(now), g, sc);
  }

  lemma SweepEnds(idleMs: nat, s: State, now: int, g: nat)
    ensures Ends(idleMs, s, SweepIdle(now), g) == When(IdleTooLong(idleMs, s, g, now), Idle)
    ensures !s.closed ==> Step(idleMs, s, SweepIdle(now)) == Sweep(s, now - idleMs, now)
  {
    hide Sweep;
  }

  lemma SweepsEnd(idleMs: nat, s: State, ev: Event, g: nat)
    requires Sweeps(s, ev) && Ends(idleMs, s, ev, g).None?
    ensures !IdleTooLong(idleMs, s, g, ev.now)
  {
  }

  lemma ServedSeen(t: State, g: nat, sc: nat)
    requires Serves(t, g, sc)
    ensures SeenGeneration(t, Some(sc)) == Some(g) && !t.closed
  {
  }

  lemma SeesSession(idleMs: nat, s: State, ev: Event, g: nat, sc: nat)
    requires Running(s) && Serves(s, g, sc) && Ends(idleMs, s, ev, g).None?
    requires ev.CaptureGeneration? && ev.call !in s.calls && ev.scope == Some(sc)
    ensures var r := Step(idleMs, s, ev); ev.call in r.calls && r.calls[ev.call].expected == Some(g)
  {
    hide Sweep, Running, Serves, Ends, IdleTooLong, SeenGeneration;
    SweepsEnd(idleMs, s, ev, g);
    ServedSeen(s, g, sc);
    ServesSwept(idleMs, s, ev.now, g, sc);
    ServedSeen(Sweep(s, ev.now - idleMs, ev.now), g, sc);
  }

  lemma JoinedServed(t: State, call: nat, now: int, g: nat, sc: nat)
    requires Serves(t, g, sc) && call in t.calls && t.calls[call].scope == Some(sc)
    ensures var r := Join(t, call, now);
      && call in r.calls && r.calls[call].generation == g && r.calls[call].phase.Opening?
      && r.calls[call].expected == if t.calls[call].expected.Some? then t.calls[call].expected else Some(g)
  {
  }

  lemma JoinsSession(idleMs: nat, s: State, ev: Event, g: nat, sc: nat)
    requires Running(s) && Serves(s, g, sc) && Ends(idleMs, s, ev, g).None?
    requires ev.Acquire? && ev.call in s.calls && s.calls[ev.call].phase.Captured? && s.calls[ev.call].scope == Some(sc)
    ensures var r := Step(idleMs, s, ev); var c := ev.call;
      && c in r.calls && r.calls[c].generation == g && r.calls[c].phase.Opening?
      && r.calls[c].expected == if s.calls[c].expected.Some? then s.calls[c].expected else Some(g)
  {
    hide Sweep, Running, Step, CallsGoOn, Join, Serves, Ends, IdleTooLong;
    var t := Sweep(s, ev.now - idleMs, ev.now);
    RunningOpen(s);
    AcquireIsJoin(idleMs, s, ev);
    SweepsEnd(idleMs, s, ev, g);
    ServesSwept(idleMs, s, ev.now, g, sc);
    SweepGoesOn(s, ev.now - idleMs, ev.now);
    GoesOn(s, t, ev.call);
    JoinedServed(t, ev.call, ev.now, g, sc);
  }

  lemma GetsSession(idleMs: nat, s: State, ev: Event, g: nat, sc: nat)
    requires Running(s) && Serves(s, g, sc)
    requires ev.Resume? && ev.call in s.calls && s.calls[ev.call].phase.Opening? && s.calls[ev.call].generation == g
    requires ev.result == OpenUsable && (s.calls[ev.call].expected == None || s.calls[ev.call].expected == Some(g))
    ensures var r := Step(idleMs, s, ev); Granted(s, r, ev.call) && r.calls[ev.call].generation == g
  {
    hide Running, Retire, ReleaseCalls;
  }
}
