/** What holds between any two steps of the service. */
module LeaseInvariants {
  import opened LeaseStates

  /** Generations are handed out in order and calls refer to known sessions of their scope. */
  ghost predicate Known(s: State) {
    && (forall g :: g in s.entries ==> 1 <= g <= s.generation)
    && (forall g :: g in s.entries && s.entries[g].previous.Some? ==> s.entries[g].previous.value < g && s.entries[g].scope.Some?)
    && (forall c :: c in s.calls && s.calls[c].expected.Some? ==> s.calls[c].expected.value <= s.generation)
    && (forall c :: c in s.calls && s.calls[c].Holding() ==>
          s.calls[c].generation in s.entries && s.entries[s.calls[c].generation].scope == s.calls[c].scope)
  }

  ghost predicate Bound(s: State) {
    forall sc :: sc in s.shared ==>
      match s.shared[sc]
      case Live(g) => Unretired(s, g) && s.entries[g].scope == Some(sc)
      case Notice(g, _) => g <= s.generation
  }

  /** Every scoped session that is not retired is the one its scope is bound to. */
  ghost predicate Exclusive(s: State) {
    forall g :: Unretired(s, g) && s.entries[g].scope.Some? ==>
      s.entries[g].scope.value in s.shared && s.shared[s.entries[g].scope.value] == Live(g)
  }

  /** An entry's user count is the number of calls that hold a lease on it. */
  ghost predicate Counted(s: State) {
    forall g :: g in s.entries ==> s.entries[g].users == |Holders(s, g)|
  }

  ghost predicate CellsMatch(s: State) {
    && (forall h :: h in s.cells ==> s.cells[h] in s.calls && s.calls[s.cells[h]].phase == Tracked(h))
    && (forall c :: c in s.calls && s.calls[c].phase.Tracked? ==>
          s.calls[c].phase.cell in s.cells && s.cells[s.calls[c].phase.cell] == c)
  }

  /** No tracked cell belongs to a retired session. */
  ghost predicate TrackedLive(s: State) {
    forall c :: c in s.calls && s.calls[c].phase.Tracked? ==> Unretired(s, s.calls[c].generation)
  }

  ghost predicate UnscopedUsed(s: State) {
    forall g :: Unretired(s, g) && s.entries[g].scope.None? ==> s.entries[g].users > 0
  }

  ghost predicate OpeningOn(s: State, c: nat, g: nat) {
    c in s.calls && s.calls[c].phase.Opening? && s.calls[c].generation == g
  }

  /** A replacement that still shows the previous generation is being opened by some call, and
      was never announced. */
  ghost predicate Pending(s: State, except: set<nat>) {
    forall g :: Unretired(s, g) && s.entries[g].previous.Some? && g !in except ==>
      !s.entries[g].announced && exists c :: OpeningOn(s, c, g)
  }

  ghost predicate Waiting(s: State, c: nat) {
    c in s.calls && (s.calls[c].phase.Captured? || s.calls[c].phase.Opening?)
  }

  /** No waiting call expects a replacement whose loss of the previous session is not reported. */
  ghost predicate Cautious(s: State) {
    && (forall c, g ::
          (Waiting(s, c) && Unretired(s, g) && s.entries[g].previous.Some? &&
           s.entries[g].scope == s.calls[c].scope && s.calls[c].expected.Some?) ==>
          s.calls[c].expected.value < g)
    && (forall c :: c in s.calls && s.calls[c].phase.Opening? && s.calls[c].expected.None? && Unretired(s, s.calls[c].generation)
          ==> s.entries[s.calls[c].generation].previous.None?)
  }

  ghost predicate Base(s: State) {
    && Known(s) && Bound(s) && Exclusive(s) && Counted(s) && CellsMatch(s) && UnscopedUsed(s) && Cautious(s)
  }

  ghost predicate Inv(s: State) {
    if s.closed then
      s.shared == map[] && s.cells == map[] && forall g :: g in s.entries ==> s.entries[g].retired.Some?
    else
      Base(s) && TrackedLive(s) && Pending(s, {})
  }

  // ---- releasing leases ----

  ghost predicate Releasable(s: State, cs: set<nat>) {
    forall c :: c in cs ==> c in s.calls && s.calls[c].Holding()
  }

  lemma HoldersAfterRelease(s: State, cs: set<nat>, now: int, g: nat)
    requires Releasable(s, cs)
    ensures |Holders(ReleaseCalls(s, cs, now), g)| == |Holders(s, g)| - |OfGeneration(s, cs, g)|
  {
    hide ReleaseEntry;
    var r := ReleaseCalls(s, cs, now);
    var gone := OfGeneration(s, cs, g);
    forall c
      ensures c in Holders(r, g) <==> c in Holders(s, g) - gone
    {
      if c in r.calls && c !in cs {
        assert r.calls[c] == s.calls[c];
      }
    }
    assert Holders(r, g) == Holders(s, g) - gone;
    SubsetSize(gone, Holders(s, g));
  }

  lemma SubsetSize(a: set<nat>, b: set<nat>)
    requires a <= b
    ensures |b - a| == |b| - |a|
  {
    assert b == (b - a) + a;
  }

  lemma ReleaseCounted(s: State, cs: set<nat>, now: int)
    requires Counted(s) && Releasable(s, cs)
    ensures Counted(ReleaseCalls(s, cs, now))
  {
    hide Holders, OfGeneration, ReleaseEntry;
    var r := ReleaseCalls(s, cs, now);
    forall g | g in r.entries
      ensures r.entries[g].users == |Holders(r, g)|
    {
      HoldersAfterRelease(s, cs, now, g);
    }
  }

  lemma ReleaseKnown(s: State, cs: set<nat>, now: int)
    requires Known(s)
    ensures Known(ReleaseCalls(s, cs, now))
  {
    hide OfGeneration, ReleaseEntry;
  }

  lemma ReleaseBound(s: State, cs: set<nat>, now: int)
    requires Bound(s) && Exclusive(s)
    ensures Bound(ReleaseCalls(s, cs, now)) && Exclusive(ReleaseCalls(s, cs, now))
  {
    hide OfGeneration, ReleaseEntry;
    var r := ReleaseCalls(s, cs, now);
    assert forall g :: g in s.entries && s.entries[g].scope.Some? ==> r.entries[g].retired == s.entries[g].retired;
  }

  lemma ReleaseCells(s: State, cs: set<nat>, now: int)
    requires CellsMatch(s)
    ensures CellsMatch(ReleaseCalls(s, cs, now))
  {
    hide OfGeneration, ReleaseEntry;
  }

  lemma ReleaseUnscoped(s: State, cs: set<nat>, now: int)
    requires Counted(s) && UnscopedUsed(s) && Releasable(s, cs)
    ensures UnscopedUsed(ReleaseCalls(s, cs, now))
  {
    hide Holders, OfGeneration, ReleaseEntry;
    ReleaseCounted(s, cs, now);
    var r := ReleaseCalls(s, cs, now);
    assert forall g :: g in r.entries ==> r.entries[g].users == |Holders(r, g)|;
  }

  lemma ReleaseCautious(s: State, cs: set<nat>, now: int)
    requires Cautious(s)
    ensures Cautious(ReleaseCalls(s, cs, now))
  {
    hide OfGeneration, ReleaseEntry;
    var r := ReleaseCalls(s, cs, now);
    assert forall g :: Unretired(r, g) ==> Unretired(s, g) && r.entries[g].previous == s.entries[g].previous && r.entries[g].scope == s.entries[g].scope;
    assert forall c :: Waiting(r, c) ==> Waiting(s, c) && r.calls[c] == s.calls[c];
  }

  lemma ReleaseKeeps(s: State, cs: set<nat>, now: int)
    requires Base(s) && Releasable(s, cs)
    ensures Base(ReleaseCalls(s, cs, now))
  {
    hide Known, Bound, Exclusive, Counted, CellsMatch, UnscopedUsed, Cautious, ReleaseCalls;
    ReleaseKnown(s, cs, now);
    ReleaseBound(s, cs, now);
    ReleaseCounted(s, cs, now);
    ReleaseCells(s, cs, now);
    ReleaseUnscoped(s, cs, now);
    ReleaseCautious(s, cs, now);
  }

  lemma ReleaseLive(s: State, cs: set<nat>, now: int)
    requires Known(s) && Counted(s) && Releasable(s, cs)
    requires forall c :: c in s.calls && s.calls[c].phase.Tracked? && c !in cs ==> Unretired(s, s.calls[c].generation)
    ensures TrackedLive(ReleaseCalls(s, cs, now))
  {
    hide OfGeneration, ReleaseEntry, Holders;
    ReleaseCounted(s, cs, now);
    var r := ReleaseCalls(s, cs, now);
    forall c | c in r.calls && r.calls[c].phase.Tracked?
      ensures Unretired(r, r.calls[c].generation)
    {
      assert r.calls[c] == s.calls[c];
      HolderCounts(r, c);
    }
  }

  lemma HolderCounts(s: State, c: nat)
    requires Counted(s) && c in s.calls && s.calls[c].Holding() && s.calls[c].generation in s.entries
    ensures s.entries[s.calls[c].generation].users > 0
  {
    assert c in Holders(s, s.calls[c].generation);
  }

  lemma ReleasePending(s: State, cs: set<nat>, now: int, except: set<nat>)
    requires Pending(s, except)
    requires forall c :: c in cs && c in s.calls && s.calls[c].phase.Opening? ==> s.calls[c].generation in except
    ensures Pending(ReleaseCalls(s, cs, now), except)
  {
    hide OfGeneration, ReleaseEntry;
    var r := ReleaseCalls(s, cs, now);
    forall g | Unretired(r, g) && r.entries[g].previous.Some? && g !in except
      ensures !r.entries[g].announced && exists c :: OpeningOn(r, c, g)
    {
      assert Unretired(s, g);
      var c :| OpeningOn(s, c, g);
      assert OpeningOn(r, c, g);
    }
  }

  // ---- retiring sessions ----

  ghost predicate LiveOnes(s: State, victims: set<nat>) {
    forall g :: g in victims ==> Unretired(s, g)
  }

  lemma MarkKnown(s: State, victims: set<nat>, reason: Reason, now: int)
    requires Known(s) && Counted(s) && CellsMatch(s)
    ensures var r := Mark(s, victims, reason, now); Known(r) && Counted(r) && CellsMatch(r)
  {
    hide Holders, Rebound, Unbinds;
    var r := Mark(s, victims, reason, now);
    forall g | g in r.entries
      ensures r.entries[g].users == |Holders(r, g)|
    {
      SameHolders(s, r, g);
    }
  }

  lemma SameHolders(s: State, r: State, g: nat)
    requires s.calls == r.calls
    ensures Holders(s, g) == Holders(r, g)
  {
  }

  lemma MarkBound(s: State, victims: set<nat>, reason: Reason, now: int)
    requires Known(s) && Bound(s) && Exclusive(s) && UnscopedUsed(s)
    ensures var r := Mark(s, victims, reason, now); Bound(r) && Exclusive(r) && UnscopedUsed(r)
  {
    hide UnscopedUsed;
    var r := Mark(s, victims, reason, now);
    assert forall g :: Unretired(r, g) ==> Unretired(s, g) && r.entries[g] == s.entries[g];
    MarkUnscoped(s, victims, reason, now);
    assert Bound(r) by { hide Exclusive; }
  }

  lemma MarkUnscoped(s: State, victims: set<nat>, reason: Reason, now: int)
    requires UnscopedUsed(s)
    ensures UnscopedUsed(Mark(s, victims, reason, now))
  {
    hide Rebound, Unbinds;
  }

  lemma MarkCautious(s: State, victims: set<nat>, reason: Reason, now: int)
    requires Cautious(s)
    ensures Cautious(Mark(s, victims, reason, now))
  {
    hide Rebound, Unbinds;
    var r := Mark(s, victims, reason, now);
    assert forall g :: Unretired(r, g) ==> Unretired(s, g) && r.entries[g] == s.entries[g];
    assert forall c :: Waiting(r, c) ==> Waiting(s, c);
  }

  lemma MarkPending(s: State, victims: set<nat>, reason: Reason, now: int, except: set<nat>)
    requires Pending(s, except) && forall g :: g in except ==> g in victims || !Unretired(s, g)
    ensures Pending(Mark(s, victims, reason, now), {})
  {
    hide Rebound, Unbinds;
    var r := Mark(s, victims, reason, now);
    forall g | Unretired(r, g) && r.entries[g].previous.Some?
      ensures !r.entries[g].announced && exists c :: OpeningOn(r, c, g)
    {
      assert Unretired(s, g) && g !in except;
      var c :| OpeningOn(s, c, g);
      assert OpeningOn(r, c, g);
    }
  }

  lemma RetireKeeps(s: State, gens: set<nat>, reason: Reason, now: int, except: set<nat>)
    requires Base(s) && TrackedLive(s) && Pending(s, except)
    requires forall g :: g in except ==> g in gens
    ensures var r := Retire(s, gens, reason, now);
            Base(r) && TrackedLive(r) && Pending(r, {}) && forall g :: g in gens ==> !Unretired(r, g)
  {
    hide Known, Bound, Exclusive, Counted, CellsMatch, UnscopedUsed, Cautious, Pending, Holders, Mark, ReleaseCalls;
    var victims := Victims(s, gens);
    var marked := Mark(s, victims, reason, now);
    var cs := TrackedIn(marked, victims);
    MarkKnown(s, victims, reason, now);
    MarkBound(s, victims, reason, now);
    MarkCautious(s, victims, reason, now);
    MarkPending(s, victims, reason, now, except);
    ReleaseKeeps(marked, cs, now);
    ReleasePending(marked, cs, now, {});
    MarkedTracked(s, victims, reason, now);
    ReleaseLive(marked, cs, now);
    RetiredAll(s, gens, reason, now);
  }

  lemma MarkedTracked(s: State, victims: set<nat>, reason: Reason, now: int)
    requires TrackedLive(s)
    ensures var marked := Mark(s, victims, reason, now);
            forall c :: c in marked.calls && marked.calls[c].phase.Tracked? && c !in TrackedIn(marked, victims)
              ==> Unretired(marked, marked.calls[c].generation)
  {
    hide Rebound, Unbinds;
  }

  /** What no retirement changes. */
  ghost predicate SameOrigins(s: State, r: State) {
    && r.entries.Keys == s.entries.Keys && r.generation == s.generation && r.closed == s.closed
    && (forall g :: g in s.entries ==> r.entries[g].scope == s.entries[g].scope && r.entries[g].previous == s.entries[g].previous)
    && (forall g :: g in s.entries && s.entries[g].retired.Some? ==> r.entries[g].retired == s.entries[g].retired)
  }

  lemma MarkOrigins(s: State, victims: set<nat>, reason: Reason, now: int)
    requires LiveOnes(s, victims)
    ensures var r := Mark(s, victims, reason, now);
            SameOrigins(s, r) && forall g :: g in victims ==> r.entries[g].retired == Some(reason)
  {
    hide Rebound, Unbinds;
  }

  lemma ReleaseOrigins(s: State, cs: set<nat>, now: int)
    ensures SameOrigins(s, ReleaseCalls(s, cs, now))
  {
    hide OfGeneration, ReleaseEntry;
  }

  lemma RetiredAll(s: State, gens: set<nat>, reason: Reason, now: int)
    ensures var r := Retire(s, gens, reason, now);
            SameOrigins(s, r) && forall g :: g in gens ==> !Unretired(r, g)
  {
    hide Mark, ReleaseCalls, TrackedIn;
    var victims := Victims(s, gens);
    var marked := Mark(s, victims, reason, now);
    MarkOrigins(s, victims, reason, now);
    ReleaseOrigins(marked, TrackedIn(marked, victims), now);
    var r := Retire(s, gens, reason, now);
    forall g | g in gens
      ensures !Unretired(r, g)
    {
      if g in s.entries {
        assert marked.entries[g].retired.Some?;
        assert r.entries[g].retired == marked.entries[g].retired;
      }
    }
  }

  /** The state between two steps of a service that is not closed. */
  ghost predicate Running(s: State) {
    Base(s) && TrackedLive(s) && Pending(s, {}) && !s.closed
  }

  lemma RetireRunning(s: State, gens: set<nat>, reason: Reason, now: int)
    requires Running(s)
    ensures Running(Retire(s, gens, reason, now))
  {
    hide Base, TrackedLive, Pending, Retire;
    RetireKeeps(s, gens, reason, now, {});
    RetiredAll(s, gens, reason, now);
  }

  // ---- sweeping and capturing ----

  lemma SweepRunning(s: State, deadline: int, now: int)
    requires Running(s)
    ensures Running(Sweep(s, deadline, now))
  {
    hide Retire, IdleEntries;
    RetireRunning(s, IdleEntries(s, deadline), Idle, now);
    DropNotices(Retire(s, IdleEntries(s, deadline), Idle, now), deadline);
  }

  lemma DropNotices(s: State, deadline: int)
    requires Running(s)
    ensures Running(s.(shared := map sc | sc in s.shared && !Expired(s.shared[sc], deadline) :: s.shared[sc]))
  {
    hide Holders, Cautious, Counted, Pending;
    var r := s.(shared := map sc | sc in s.shared && !Expired(s.shared[sc], deadline) :: s.shared[sc]);
    SameCalls(s, r);
    assert forall g :: Unretired(r, g) <==> Unretired(s, g);
  }

  /** Only the bindings differ. */
  lemma SameCalls(s: State, r: State)
    requires s.calls == r.calls && s.entries == r.entries && Counted(s) && Cautious(s) && Pending(s, {})
    ensures Counted(r) && Cautious(r) && Pending(r, {})
  {
    assert forall g :: Holders(r, g) == Holders(s, g);
    assert forall c, g :: OpeningOn(r, c, g) <==> OpeningOn(s, c, g);
  }

  lemma SeenOlder(s: State, scope: Option<nat>)
    requires Running(s)
    ensures var e := SeenGeneration(s, scope);
            e.Some? ==>
              && e.value <= s.generation
              && forall g :: Unretired(s, g) && s.entries[g].previous.Some? && s.entries[g].scope == scope ==> e.value < g
    ensures SeenGeneration(s, scope).None? ==> BindingOf(s, scope).None?
  {
    hide Counted, CellsMatch, UnscopedUsed, Cautious, TrackedLive, Pending;
  }

  lemma CaptureRunning(s: State, call: nat, scope: Option<nat>, deadline: int, now: int)
    requires Running(s) && call !in s.calls
    ensures Running(Capture(s, call, scope, deadline, now))
  {
    hide Sweep, SeenGeneration;
    SweepRunning(s, deadline, now);
    var t := Sweep(s, deadline, now);
    SeenOlder(t, scope);
    AddCall(t, call, Call(scope, SeenGeneration(t, scope), 0, Captured));
  }

  lemma AddCall(s: State, call: nat, c: Call)
    requires Running(s) && call !in s.calls && c.phase.Captured?
    requires c.expected.Some? ==> c.expected.value <= s.generation
    requires c.expected.Some? ==> forall g ::
               Unretired(s, g) && s.entries[g].previous.Some? && s.entries[g].scope == c.scope ==> c.expected.value < g
    ensures Running(s.(calls := s.calls[call := c]))
  {
    hide Counted, Pending, Cautious, Known, Bound, Exclusive, CellsMatch, UnscopedUsed, TrackedLive;
    AddCallCounts(s, call, c);
    AddCallPending(s, call, c);
    AddCallBasics(s, call, c);
    AddCallCautious(s, call, c);
  }

  lemma AddCallBasics(s: State, call: nat, c: Call)
    requires Known(s) && Bound(s) && Exclusive(s) && CellsMatch(s) && UnscopedUsed(s) && TrackedLive(s)
    requires call !in s.calls && c.phase.Captured? && (c.expected.Some? ==> c.expected.value <= s.generation)
    ensures var r := s.(calls := s.calls[call := c]);
            Known(r) && Bound(r) && Exclusive(r) && CellsMatch(r) && UnscopedUsed(r) && TrackedLive(r)
  {
    var r := s.(calls := s.calls[call := c]);
    assert forall x :: x in s.calls ==> r.calls[x] == s.calls[x];
    assert forall g :: Unretired(r, g) <==> Unretired(s, g);
  }

  lemma AddCallCautious(s: State, call: nat, c: Call)
    requires Cautious(s) && call !in s.calls && c.phase.Captured?
    requires c.expected.Some? ==> forall g ::
               Unretired(s, g) && s.entries[g].previous.Some? && s.entries[g].scope == c.scope ==> c.expected.value < g
    ensures Cautious(s.(calls := s.calls[call := c]))
  {
    var r := s.(calls := s.calls[call := c]);
    assert forall x :: Waiting(r, x) ==> x == call || Waiting(s, x);
    assert forall g :: Unretired(r, g) <==> Unretired(s, g);
  }

  lemma AddCallCounts(s: State, call: nat, c: Call)
    requires Counted(s) && call !in s.calls && c.phase.Captured?
    ensures Counted(s.(calls := s.calls[call := c]))
  {
    var r := s.(calls := s.calls[call := c]);
    forall g | g in r.entries
      ensures r.entries[g].users == |Holders(r, g)|
    {
      assert Holders(r, g) == Holders(s, g);
    }
  }

  lemma AddCallPending(s: State, call: nat, c: Call)
    requires Pending(s, {}) && call !in s.calls
    ensures Pending(s.(calls := s.calls[call := c]), {})
  {
    var r := s.(calls := s.calls[call := c]);
    assert forall x, g :: OpeningOn(s, x, g) ==> OpeningOn(r, x, g);
  }

  // ---- acquiring ----

  lemma HolderAdded(s: State, r: State, call: nat, g: nat)
    requires call in s.calls && !s.calls[call].Holding()
    requires call in r.calls && r.calls == s.calls[call := r.calls[call]]
    requires r.calls[call].Holding() && r.calls[call].generation == g
    ensures |Holders(r, g)| == |Holders(s, g)| + 1
    ensures forall x :: x != g ==> Holders(r, x) == Holders(s, x)
  {
    assert Holders(r, g) == Holders(s, g) + {call};
    forall x | x != g
      ensures Holders(r, x) == Holders(s, x)
    {
      assert forall c :: c in Holders(r, x) <==> c in Holders(s, x);
    }
  }

  /** The call `call` starts to wait for the session `g`, which is new or already known. */
  ghost predicate Starts(s: State, r: State, call: nat, g: nat) {
    && call in s.calls && s.calls[call].phase.Captured?
    && g in r.entries && r.entries[g].retired.None? && r.entries[g].scope == s.calls[call].scope
    && (g in s.entries ==> Unretired(s, g) && r.entries[g] == s.entries[g].(users := s.entries[g].users + 1, lastUsed := r.entries[g].lastUsed)
                           && r.generation == s.generation && r.shared == s.shared)
    && (g !in s.entries ==>
          && g == s.generation + 1 == r.generation
          && r.entries[g].users == 1 && !r.entries[g].announced
          && r.entries[g].previous == (match BindingOf(s, r.entries[g].scope) case None => None case Some(b) => Some(b.generation))
          && (BindingOf(s, r.entries[g].scope).Some? ==> BindingOf(s, r.entries[g].scope).value.Notice?)
          && r.shared == (if r.entries[g].scope.Some? then s.shared[r.entries[g].scope.value := Live(g)] else s.shared))
    && r.entries == s.entries[g := r.entries[g]]
    && call in r.calls && r.calls == s.calls[call := r.calls[call]]
    && r.calls[call] == Call(s.calls[call].scope, r.calls[call].expected, g, Opening)
    && r.cells == s.cells && r.closed == s.closed
  }

  /** What a starting call may expect. */
  ghost predicate Expects(s: State, r: State, call: nat, g: nat)
    requires call in r.calls && g in r.entries
  {
    match r.calls[call].expected
    case None => r.entries[g].previous.None?
    case Some(e) => e <= s.generation && (r.entries[g].previous.Some? ==> e < g)
  }

  lemma StartCounted(s: State, r: State, call: nat, g: nat)
    requires Known(s) && Counted(s) && Starts(s, r, call, g)
    ensures Counted(r)
  {
    HolderAdded(s, r, call, g);
    if g !in s.entries {
      assert Holders(s, g) == {};
    }
    hide Holders;
    assert forall x :: x in r.entries ==> r.entries[x].users == |Holders(r, x)|;
  }

  lemma StartKnown(s: State, r: State, call: nat, g: nat)
    requires Known(s) && Bound(s) && Starts(s, r, call, g) && Expects(s, r, call, g)
    ensures Known(r)
  {
    assert forall x :: x in s.calls && x != call ==> r.calls[x] == s.calls[x];
    assert forall x :: x in s.entries && x != g ==> r.entries[x] == s.entries[x];
  }

  lemma StartCells(s: State, r: State, call: nat, g: nat)
    requires CellsMatch(s) && TrackedLive(s) && Starts(s, r, call, g)
    ensures CellsMatch(r) && TrackedLive(r)
  {
    assert forall x :: x in s.calls && x != call ==> r.calls[x] == s.calls[x];
    assert forall x :: Unretired(s, x) ==> Unretired(r, x);
  }

  lemma StartBound(s: State, r: State, call: nat, g: nat)
    requires Known(s) && Bound(s) && Exclusive(s) && UnscopedUsed(s) && Counted(s) && Starts(s, r, call, g)
    ensures Bound(r) && Exclusive(r) && UnscopedUsed(r)
  {
    hide Holders;
    assert forall x :: x in s.entries && x != g ==> r.entries[x] == s.entries[x];
    assert forall x :: Unretired(r, x) ==> x == g || Unretired(s, x);
    assert g in s.entries ==> s.entries[g].users >= 0;
  }

  lemma StartCautious(s: State, r: State, call: nat, g: nat)
    requires Known(s) && Known(r) && Cautious(s) && Exclusive(s) && Starts(s, r, call, g) && Expects(s, r, call, g)
    ensures Cautious(r)
  {
    hide Known, Exclusive, Starts, Expects, BindingOf;
    forall c, x | Waiting(r, c) && Unretired(r, x) && r.entries[x].previous.Some? &&
                  r.entries[x].scope == r.calls[c].scope && r.calls[c].expected.Some?
      ensures r.calls[c].expected.value < x
    {
      StartPair(s, r, call, g, c, x);
    }
    forall c | c in r.calls && r.calls[c].phase.Opening? && r.calls[c].expected.None? && Unretired(r, r.calls[c].generation)
      ensures r.entries[r.calls[c].generation].previous.None?
    {
      StartUnexpecting(s, r, call, g, c);
    }
  }

  lemma StartPair(s: State, r: State, call: nat, g: nat, c: nat, x: nat)
    requires Known(s) && Known(r) && Cautious(s) && Exclusive(s) && Starts(s, r, call, g) && Expects(s, r, call, g)
    requires Waiting(r, c) && Unretired(r, x) && r.entries[x].previous.Some?
    requires r.entries[x].scope == r.calls[c].scope && r.calls[c].expected.Some?
    ensures r.calls[c].expected.value < x
  {
    if c == call {
      SameScopeSame(s, r, call, g, x);
    } else if x == g {
      assert Waiting(s, c);
      if g in s.entries {
        assert Unretired(s, g);
      }
    } else {
      assert Waiting(s, c) && Unretired(s, x);
    }
  }

  lemma StartUnexpecting(s: State, r: State, call: nat, g: nat, c: nat)
    requires Known(s) && Cautious(s) && Starts(s, r, call, g) && Expects(s, r, call, g)
    requires c in r.calls && r.calls[c].phase.Opening? && r.calls[c].expected.None? && Unretired(r, r.calls[c].generation)
    ensures r.entries[r.calls[c].generation].previous.None?
  {
    if c != call {
      assert r.calls[c] == s.calls[c];
    }
  }

  lemma SameScopeSame(s: State, r: State, call: nat, g: nat, x: nat)
    requires Exclusive(s) && Starts(s, r, call, g)
    requires Unretired(r, x) && r.entries[x].scope == r.entries[g].scope && r.entries[g].scope.Some?
    ensures x == g
  {
    assert x != g ==> Unretired(s, x);
  }

  lemma StartPending(s: State, r: State, call: nat, g: nat)
    requires Pending(s, {}) && Starts(s, r, call, g)
    ensures Pending(r, {})
  {
    forall x | Unretired(r, x) && r.entries[x].previous.Some?
      ensures !r.entries[x].announced && exists c :: OpeningOn(r, c, x)
    {
      if x == g {
        assert OpeningOn(r, call, g);
      } else {
        assert Unretired(s, x);
        var c :| OpeningOn(s, c, x);
        assert OpeningOn(r, c, x);
      }
    }
  }

  lemma StartRunning(s: State, r: State, call: nat, g: nat)
    requires Running(s) && Starts(s, r, call, g) && Expects(s, r, call, g)
    ensures Running(r)
  {
    hide Counted, Pending, Cautious, Known, Bound, Exclusive, CellsMatch, UnscopedUsed, TrackedLive, Expects;
    StartCounted(s, r, call, g);
    StartKnown(s, r, call, g);
    StartCells(s, r, call, g);
    StartBound(s, r, call, g);
    StartCautious(s, r, call, g);
    StartPending(s, r, call, g);
  }

  lemma StartAcquireRunning(s: State, call: nat, deadline: int, now: int)
    requires Running(s) && call in s.calls && s.calls[call].phase.Captured?
    ensures Running(StartAcquire(s, call, deadline, now))
  {
    hide Sweep, Counted, Pending, CellsMatch, UnscopedUsed, TrackedLive;
    SweepRunning(s, deadline, now);
    SweepWaiting(s, call, deadline, now);
    var t, r := Sweep(s, deadline, now), StartAcquire(s, call, deadline, now);
    SeenOlder(t, t.calls[call].scope);
    ShareKnown(t, t.calls[call].scope);
    assert Waiting(t, call);
    StartRunning(t, r, call, r.calls[call].generation);
  }

  lemma SweepWaiting(s: State, call: nat, deadline: int, now: int)
    requires call in s.calls && s.calls[call].phase.Captured?
    ensures Sweep(s, deadline, now).calls[call] == s.calls[call]
  {
    hide Rebound, Unbinds, ReleaseEntry, IdleEntries, OfGeneration;
  }

  lemma ShareKnown(s: State, scope: Option<nat>)
    requires Bound(s) && Known(s)
    ensures match BindingOf(s, scope)
            case None => true
            case Some(Live(g)) => Unretired(s, g) && s.entries[g].scope == scope
            case Some(Notice(g, _)) => g <= s.generation
    ensures s.generation + 1 !in s.entries
  {
  }

  // ---- the rest of acquire ----

  /** An entry may become ready, be touched, or forget its previous generation. */
  ghost predicate Refreshed(s: State, r: State, g: nat) {
    && g in s.entries && g in r.entries
    && r == s.(entries := s.entries[g := r.entries[g]])
    && r.entries[g] == s.entries[g].(ready := r.entries[g].ready, lastUsed := r.entries[g].lastUsed, previous := r.entries[g].previous)
    && (r.entries[g].previous == s.entries[g].previous || r.entries[g].previous.None?)
  }

  lemma RefreshRunning(s: State, r: State, g: nat)
    requires Running(s) && Refreshed(s, r, g)
    ensures Running(r)
  {
    hide Pending, Counted, Cautious, Known, Bound, Exclusive, CellsMatch, UnscopedUsed, TrackedLive;
    RefreshBasics(s, r, g);
    RefreshPending(s, r, g);
    RefreshCautious(s, r, g);
  }

  lemma RefreshBasics(s: State, r: State, g: nat)
    requires Known(s) && Bound(s) && Exclusive(s) && CellsMatch(s) && UnscopedUsed(s) && TrackedLive(s) && Refreshed(s, r, g)
    ensures Known(r) && Bound(r) && Exclusive(r) && CellsMatch(r) && UnscopedUsed(r) && TrackedLive(r)
  {
    assert forall x :: x in s.entries && x != g ==> r.entries[x] == s.entries[x];
    assert forall x :: Unretired(r, x) <==> Unretired(s, x);
  }

  lemma RefreshPending(s: State, r: State, g: nat)
    requires Pending(s, {}) && Counted(s) && Refreshed(s, r, g)
    ensures Pending(r, {}) && Counted(r)
  {
    forall x | Unretired(r, x) && r.entries[x].previous.Some?
      ensures !r.entries[x].announced && exists c :: OpeningOn(r, c, x)
    {
      assert Unretired(s, x);
      var c :| OpeningOn(s, c, x);
      assert OpeningOn(r, c, x);
    }
    assert forall x :: Holders(r, x) == Holders(s, x);
  }

  lemma RefreshCautious(s: State, r: State, g: nat)
    requires Cautious(s) && Refreshed(s, r, g)
    ensures Cautious(r)
  {
    assert forall x :: Unretired(r, x) ==> Unretired(s, x) && r.entries[x].scope == s.entries[x].scope;
    assert forall x :: Unretired(r, x) && r.entries[x].previous.Some? ==> s.entries[x].previous.Some?;
    assert forall c :: Waiting(r, c) ==> Waiting(s, c);
  }

  /** One call gives up its lease on `g`, which then waits for nobody's first answer. */
  lemma LeaveRunning(s: State, call: nat, now: int)
    requires Running(s) && call in s.calls && s.calls[call].Holding()
    requires s.calls[call].phase.Opening? ==> !Unretired(s, s.calls[call].generation) || s.entries[s.calls[call].generation].previous.None?
    ensures Running(ReleaseCalls(s, {call}, now))
  {
    hide Known, Bound, Exclusive, Counted, CellsMatch, UnscopedUsed, Cautious, Pending, TrackedLive, ReleaseCalls;
    var g := s.calls[call].generation;
    ReleaseKeeps(s, {call}, now);
    assert TrackedLive(ReleaseCalls(s, {call}, now)) by { LeaveLive(s, call, now); }
    LeavePending(s, call, now);
    ReleaseOrigins(s, {call}, now);
  }

  lemma LeaveLive(s: State, call: nat, now: int)
    requires Known(s) && Counted(s) && TrackedLive(s) && call in s.calls && s.calls[call].Holding()
    ensures TrackedLive(ReleaseCalls(s, {call}, now))
  {
    hide Counted, ReleaseCalls;
    ReleaseLive(s, {call}, now);
  }

  lemma LeavePending(s: State, call: nat, now: int)
    requires Pending(s, {}) && call in s.calls && s.calls[call].Holding()
    requires s.calls[call].phase.Opening? ==> !Unretired(s, s.calls[call].generation) || s.entries[s.calls[call].generation].previous.None?
    ensures Pending(ReleaseCalls(s, {call}, now), {})
  {
    hide ReleaseEntry, OfGeneration;
    var r, g := ReleaseCalls(s, {call}, now), s.calls[call].generation;
    forall x | Unretired(r, x) && r.entries[x].previous.Some?
      ensures !r.entries[x].announced && exists c :: OpeningOn(r, c, x)
    {
      assert Unretired(s, x);
      var c :| OpeningOn(s, c, x);
      assert OpeningOn(r, c, x);
    }
  }

  lemma RefuseRunning(s: State, call: nat, now: int)
    requires Running(s) && call in s.calls && s.calls[call].Holding()
    ensures var g := s.calls[call].generation;
            Running(Retire(ReleaseCalls(s, {call}, now), {g}, Failure, now))
  {
    hide Known, Bound, Exclusive, Counted, CellsMatch, UnscopedUsed, Cautious, Pending, TrackedLive, ReleaseCalls, Retire;
    var g := s.calls[call].generation;
    var r := ReleaseCalls(s, {call}, now);
    ReleaseKeeps(s, {call}, now);
    LeaveLive(s, call, now);
    assert Pending(s, {g}) by { WeakerPending(s, g); }
    ReleasePending(s, {call}, now, {g});
    RetireKeeps(r, {g}, Failure, now, {g});
    ReleaseOrigins(s, {call}, now);
    RetiredAll(r, {g}, Failure, now);
  }

  lemma WeakerPending(s: State, g: nat)
    requires Pending(s, {})
    ensures Pending(s, {g})
  {
  }

  // ---- moving leases between calls, cells and terminations ----

  /** Calls keep their leases and only change what they do with them. */
  ghost predicate Moves(s: State, r: State) {
    && r == s.(calls := r.calls, cells := r.cells) && r.calls.Keys == s.calls.Keys
    && forall c :: c in s.calls ==>
         && r.calls[c] == s.calls[c].(phase := r.calls[c].phase)
         && (r.calls[c].Holding() <==> s.calls[c].Holding())
         && (r.calls[c].phase == s.calls[c].phase || (!s.calls[c].phase.Opening? && !r.calls[c].phase.Opening? && !r.calls[c].phase.Captured?))
  }

  lemma MoveRunning(s: State, r: State)
    requires Running(s) && Moves(s, r) && CellsMatch(r) && TrackedLive(r)
    ensures Running(r)
  {
    hide CellsMatch, TrackedLive, Known, Bound, Exclusive, UnscopedUsed, Cautious, Pending, Counted;
    MoveCounted(s, r);
    MoveRest(s, r);
    MovePending(s, r);
  }

  lemma MoveCounted(s: State, r: State)
    requires Counted(s) && Moves(s, r)
    ensures Counted(r)
  {
    forall g | g in r.entries
      ensures r.entries[g].users == |Holders(r, g)|
    {
      assert Holders(r, g) == Holders(s, g);
    }
  }

  lemma MovePending(s: State, r: State)
    requires Pending(s, {}) && Moves(s, r)
    ensures Pending(r, {})
  {
    assert forall c, g :: OpeningOn(s, c, g) ==> OpeningOn(r, c, g);
    assert forall g :: Unretired(r, g) <==> Unretired(s, g);
  }

  lemma MoveRest(s: State, r: State)
    requires Known(s) && Bound(s) && Exclusive(s) && UnscopedUsed(s) && Cautious(s) && Moves(s, r)
    ensures Known(r) && Bound(r) && Exclusive(r) && UnscopedUsed(r) && Cautious(r)
  {
    assert forall c :: Waiting(r, c) ==> Waiting(s, c) && r.calls[c] == s.calls[c];
    assert forall g :: Unretired(r, g) <==> Unretired(s, g);
  }

  lemma GrantRunning(s: State, call: nat)
    requires Running(s) && call in s.calls && s.calls[call].phase.Opening?
    requires s.calls[call].generation in s.entries && s.entries[s.calls[call].generation].previous.None?
    ensures var g := s.calls[call].generation;
            Running(s.(entries := s.entries[g := s.entries[g].(announced := true)],
                       calls := s.calls[call := s.calls[call].(phase := Executing)]))
  {
    hide Counted, Pending, Cautious, Known, Bound, Exclusive, CellsMatch, UnscopedUsed, TrackedLive;
    var g := s.calls[call].generation;
    assert g in s.entries by { HolderKnown(s, call); }
    var r := s.(entries := s.entries[g := s.entries[g].(announced := true)],
                calls := s.calls[call := s.calls[call].(phase := Executing)]);
    GrantBasics(s, r, call, g);
    GrantCounted(s, r, call, g);
    GrantPending(s, r, call, g);
    GrantCautious(s, r, call, g);
  }

  lemma HolderKnown(s: State, call: nat)
    requires Known(s) && call in s.calls && s.calls[call].Holding()
    ensures s.calls[call].generation in s.entries
  {
  }

  lemma GrantBasics(s: State, r: State, call: nat, g: nat)
    requires Known(s) && Bound(s) && Exclusive(s) && CellsMatch(s) && UnscopedUsed(s) && TrackedLive(s) && Grants(s, r, call, g)
    ensures Known(r) && Bound(r) && Exclusive(r) && CellsMatch(r) && UnscopedUsed(r) && TrackedLive(r)
  {
    hide CellsMatch, TrackedLive, Known;
    assert forall x :: Unretired(r, x) <==> Unretired(s, x);
    GrantCells(s, r, call, g);
  }

  lemma GrantCells(s: State, r: State, call: nat, g: nat)
    requires Known(s) && CellsMatch(s) && TrackedLive(s) && Grants(s, r, call, g)
    ensures Known(r) && CellsMatch(r) && TrackedLive(r)
  {
    assert forall c :: c in s.calls && c != call ==> r.calls[c] == s.calls[c];
    assert forall x :: Unretired(r, x) <==> Unretired(s, x);
  }

  ghost predicate Grants(s: State, r: State, call: nat, g: nat) {
    && call in s.calls && s.calls[call].phase.Opening? && s.calls[call].generation == g && g in s.entries
    && r == s.(entries := s.entries[g := s.entries[g].(announced := true)],
               calls := s.calls[call := s.calls[call].(phase := Executing)])
  }

  lemma GrantCounted(s: State, r: State, call: nat, g: nat)
    requires Counted(s) && Grants(s, r, call, g)
    ensures Counted(r)
  {
    forall x | x in r.entries
      ensures r.entries[x].users == |Holders(r, x)|
    {
      assert Holders(r, x) == Holders(s, x);
    }
  }

  lemma GrantPending(s: State, r: State, call: nat, g: nat)
    requires Pending(s, {}) && Grants(s, r, call, g) && s.entries[g].previous.None?
    ensures Pending(r, {})
  {
    forall x | Unretired(r, x) && r.entries[x].previous.Some?
      ensures !r.entries[x].announced && exists c :: OpeningOn(r, c, x)
    {
      assert Unretired(s, x);
      var c :| OpeningOn(s, c, x);
      assert OpeningOn(r, c, x);
    }
  }

  lemma GrantCautious(s: State, r: State, call: nat, g: nat)
    requires Cautious(s) && Grants(s, r, call, g)
    ensures Cautious(r)
  {
    assert forall x :: Unretired(r, x) ==> Unretired(s, x) && r.entries[x].scope == s.entries[x].scope && r.entries[x].previous == s.entries[x].previous;
    assert forall c :: Waiting(r, c) ==> Waiting(s, c) && r.calls[c] == s.calls[c];
  }

  lemma FinishAcquireRunning(s: State, call: nat, result: OpenResult, now: int)
    requires Running(s) && call in s.calls && s.calls[call].phase.Opening? && s.calls[call].generation in s.entries
    ensures Running(FinishAcquire(s, call, result, now))
  {
    hide Running, ReleaseCalls, Retire;
    var g := s.calls[call].generation;
    var e := s.entries[g].(ready := s.entries[g].ready || !result.OpenFailed?);
    var t := s.(entries := s.entries[g := e]);
    var u := s.(entries := s.entries[g := e.(previous := None)]);
    assert u == t.(entries := t.entries[g := e.(previous := None)]);
    RefreshRunning(s, t, g);
    RefreshRunning(s, u, g);
    if result != OpenUsable || e.retired.Some? {
      RefuseRunning(t, call, now);
    } else if Replaced(s, call) {
      LeaveRunning(u, call, now);
    } else {
      GrantRunning(u, call);
      assert u.entries[g := u.entries[g].(announced := true)] == t.entries[g := e.(previous := None, announced := true)];
    }
  }

  lemma FinishExecRunning(s: State, call: nat, outcome: Outcome, now: int)
    requires Running(s) && call in s.calls && s.calls[call].phase.Executing?
    ensures Running(FinishExec(s, call, outcome, now))
  {
    hide Known, Bound, Exclusive, Counted, CellsMatch, TrackedLive, UnscopedUsed, Cautious, Pending, ReleaseCalls;
    var c, r := s.calls[call], FinishExec(s, call, outcome, now);
    if outcome.Yielded? && Unretired(s, c.generation) && outcome.cell !in s.cells {
      TrackCells(s, call, outcome, now);
      MoveRunning(s, r);
    } else {
      LeaveRunning(s, call, now);
    }
  }

  lemma TrackCells(s: State, call: nat, outcome: Outcome, now: int)
    requires CellsMatch(s) && TrackedLive(s) && call in s.calls && s.calls[call].phase.Executing?
    requires outcome.Yielded? && Unretired(s, s.calls[call].generation) && outcome.cell !in s.cells
    ensures var r := FinishExec(s, call, outcome, now); Moves(s, r) && CellsMatch(r) && TrackedLive(r)
  {
    hide ReleaseCalls;
    var r := FinishExec(s, call, outcome, now);
    assert Moves(s, r);
    NewCell(s, r, call);
  }

  lemma NewCell(s: State, r: State, call: nat)
    requires CellsMatch(s) && TrackedLive(s) && call in s.calls && s.calls[call].phase.Executing? && Unretired(s, s.calls[call].generation)
    requires r == s.(calls := r.calls, cells := r.cells) && call in r.calls && r.calls == s.calls[call := s.calls[call].(phase := r.calls[call].phase)]
    requires if r.calls[call].phase.Tracked? then r.calls[call].phase.cell !in s.cells && r.cells == s.cells[r.calls[call].phase.cell := call] else r.cells == s.cells
    ensures CellsMatch(r) && TrackedLive(r)
  {
    assert forall h :: h in s.cells ==> s.cells[h] != call;
  }

  lemma TakeCellsRunning(s: State, taken: set<nat>)
    requires Running(s)
    ensures Running(TakeCells(s, taken))
  {
    hide Known, Bound, Exclusive, Counted, UnscopedUsed, Cautious, Pending;
    MoveRunning(s, TakeCells(s, taken));
  }

  lemma FinishWaitRunning(s: State, cell: nat, outcome: Outcome, now: int)
    requires Running(s)
    ensures Running(FinishWait(s, cell, outcome, now))
  {
    hide Known, Bound, Exclusive, Counted, UnscopedUsed, Cautious, Pending, ReleaseCalls, TakeCells;
    TakeCellsRunning(s, {cell});
    if cell in s.cells {
      LeaveRunning(s, s.cells[cell], now);
    }
  }

  /** Every tracked cell of these sessions ends at once. */
  lemma EndCellsRunning(s: State, gens: set<nat>, now: int)
    requires Running(s)
    ensures Running(ReleaseCalls(s, TrackedIn(s, gens), now))
  {
    hide Known, Bound, Exclusive, Counted, CellsMatch, UnscopedUsed, Cautious, Pending, ReleaseCalls;
    var cs := TrackedIn(s, gens);
    ReleaseKeeps(s, cs, now);
    ReleasePending(s, cs, now, {});
    EndCellsLive(s, cs, now);
    ReleaseOrigins(s, cs, now);
  }

  lemma EndCellsLive(s: State, cs: set<nat>, now: int)
    requires Known(s) && Counted(s) && TrackedLive(s) && Releasable(s, cs)
    ensures TrackedLive(ReleaseCalls(s, cs, now))
  {
    hide Known, Counted, ReleaseCalls, Releasable;
    ReleaseLive(s, cs, now);
  }

  lemma FailSessionRunning(s: State, g: nat, now: int)
    requires Running(s)
    ensures Running(FailSession(s, g, now))
  {
    hide Running, ReleaseCalls, Retire, TrackedIn;
    EndCellsRunning(s, {g}, now);
    RetireRunning(ReleaseCalls(s, TrackedIn(s, {g}), now), {g}, Failure, now);
  }

  lemma FailAllRunning(s: State, memory: bool, now: int)
    requires Running(s)
    ensures Running(FailAll(s, memory, now))
  {
    hide Running, ReleaseCalls, Retire, TrackedIn;
    EndCellsRunning(s, s.entries.Keys, now);
    var t := ReleaseCalls(s, TrackedIn(s, s.entries.Keys), now);
    RetireRunning(t, t.entries.Keys, if memory then Memory else Failure, now);
  }

  lemma ReclaimRunning(s: State, idleOnly: bool, through: nat, now: int)
    requires Running(s)
    ensures Running(Reclaim(s, idleOnly, through, now))
  {
    hide Running, Retire, Oldest;
    var oldest := Oldest(s, idleOnly, through);
    if oldest.Some? {
      RetireRunning(s, {oldest.value}, Memory, now);
    }
  }

  lemma FinishTerminateRunning(s: State, call: nat, confirmed: bool, now: int)
    requires Running(s) && call in s.calls && s.calls[call].phase.Terminating?
    ensures Running(FinishTerminate(s, call, confirmed, now))
  {
    hide Running, ReleaseCalls, FailSession;
    if !confirmed {
      FailSessionRunning(s, s.calls[call].generation, now);
      StaysTerminating(s, call, s.calls[call].generation, now);
    }
    LeaveRunning(if confirmed then s else FailSession(s, s.calls[call].generation, now), call, now);
  }

  lemma StaysTerminating(s: State, call: nat, g: nat, now: int)
    requires call in s.calls && s.calls[call].phase.Terminating?
    ensures call in FailSession(s, g, now).calls && FailSession(s, g, now).calls[call] == s.calls[call]
  {
    hide Rebound, Unbinds, ReleaseEntry, OfGeneration;
  }

  lemma CloseInv(s: State, now: int)
    requires Running(s)
    ensures Inv(Close(s, now))
  {
    hide Base, Pending, Mark, ReleaseEntry, OfGeneration;
    var t := s.(cells := map[], calls := map c | c in s.calls :: if s.calls[c].phase.Tracked? then s.calls[c].(phase := Done) else s.calls[c]);
    RetiredAll(t, t.entries.Keys, Shutdown, now);
    var r := Retire(t, t.entries.Keys, Shutdown, now);
    assert forall g :: g in r.entries ==> !Unretired(r, g);
    CloseCells(t, now);
  }

  lemma CloseCells(t: State, now: int)
    requires t.cells == map[]
    ensures Retire(t, t.entries.Keys, Shutdown, now).cells == map[]
  {
    hide Rebound, Unbinds, ReleaseEntry, OfGeneration;
  }

  lemma StepKeeps(idleMs: nat, s: State, ev: Event)
    requires Inv(s)
    ensures Inv(Step(idleMs, s, ev))
  {
    if !s.closed {
      StepRunning(idleMs, s, ev);
    }
  }

  lemma StepRunning(idleMs: nat, s: State, ev: Event)
    requires Running(s)
    ensures if ev.CloseService? then Inv(Step(idleMs, s, ev)) else Running(Step(idleMs, s, ev))
  {
    hide Base, TrackedLive, Pending, Capture, StartAcquire, FinishAcquire, FinishExec, FinishWait, TakeCells, FinishTerminate,
         FailSession, FailAll, Sweep, Reclaim, Close;
    match ev
    case CaptureGeneration(call, scope, now) =>
      if call !in s.calls {
        CaptureRunning(s, call, scope, now - idleMs, now);
      }
    case Acquire(call, now) =>
      if call in s.calls && s.calls[call].phase.Captured? {
        StartAcquireRunning(s, call, now - idleMs, now);
      }
    case Resume(call, result, now) =>
      if call in s.calls && s.calls[call].phase.Opening? && s.calls[call].generation in s.entries {
        FinishAcquireRunning(s, call, result, now);
      }
    case Touch(call, now) =>
      if call in s.calls && s.calls[call].Holding() && Unretired(s, s.calls[call].generation) {
        RefreshRunning(s, Step(idleMs, s, ev), s.calls[call].generation);
      }
    case ExecEnds(call, outcome, now) =>
      if call in s.calls && s.calls[call].phase.Executing? {
        FinishExecRunning(s, call, outcome, now);
      }
    case WaitEnds(cell, outcome, now) => FinishWaitRunning(s, cell, outcome, now);
    case StopCells(cells) => TakeCellsRunning(s, cells);
    case TerminateEnds(call, confirmed, now) =>
      if call in s.calls && s.calls[call].phase.Terminating? {
        FinishTerminateRunning(s, call, confirmed, now);
      }
    case SessionFails(g, now) => FailSessionRunning(s, g, now);
    case HostStops(memory, now) => FailAllRunning(s, memory, now);
    case SweepIdle(now) => SweepRunning(s, now - idleMs, now);
    case ReclaimOldest(idleOnly, through, now) => ReclaimRunning(s, idleOnly, through, now);
    case CloseService(now) => CloseInv(s, now);
  }

  function Run(idleMs: nat, events: seq<Event>): (s: State)
    ensures Inv(s)
  {
    if events == [] then
      Initial
    else
      var s := Run(idleMs, events[..|events| - 1]);
      StepKeeps(idleMs, s, events[|events| - 1]);
      Step(idleMs, s, events[|events| - 1])
  }
}
