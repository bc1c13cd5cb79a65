/** The weighted admission queue: waiters are numbered as they arrive. */
module AdmissionQueues {

  datatype Waiter = Waiter(ticket: nat, weight: nat)

  /** `granted` and `rejected` record how waiters were settled, in order. */
  datatype State = State(
    budget: nat,
    used: int,
    queue: seq<Waiter>,
    held: seq<Waiter>,
    closed: bool,
    arrivals: nat,
    granted: seq<nat>,
    rejected: seq<nat>)

  function Start(budget: nat): State {
    State(budget, 0, [], [], false, 0, [], [])
  }

  /** `#drain`: admit from the head while it fits. */
  function Drain(s: State): (r: State)
    ensures r.arrivals == s.arrivals && r.rejected == s.rejected && r.closed == s.closed && r.budget == s.budget
    decreases |s.queue|
  {
    if s.closed || s.queue == [] || s.used + s.queue[0].weight > s.budget then s
    else Drain(Admit(s))
  }

  datatype Event =
    | Acquires(weight: nat, aborted: bool)
    | Aborts(ticket: nat)
    | Releases(ticket: nat)
    | Closes

  function Position(q: seq<Waiter>, ticket: nat): (i: nat)
    ensures i <= |q|
    ensures i < |q| ==> q[i].ticket == ticket
    ensures forall j :: 0 <= j < i ==> q[j].ticket != ticket
  {
    if q == [] || q[0].ticket == ticket then 0 else 1 + Position(q[1..], ticket)
  }

  function Tickets(q: seq<Waiter>): (r: seq<nat>)
    ensures |r| == |q|
    ensures forall i :: 0 <= i < |q| ==> r[i] == q[i].ticket
  {
    seq(|q|, i requires 0 <= i < |q| => q[i].ticket)
  }

  /** `acquire`: a weight outside the budget throws before a waiter exists; a closed queue and an
      aborted signal reject at once. */
  function Acquire(s: State, weight: nat, aborted: bool): State {
    if weight == 0 || weight > s.budget then s
    else if s.closed || aborted then s.(arrivals := s.arrivals + 1, rejected := s.rejected + [s.arrivals])
    else Drain(s.(queue := s.queue + [Waiter(s.arrivals, weight)], arrivals := s.arrivals + 1))
  }

  /** The abort of a waiter that still waits; it may let the next one in. */
  function Abort(s: State, ticket: nat): State {
    var i := Position(s.queue, ticket);
    if i == |s.queue| then s
    else Drain(s.(queue := s.queue[..i] + s.queue[i + 1..], rejected := s.rejected + [ticket]))
  }

  /** A holder gives its bytes back; calling the release function again does nothing. */
  function Release(s: State, ticket: nat): State {
    var i := Position(s.held, ticket);
    if i == |s.held| then s
    else Drain(s.(held := s.held[..i] + s.held[i + 1..], used := s.used - s.held[i].weight))
  }

  function Close(s: State): State {
    if s.closed then s else s.(closed := true, queue := [], rejected := s.rejected + Tickets(s.queue))
  }

  function Step(s: State, ev: Event): State {
    match ev
    case Acquires(weight, aborted) => Acquire(s, weight, aborted)
    case Aborts(ticket) => Abort(s, ticket)
    case Releases(ticket) => Release(s, ticket)
    case Closes => Close(s)
  }

  function Run(s: State, events: seq<Event>): State
    decreases |events|
  {
    if events == [] then s else Run(Step(s, events[0]), events[1..])
  }

  // ---- what every reachable state satisfies ----

  function Weight(q: seq<Waiter>): nat {
    if q == [] then 0 else Weight(q[..|q| - 1]) + q[|q| - 1].weight
  }

  predicate Sized(s: State) {
    && s.used == Weight(s.held) && s.used <= s.budget
    && forall i :: 0 <= i < |s.queue| ==> 0 < s.queue[i].weight <= s.budget
  }

  /** Waiters stand and are granted in the order of their arrival. */
  predicate Fifo(s: State) {
    && (forall i :: 0 <= i < |s.queue| ==> s.queue[i].ticket < s.arrivals)
    && (forall i, j :: 0 <= i < j < |s.queue| ==> s.queue[i].ticket < s.queue[j].ticket)
    && (forall i, j :: 0 <= i < j < |s.granted| ==> s.granted[i] < s.granted[j])
    && (forall i, j :: 0 <= i < |s.granted| && 0 <= j < |s.queue| ==> s.granted[i] < s.queue[j].ticket)
    && (forall i :: 0 <= i < |s.granted| ==> s.granted[i] < s.arrivals)
  }

  /** How often a ticket waits, was granted or was rejected: once if it arrived, never if not. */
  ghost predicate SettledOnce(s: State) {
    forall t: nat :: Places(s, t) == if t < s.arrivals then 1 else 0
  }

  function Places(s: State, t: nat): nat {
    multiset(Tickets(s.queue))[t] + multiset(s.granted)[t] + multiset(s.rejected)[t]
  }

  /** Only granted tickets hold bytes, each once. */
  predicate HoldersGranted(s: State) {
    && (forall i :: 0 <= i < |s.held| ==> s.held[i].ticket in s.granted)
    && (forall i, j :: 0 <= i < j < |s.held| ==> s.held[i].ticket != s.held[j].ticket)
  }

  ghost predicate Base(s: State) {
    Sized(s) && Fifo(s) && SettledOnce(s) && HoldersGranted(s) && (s.closed ==> s.queue == [])
  }

  /** The head of an open queue waits only because it does not fit. */
  predicate Drained(s: State) {
    s.closed || s.queue == [] || s.used + s.queue[0].weight > s.budget
  }

  ghost predicate Inv(s: State) {
    Base(s) && Drained(s)
  }

  lemma WeightAppend(q: seq<Waiter>, w: Waiter)
    ensures Weight(q + [w]) == Weight(q) + w.weight
  {
    assert (q + [w])[..|q|] == q;
  }

  lemma {:induction false} WeightRemove(q: seq<Waiter>, i: nat)
    requires i < |q|
    ensures Weight(q[..i] + q[i + 1..]) + q[i].weight == Weight(q)
  {
    var n := |q| - 1;
    if i == n {
      assert q[..i] + q[i + 1..] == q[..n];
    } else {
      assert (q[..i] + q[i + 1..])[..n - 1] == q[..n][..i] + q[..n][i + 1..];
      WeightRemove(q[..n], i);
    }
  }

  function Admit(s: State): State
    requires s.queue != []
  {
    s.(queue := s.queue[1..], held := s.held + [s.queue[0]], used := s.used + s.queue[0].weight,
       granted := s.granted + [s.queue[0].ticket])
  }

  lemma AdmitSized(s: State)
    requires Sized(s) && s.queue != [] && s.used + s.queue[0].weight <= s.budget
    ensures Sized(Admit(s))
  {
    WeightAppend(s.held, s.queue[0]);
    hide Weight;
  }

  lemma AdmitFifo(s: State)
    requires Fifo(s) && HoldersGranted(s) && s.queue != []
    ensures Fifo(Admit(s)) && HoldersGranted(Admit(s))
  {
    var r := Admit(s);
    forall i | 0 <= i < |s.held| ensures s.held[i].ticket != s.queue[0].ticket && s.held[i].ticket in r.granted {
      var g :| 0 <= g < |s.granted| && s.granted[g] == s.held[i].ticket;
      assert r.granted[g] == s.granted[g];
    }
    assert r.granted[|s.granted|] == s.queue[0].ticket;
  }

  lemma AdmitPlaces(s: State)
    requires s.queue != []
    ensures forall t: nat :: Places(Admit(s), t) == Places(s, t)
  {
    assert Tickets(s.queue) == [s.queue[0].ticket] + Tickets(s.queue[1..]);
  }

  lemma AdmitKeeps(s: State)
    requires Base(s) && !s.closed && s.queue != [] && s.used + s.queue[0].weight <= s.budget
    ensures Base(Admit(s))
  {
    hide Sized, Fifo, HoldersGranted, Places;
    AdmitSized(s);
    AdmitFifo(s);
    AdmitPlaces(s);
  }

  lemma {:induction false} DrainKeeps(s: State)
    requires Base(s)
    ensures Inv(Drain(s))
    decreases |s.queue|
  {
    hide Base;
    if !s.closed && s.queue != [] && s.used + s.queue[0].weight <= s.budget {
      AdmitKeeps(s);
      DrainKeeps(Admit(s));
    }
  }

  lemma StepKeeps(s: State, ev: Event)
    requires Inv(s)
    ensures Inv(Step(s, ev))
  {
    hide Inv;
    match ev
    case Acquires(weight, aborted) => AcquireKeeps(s, weight, aborted);
    case Aborts(ticket) => AbortKeeps(s, ticket);
    case Releases(ticket) => ReleaseKeeps(s, ticket);
    case Closes => CloseKeeps(s);
  }

  lemma ArriveKeeps(s: State, r: State, w: Waiter)
    requires Base(s) && !s.closed && w.ticket == s.arrivals && 0 < w.weight <= s.budget
    requires r == s.(queue := s.queue + [w], arrivals := s.arrivals + 1)
    ensures Base(r)
  {
    assert Tickets(r.queue) == Tickets(s.queue) + [w.ticket];
    assert SettledOnce(r) by {
      assert forall t: nat :: Places(r, t) == Places(s, t) + (if t == s.arrivals then 1 else 0);
      hide Places;
    }
    hide Places, SettledOnce, Weight;
  }

  lemma RejectKeeps(s: State, r: State)
    requires Base(s) && r == s.(arrivals := s.arrivals + 1, rejected := s.rejected + [s.arrivals])
    ensures Base(r)
  {
    assert SettledOnce(r) by {
      assert forall t: nat :: Places(r, t) == Places(s, t) + (if t == s.arrivals then 1 else 0);
      hide Places;
    }
    hide Places, SettledOnce, Weight;
  }

  lemma AcquireKeeps(s: State, weight: nat, aborted: bool)
    requires Inv(s)
    ensures Inv(Acquire(s, weight, aborted))
  {
    hide Base;
    if 0 < weight <= s.budget {
      if s.closed || aborted {
        RejectKeeps(s, Acquire(s, weight, aborted));
      } else {
        var w := Waiter(s.arrivals, weight);
        var r := s.(queue := s.queue + [w], arrivals := s.arrivals + 1);
        ArriveKeeps(s, r, w);
        DrainKeeps(r);
      }
    }
  }

  lemma RemoveTicket(q: seq<Waiter>, i: nat, t: nat)
    requires i < |q|
    ensures multiset(Tickets(q[..i] + q[i + 1..]))[t] == multiset(Tickets(q))[t] - (if t == q[i].ticket then 1 else 0)
  {
    assert Tickets(q) == Tickets(q[..i]) + [q[i].ticket] + Tickets(q[i + 1..]);
    assert Tickets(q[..i] + q[i + 1..]) == Tickets(q[..i]) + Tickets(q[i + 1..]);
  }

  lemma LeaveKeeps(s: State, r: State, i: nat)
    requires Base(s) && i < |s.queue|
    requires r == s.(queue := s.queue[..i] + s.queue[i + 1..], rejected := s.rejected + [s.queue[i].ticket])
    ensures Base(r)
  {
    forall t: nat ensures Places(r, t) == Places(s, t) { RemoveTicket(s.queue, i, t); }
    assert SettledOnce(r) by { hide Places; }
    hide Places, SettledOnce, Weight, HoldersGranted;
  }

  lemma AbortKeeps(s: State, ticket: nat)
    requires Inv(s)
    ensures Inv(Abort(s, ticket))
  {
    hide Base;
    var i := Position(s.queue, ticket);
    if i < |s.queue| {
      var r := s.(queue := s.queue[..i] + s.queue[i + 1..], rejected := s.rejected + [ticket]);
      LeaveKeeps(s, r, i);
      DrainKeeps(r);
    }
  }

  lemma GiveBackKeeps(s: State, r: State, i: nat)
    requires Base(s) && i < |s.held|
    requires r == s.(held := s.held[..i] + s.held[i + 1..], used := s.used - s.held[i].weight)
    ensures Base(r)
    ensures Position(r.held, s.held[i].ticket) == |r.held|
  {
    WeightRemove(s.held, i);
    assert SettledOnce(r) by {
      assert forall t: nat :: Places(r, t) == Places(s, t);
      hide Places;
    }
    hide Places, SettledOnce, Weight;
  }

  lemma ReleaseKeeps(s: State, ticket: nat)
    requires Inv(s)
    ensures Inv(Release(s, ticket))
  {
    hide Base;
    var i := Position(s.held, ticket);
    if i < |s.held| {
      var r := s.(held := s.held[..i] + s.held[i + 1..], used := s.used - s.held[i].weight);
      GiveBackKeeps(s, r, i);
      DrainKeeps(r);
    }
  }

  lemma CloseKeeps(s: State)
    requires Inv(s)
    ensures Inv(Close(s))
  {
    if !s.closed {
      var r := Close(s);
      assert multiset(r.rejected) == multiset(s.rejected) + multiset(Tickets(s.queue));
      assert Tickets(r.queue) == [];
      assert SettledOnce(r) by {
        assert forall t: nat :: Places(r, t) == Places(s, t);
        hide Places;
      }
      hide Places, SettledOnce, Weight;
    }
  }

  // ---- the promises ----

  lemma {:induction false} RunKeeps(s: State, events: seq<Event>)
    requires Inv(s)
    ensures Inv(Run(s, events))
    decreases |events|
  {
    if events != [] {
      StepKeeps(s, events[0]);
      hide Inv, Step;
      RunKeeps(Step(s, events[0]), events[1..]);
    }
  }

  lemma StartInv(budget: nat)
    ensures Inv(Start(budget))
  {
    var s := Start(budget);
    assert Tickets(s.queue) == [];
    assert forall t: nat :: Places(s, t) == 0;
  }

  /** After every run: the bytes in use are those of the holders and within the budget; every
      waiter that arrived is in exactly one place, waiting, granted or rejected; and grants came in
      the order of arrival. */
  lemma QueueKeepsPromise(budget: nat, events: seq<Event>, t: nat)
    ensures var s := Run(Start(budget), events);
      && s.used == Weight(s.held) <= s.budget
      && Places(s, t) == (if t < s.arrivals then 1 else 0)
      && forall i, j :: 0 <= i < j < |s.granted| ==> s.granted[i] < s.granted[j]
  {
    StartInv(budget);
    RunKeeps(Start(budget), events);
  }

  /** The queue is never stuck: somebody who can release holds bytes while anybody waits. */
  lemma NeverStuck(budget: nat, events: seq<Event>)
    ensures var s := Run(Start(budget), events);
      s.queue != [] ==> s.held != [] && s.used + s.queue[0].weight > s.budget
  {
    StartInv(budget);
    RunKeeps(Start(budget), events);
  }

  /** Draining adds only waiters to the holders. */
  lemma {:induction false} DrainHolders(s: State, ticket: nat)
    requires forall i :: 0 <= i < |s.queue| ==> s.queue[i].ticket != ticket
    requires forall i :: 0 <= i < |s.held| ==> s.held[i].ticket != ticket
    ensures forall i :: 0 <= i < |Drain(s).held| ==> Drain(s).held[i].ticket != ticket
    decreases |s.queue|
  {
    if !s.closed && s.queue != [] && s.used + s.queue[0].weight <= s.budget { DrainHolders(Admit(s), ticket); }
  }

  /** A second call of one release function changes nothing. */
  lemma ReleaseOnce(s: State, ticket: nat)
    requires Inv(s)
    ensures Release(Release(s, ticket), ticket) == Release(s, ticket)
  {
    var i := Position(s.held, ticket);
    if i < |s.held| {
      var r := s.(held := s.held[..i] + s.held[i + 1..], used := s.used - s.held[i].weight);
      assert forall j :: 0 <= j < |s.queue| ==> s.queue[j].ticket != ticket by {
        var g :| 0 <= g < |s.granted| && s.granted[g] == ticket;
      }
      hide Drain, Base, Sized, Fifo;
      DrainHolders(r, ticket);
      assert Position(Drain(r).held, ticket) == |Drain(r).held|;
    }
  }

  /** When every holder has released its bytes nobody is left waiting. */
  lemma NobodyLeft(budget: nat, events: seq<Event>)
    ensures var s := Run(Start(budget), events); s.held == [] ==> s.queue == []
  {
    NeverStuck(budget, events);
  }

  // ---- what each event changes ----

  /** The waiters without this ticket. */
  function Others(q: seq<Waiter>, ticket: nat): seq<Waiter> {
    if q == [] then []
    else if q[|q| - 1].ticket == ticket then Others(q[..|q| - 1], ticket)
    else Others(q[..|q| - 1], ticket) + [q[|q| - 1]]
  }

  predicate Waits(q: seq<Waiter>, ticket: nat) {
    exists i :: 0 <= i < |q| && q[i].ticket == ticket
  }

  /** The first `k` of these waiters were let in, and the rest waits. */
  predicate LetIn(s: State, r: State, waiting: seq<Waiter>, held: seq<Waiter>, k: nat) {
    && k <= |waiting| && r.queue == waiting[k..] && r.held == held + waiting[..k]
    && r.granted == s.granted + Tickets(waiting[..k])
  }

  /** One waiter in front of those let in. */
  lemma OneMoreIn(s: State, t: State, r: State, j: nat)
    requires s.queue != [] && t.queue == s.queue[1..] && t.held == s.held + [s.queue[0]]
    requires t.granted == s.granted + [s.queue[0].ticket] && LetIn(t, r, t.queue, t.held, j)
    ensures LetIn(s, r, s.queue, s.held, j + 1)
  {
    var k := j + 1;
    assert s.queue[..k] == [s.queue[0]] + t.queue[..j] && t.queue[j..] == s.queue[k..];
    assert Tickets(s.queue[..k]) == [s.queue[0].ticket] + Tickets(t.queue[..j]);
    assert t.held + t.queue[..j] == s.held + s.queue[..k];
    assert t.granted + Tickets(t.queue[..j]) == s.granted + Tickets(s.queue[..k]);
  }

  lemma {:induction false} DrainLetsIn(s: State) returns (k: nat)
    ensures LetIn(s, Drain(s), s.queue, s.held, k)
    decreases |s.queue|
  {
    if s.closed || s.queue == [] || s.used + s.queue[0].weight > s.budget {
      k := 0;
      NobodyIn(s, s);
    } else {
      hide LetIn;
      var j := DrainLetsIn(Admit(s));
      k := j + 1;
      OneMoreIn(s, Admit(s), Drain(s), j);
    }
  }

  lemma {:induction false} OthersIs(q: seq<Waiter>, i: nat)
    requires i < |q| && forall j :: 0 <= j < |q| && j != i ==> q[j].ticket != q[i].ticket
    ensures Others(q, q[i].ticket) == q[..i] + q[i + 1..]
  {
    var n := |q| - 1;
    if i < n {
      assert q[..n][i] == q[i];
      OthersIs(q[..n], i);
      assert q[..n][..i] + q[..n][i + 1..] + [q[n]] == q[..i] + q[i + 1..];
    } else {
      OthersAll(q[..n], q[i].ticket);
      assert q[..i] + q[i + 1..] == q[..n];
    }
  }

  lemma {:induction false} OthersAll(q: seq<Waiter>, ticket: nat)
    requires forall j :: 0 <= j < |q| ==> q[j].ticket != ticket
    ensures Others(q, ticket) == q
  {
    if q != [] {
      OthersAll(q[..|q| - 1], ticket);
      assert q[..|q| - 1] + [q[|q| - 1]] == q;
    }
  }

  predicate Valid(s: State, ev: Event) {
    ev.Acquires? && 0 < ev.weight <= s.budget
  }

  /** Those who wait before anybody is let in. */
  function Waiting(s: State, ev: Event): seq<Waiter> {
    match ev
    case Acquires(weight, aborted) => if Valid(s, ev) && !s.closed && !aborted then s.queue + [Waiter(s.arrivals, weight)] else s.queue
    case Aborts(ticket) => Others(s.queue, ticket)
    case Closes => []
    case _ => s.queue
  }

  /** Those who hold bytes before anybody is let in. */
  function Holding(s: State, ev: Event): seq<Waiter> {
    if ev.Releases? then Others(s.held, ev.ticket) else s.held
  }

  /** The tickets that the event rejects. */
  function Rejects(s: State, ev: Event): seq<nat> {
    match ev
    case Acquires(_, aborted) => if Valid(s, ev) && (s.closed || aborted) then [s.arrivals] else []
    case Aborts(ticket) => if Waits(s.queue, ticket) then [ticket] else []
    case Closes => Tickets(s.queue)
    case _ => []
  }

  lemma NobodyIn(s: State, r: State)
    requires r.granted == s.granted
    ensures LetIn(s, r, r.queue, r.held, 0)
  {
    assert r.queue[0..] == r.queue && r.held + r.queue[..0] == r.held && s.granted + Tickets(r.queue[..0]) == s.granted;
  }

  lemma DrainedIn(s: State, t: State) returns (k: nat)
    requires t.granted == s.granted
    ensures LetIn(s, Drain(t), t.queue, t.held, k)
  {
    k := DrainLetsIn(t);
    hide Drain;
  }

  /** What each event changes, but for who is let in. */
  predicate Told(s: State, r: State, ev: Event) {
    && r.rejected == s.rejected + Rejects(s, ev)
    && r.arrivals == s.arrivals + (if Valid(s, ev) then 1 else 0)
    && (r.closed <==> s.closed || ev.Closes?) && r.budget == s.budget
  }

  lemma AcquireExactly(s: State, ev: Event) returns (k: nat)
    requires ev.Acquires?
    ensures LetIn(s, Step(s, ev), Waiting(s, ev), Holding(s, ev), k) && Told(s, Step(s, ev), ev)
  {
    hide Drain, LetIn;
    assert s.rejected + [] == s.rejected;
    if Valid(s, ev) && !s.closed && !ev.aborted {
      k := DrainedIn(s, s.(queue := s.queue + [Waiter(s.arrivals, ev.weight)], arrivals := s.arrivals + 1));
    } else {
      k := 0;
      NobodyIn(s, Step(s, ev));
    }
  }

  lemma AbortExactly(s: State, ev: Event) returns (k: nat)
    requires ev.Aborts? && forall i, j :: 0 <= i < j < |s.queue| ==> s.queue[i].ticket != s.queue[j].ticket
    ensures LetIn(s, Step(s, ev), Waiting(s, ev), Holding(s, ev), k) && Told(s, Step(s, ev), ev)
  {
    hide Drain, LetIn, Others;
    assert s.rejected + [] == s.rejected;
    var i := Position(s.queue, ev.ticket);
    if i < |s.queue| {
      OthersIs(s.queue, i);
      k := DrainedIn(s, s.(queue := s.queue[..i] + s.queue[i + 1..], rejected := s.rejected + [ev.ticket]));
    } else {
      k := 0;
      OthersAll(s.queue, ev.ticket);
      NobodyIn(s, s);
    }
  }

  lemma ReleaseExactly(s: State, ev: Event) returns (k: nat)
    requires ev.Releases? && forall i, j :: 0 <= i < j < |s.held| ==> s.held[i].ticket != s.held[j].ticket
    ensures LetIn(s, Step(s, ev), Waiting(s, ev), Holding(s, ev), k) && Told(s, Step(s, ev), ev)
  {
    hide Drain, LetIn, Others, Waits;
    assert s.rejected + [] == s.rejected;
    var i := Position(s.held, ev.ticket);
    if i < |s.held| {
      OthersIs(s.held, i);
      k := DrainedIn(s, s.(held := s.held[..i] + s.held[i + 1..], used := s.used - s.held[i].weight));
    } else {
      k := 0;
      OthersAll(s.held, ev.ticket);
      NobodyIn(s, s);
    }
  }

  lemma CloseExactly(s: State, ev: Event) returns (k: nat)
    requires ev.Closes? && (s.closed ==> s.queue == [])
    ensures LetIn(s, Step(s, ev), Waiting(s, ev), Holding(s, ev), k) && Told(s, Step(s, ev), ev)
  {
    hide LetIn;
    assert s.closed ==> Tickets(s.queue) == [];
    assert s.rejected + [] == s.rejected;
    k := 0;
    NobodyIn(s, Step(s, ev));
  }

  /** Each event changes who waits, who holds and who is rejected in just its own way, and then the
      waiters at the front are let in. */
  lemma StepExactly(s: State, ev: Event) returns (k: nat)
    requires Inv(s)
    ensures LetIn(s, Step(s, ev), Waiting(s, ev), Holding(s, ev), k) && Told(s, Step(s, ev), ev)
  {
    hide Step, LetIn, Told, Waiting, Holding, Weight, SettledOnce;
    match ev
    case Acquires(_, _) => k := AcquireExactly(s, ev);
    case Aborts(_) => k := AbortExactly(s, ev);
    case Releases(_) => k := ReleaseExactly(s, ev);
    case Closes => k := CloseExactly(s, ev);
  }
}

/** The queue as the object that sessions share. */
module AdmissionQueueObjects {
  import opened AdmissionQueues

  /** `held`, `granted` and `rejected` stand for the promises and release functions handed out. */
  class WeightedAdmissionQueue {
    const budgetBytes: nat
    var usedBytes: int
    var queued: seq<Waiter>
    var closed: bool
    var held: seq<Waiter>
    var arrivals: nat
    var granted: seq<nat>
    var rejected: seq<nat>

    ghost function View(): State
      reads this
    {
      State(budgetBytes, usedBytes, queued, held, closed, arrivals, granted, rejected)
    }

    constructor (budget: nat)
      ensures View() == Start(budget)
    {
      budgetBytes := budget;
      usedBytes, queued, closed := 0, [], false;
      held, arrivals, granted, rejected := [], 0, [], [];
    }

    method DrainLoop()
      modifies this
      ensures View() == Drain(old(View()))
    {
      ghost var was := View();
      while !closed && queued != []
        invariant Drain(View()) == Drain(was)
        decreases |queued|
      {
        var waiter := queued[0];
        if usedBytes + waiter.weight > budgetBytes { break; }
        ghost var before := View();
        queued := queued[1..];
        usedBytes := usedBytes + waiter.weight;
        held, granted := held + [waiter], granted + [waiter.ticket];
        assert View() == Admit(before);
      }
    }

    method Acquire(weight: nat, aborted: bool)
      modifies this
      ensures View() == AdmissionQueues.Acquire(old(View()), weight, aborted)
    {
      if weight == 0 || weight > budgetBytes { return; }
      var ticket := arrivals;
      arrivals := arrivals + 1;
      if closed || aborted {
        rejected := rejected + [ticket];
        return;
      }
      queued := queued + [Waiter(ticket, weight)];
      DrainLoop();
    }

    method OnAbort(ticket: nat)
      modifies this
      ensures View() == Abort(old(View()), ticket)
    {
      var i := Position(queued, ticket);
      if i == |queued| { return; }
      queued := queued[..i] + queued[i + 1..];
      rejected := rejected + [ticket];
      DrainLoop();
    }

    method OnRelease(ticket: nat)
      modifies this
      ensures View() == Release(old(View()), ticket)
    {
      var i := Position(held, ticket);
      if i == |held| { return; }
      usedBytes := usedBytes - held[i].weight;
      held := held[..i] + held[i + 1..];
      DrainLoop();
    }

    /** Rejects everybody who waits, in order. */
    method Close()
      modifies this
      ensures View() == AdmissionQueues.Close(old(View()))
    {
      if closed { return; }
      closed := true;
      var waiting, i := queued, 0;
      queued := [];
      ghost var before := rejected;
      while i < |waiting|
        invariant 0 <= i <= |waiting| && View() == old(View()).(closed := true, queue := [], rejected := before + Tickets(waiting[..i]))
      {
        assert Tickets(waiting[..i + 1]) == Tickets(waiting[..i]) + [waiting[i].ticket];
        rejected := rejected + [waiting[i].ticket];
        i := i + 1;
      }
      assert waiting[..i] == waiting;
    }
  }
}
