/** Connections to downstream servers and the requests sent over them. Every event is the code
    between two suspension points; connections are numbered as they are created. */
module DownstreamStates {

  datatype Connection = Connection(server: nat, setup: bool, connected: bool, stale: bool, active: nat, closing: bool)

  datatype Stage = Preparing | Sent(connection: nat) | Over

  /** `sends` counts the requests handed to a transport; `maybe` those for which an arrival at the
      server cannot be ruled out. */
  datatype Call = Call(server: nat, stage: Stage, attempt: nat, sends: nat, maybe: nat)

  datatype State = State(
    connections: seq<Connection>,
    connecting: map<nat, nat>,
    ready: map<nat, nat>,
    calls: seq<Call>,
    closed: bool)

  const Initial := State([], map[], map[], [], false)

  /** How a request ended. `Unsent` is an error that proves the server never saw it. */
  datatype Outcome = Answered | Aborted | Unsent | Failed(discard: bool)

  datatype Event =
    | CallBegins(server: nat)
    | Ensures(server: nat)
    | TransportConnects(connection: nat)
    | SetupSucceeds(connection: nat)
    | SetupFails(connection: nat)
    | SetupRejects(connection: nat)
    | Disconnects(connection: nat)
    | CatalogFails(connection: nat)
    | PrepareFails(call: nat)
    | Prepared(call: nat, connection: nat)
    | Ends(call: nat, outcome: Outcome)
    | Closes
    | CloseFinishes

  function Set(s: State, c: nat, k: Connection): State
    requires c < |s.connections|
  {
    s.(connections := s.connections[c := k])
  }

  /** `closeState`, which runs once. */
  function CloseState(s: State, c: nat): State
    requires c < |s.connections|
  {
    if s.connections[c].closing then s
    else Set(s, c, s.connections[c].(closing := true, stale := true, connected := false))
  }

  /** The connection is no longer the one that its server offers. */
  function Drop(s: State, c: nat): (r: State)
    requires c < |s.connections|
    ensures |r.connections| == |s.connections|
  {
    var k := s.connections[c];
    var t := Set(s, c, k.(stale := true, connected := false));
    if k.server in s.ready && s.ready[k.server] == c
    then t.(ready := t.ready - {k.server}, connecting := t.connecting - {k.server}) else t
  }

  /** `markStale` */
  function MarkStale(s: State, c: nat): State
    requires c < |s.connections|
  {
    if s.connections[c].stale then s
    else if s.connections[c].active == 0 then CloseState(Drop(s, c), c)
    else Drop(s, c)
  }

  /** `ensureServer`: one attempt at a time for each server. */
  function Ensure(s: State, server: nat): State {
    if s.closed || server in s.connecting then s
    else
      s.(connections := s.connections + [Connection(server, true, false, false, 0, false)],
         connecting := s.connecting[server := |s.connections|])
  }

  function FailSetup(s: State, c: nat): State
    requires c < |s.connections|
  {
    var t := MarkStale(s, c);
    if c < |t.connections| then CloseState(t, c) else t
  }

  /** The end of `connectServer`: a close or a disconnect in between makes it fail. */
  function EndSetup(s: State, c: nat): State
    requires c < |s.connections|
  {
    var k := s.connections[c];
    if s.closed || k.stale then FailSetup(s, c)
    else Set(s, c, k.(setup := false)).(ready := s.ready[k.server := c])
  }

  /** The `finally` part of a request. */
  function Leave(s: State, c: nat): State
    requires c < |s.connections|
  {
    var k := s.connections[c];
    if k.active == 0 then s
    else
      var t := Set(s, c, k.(active := k.active - 1));
      if k.stale && k.active == 1 then CloseState(t, c) else t
  }

  function EndCall(s: State, i: nat, outcome: Outcome): State
    requires i < |s.calls| && s.calls[i].stage.Sent? && s.calls[i].stage.connection < |s.connections|
  {
    var call := s.calls[i];
    var c := call.stage.connection;
    var dropped := outcome.Unsent? || (outcome.Failed? && outcome.discard);
    var t := if dropped then MarkStale(s, c) else s;
    var u := if c < |t.connections| then Leave(t, c) else t;
    var maybe := if outcome.Unsent? && call.maybe > 0 then call.maybe - 1 else call.maybe;
    var next := if outcome.Unsent? && call.attempt == 0
      then call.(stage := Preparing, attempt := 1, maybe := maybe)
      else call.(stage := Over, maybe := maybe);
    u.(calls := s.calls[i := next])
  }

  function Send(s: State, i: nat, c: nat): State
    requires i < |s.calls| && c < |s.connections|
  {
    var call := s.calls[i];
    Set(s, c, s.connections[c].(active := s.connections[c].active + 1)).(
      calls := s.calls[i := call.(stage := Sent(c), sends := call.sends + 1, maybe := call.maybe + 1)])
  }

  function ClosedAll(connections: seq<Connection>): (r: seq<Connection>)
    ensures |r| == |connections|
  {
    seq(|connections|, c requires 0 <= c < |connections| => connections[c].(closing := true, stale := true, connected := false))
  }

  /** No setup is left to wait for. */
  predicate Settled(s: State) {
    forall c :: 0 <= c < |s.connections| ==> !s.connections[c].setup || s.connections[c].stale
  }

  function Step(s: State, ev: Event): State {
    match ev
    case CallBegins(server) => if s.closed then s else s.(calls := s.calls + [Call(server, Preparing, 0, 0, 0)])
    case Ensures(server) => Ensure(s, server)
    case TransportConnects(c) =>
      if c < |s.connections| && s.connections[c].setup && !s.connections[c].stale
      then Set(s, c, s.connections[c].(connected := true)) else s
    case SetupSucceeds(c) =>
      if c < |s.connections| && s.connections[c].setup && (s.connections[c].connected || s.connections[c].stale) then EndSetup(s, c) else s
    case SetupFails(c) => if c < |s.connections| && s.connections[c].setup then FailSetup(s, c) else s
    case SetupRejects(c) =>
      if c < |s.connections| && s.connections[c].setup && s.connections[c].closing
         && s.connections[c].server in s.connecting && s.connecting[s.connections[c].server] == c
      then s.(connecting := s.connecting - {s.connections[c].server}) else s
    case Disconnects(c) => if c < |s.connections| && s.connections[c].connected then MarkStale(s, c) else s
    case CatalogFails(c) => if c < |s.connections| then MarkStale(s, c) else s
    case PrepareFails(i) => if i < |s.calls| && s.calls[i].stage.Preparing? then s.(calls := s.calls[i := s.calls[i].(stage := Over)]) else s
    case Prepared(i, c) =>
      if i < |s.calls| && s.calls[i].stage.Preparing? && c < |s.connections| && !s.connections[c].setup
         && s.connections[c].server == s.calls[i].server
      then Send(s, i, c) else s
    case Ends(i, outcome) =>
      if i < |s.calls| && s.calls[i].stage.Sent? && s.calls[i].stage.connection < |s.connections| then EndCall(s, i, outcome) else s
    case Closes => s.(closed := true)
    case CloseFinishes =>
      if s.closed && Settled(s) then s.(connections := ClosedAll(s.connections), connecting := map[], ready := map[]) else s
  }

  function Run(s: State, events: seq<Event>): State
    decreases |events|
  {
    if events == [] then s else Run(Step(s, events[0]), events[1..])
  }
}

/** What holds over every run of connections and requests. */
module DownstreamTheorems {
  import opened DownstreamStates

  /** The connection that is not stale is the one its server's attempt produced. */
  predicate Current(s: State, c: nat) {
    c < |s.connections| && !s.connections[c].stale ==>
      s.connections[c].server in s.connecting && s.connecting[s.connections[c].server] == c
  }

  predicate ConnectionFine(k: Connection) {
    && (k.setup ==> k.active == 0)
    && (k.closing ==> k.stale)
    && (k.connected ==> !k.stale)
  }

  predicate AllCurrent(s: State) {
    forall c :: 0 <= c < |s.connections| ==> Current(s, c) && ConnectionFine(s.connections[c])
  }

  /** A ready connection is the one its attempt produced, and its setup is over. */
  predicate ReadyFine(s: State) {
    forall v :: v in s.ready ==>
      && v in s.connecting && s.ready[v] == s.connecting[v]
      && s.ready[v] < |s.connections| && !s.connections[s.ready[v]].setup
  }

  predicate ConnectingFine(s: State) {
    forall v :: v in s.connecting ==> s.connecting[v] < |s.connections| && s.connections[s.connecting[v]].server == v
  }

  predicate LiveReady(s: State) {
    forall c :: 0 <= c < |s.connections| && !s.connections[c].setup && !s.connections[c].stale ==>
      s.connections[c].server in s.ready && s.ready[s.connections[c].server] == c
  }

  predicate Fine(s: State) {
    AllCurrent(s) && ReadyFine(s) && ConnectingFine(s) && LiveReady(s)
  }

  lemma CloseStateFine(s: State, c: nat)
    requires Fine(s) && c < |s.connections| && s.connections[c].stale
    ensures Fine(CloseState(s, c))
  {
  }

  lemma DropCurrent(s: State, c: nat)
    requires AllCurrent(s) && ReadyFine(s) && ConnectingFine(s) && c < |s.connections| && !s.connections[c].stale
    ensures AllCurrent(Drop(s, c))
  {
    var r := Drop(s, c);
    forall d | 0 <= d < |r.connections| ensures Current(r, d) && ConnectionFine(r.connections[d]) {
      assert Current(s, d) && Current(s, c);
    }
  }

  lemma DropMaps(s: State, c: nat)
    requires ReadyFine(s) && ConnectingFine(s) && c < |s.connections|
    ensures ReadyFine(Drop(s, c)) && ConnectingFine(Drop(s, c))
  {
  }

  lemma DropLive(s: State, c: nat)
    requires LiveReady(s) && c < |s.connections|
    ensures LiveReady(Drop(s, c))
  {
  }

  lemma DropFine(s: State, c: nat)
    requires Fine(s) && c < |s.connections| && !s.connections[c].stale
    ensures Fine(Drop(s, c))
  {
    hide AllCurrent, ReadyFine, ConnectingFine, LiveReady, Drop;
    DropCurrent(s, c);
    DropMaps(s, c);
    DropLive(s, c);
  }

  lemma MarkStaleFine(s: State, c: nat)
    requires Fine(s) && c < |s.connections|
    ensures Fine(MarkStale(s, c)) && c < |MarkStale(s, c).connections| && MarkStale(s, c).connections[c].stale
    ensures MarkStale(s, c).connections[c].active == s.connections[c].active
  {
    if !s.connections[c].stale {
      DropFine(s, c);
      hide Fine;
      CloseStateFine(Drop(s, c), c);
    }
  }

  lemma EnsureFine(s: State, server: nat)
    requires Fine(s)
    ensures Fine(Ensure(s, server))
  {
  }

  lemma FailSetupFine(s: State, c: nat)
    requires Fine(s) && c < |s.connections|
    ensures Fine(FailSetup(s, c))
  {
    MarkStaleFine(s, c);
    hide MarkStale, Fine, CloseState;
    CloseStateFine(MarkStale(s, c), c);
  }

  lemma EndSetupFine(s: State, c: nat)
    requires Fine(s) && c < |s.connections| && s.connections[c].setup
    ensures Fine(EndSetup(s, c))
  {
    if s.closed || s.connections[c].stale { FailSetupFine(s, c); }
  }

  lemma LeaveFine(s: State, c: nat)
    requires Fine(s) && c < |s.connections|
    ensures Fine(Leave(s, c))
  {
    var k := s.connections[c];
    if k.active > 0 {
      var t := Set(s, c, k.(active := k.active - 1));
      assert Fine(t);
      if k.stale { CloseStateFine(t, c); }
    }
  }

  lemma OnlyCalls(s: State, calls: seq<Call>)
    requires Fine(s)
    ensures Fine(s.(calls := calls))
  {
    var t := s.(calls := calls);
    assert forall c :: 0 <= c < |s.connections| ==> (Current(t, c) <==> Current(s, c));
  }

  lemma EndCallFine(s: State, i: nat, outcome: Outcome)
    requires Fine(s) && i < |s.calls| && s.calls[i].stage.Sent? && s.calls[i].stage.connection < |s.connections|
    ensures Fine(EndCall(s, i, outcome))
  {
    hide Fine, MarkStale, Leave;
    var c := s.calls[i].stage.connection;
    var dropped := outcome.Unsent? || (outcome.Failed? && outcome.discard);
    if dropped { MarkStaleFine(s, c); }
    var t := if dropped then MarkStale(s, c) else s;
    LeaveFine(t, c);
    OnlyCalls(Leave(t, c), EndCall(s, i, outcome).calls);
  }

  lemma RejectFine(s: State, c: nat)
    requires Fine(s)
    ensures Fine(Step(s, SetupRejects(c)))
  {
  }

  lemma CloseFinishesFine(s: State)
    requires Fine(s)
    ensures Fine(Step(s, CloseFinishes))
  {
  }

  /** Changing only whether a connection is connected, or how many requests it has. */
  lemma SetFine(s: State, c: nat, k: Connection, calls: seq<Call>)
    requires Fine(s) && c < |s.connections| && ConnectionFine(k)
    requires k == s.connections[c].(connected := k.connected, active := k.active)
    ensures Fine(Set(s, c, k).(calls := calls))
  {
    var t := Set(s, c, k).(calls := calls);
    assert AllCurrent(t) by {
      forall d | 0 <= d < |t.connections| ensures Current(t, d) && ConnectionFine(t.connections[d]) { assert Current(s, d); }
    }
    hide AllCurrent;
  }

  lemma OneConnectionFine(s: State, ev: Event)
    requires Fine(s) && (ev.TransportConnects? || ev.Prepared?)
    ensures Fine(Step(s, ev))
  {
    var c := ev.connection;
    if c < |s.connections| && Step(s, ev) != s {
      assert ConnectionFine(s.connections[c]);
      hide Fine;
      var t := Step(s, ev);
      SetFine(s, c, t.connections[c], t.calls);
    }
  }

  lemma CallEventFine(s: State, ev: Event)
    requires Fine(s) && (ev.Closes? || ev.CallBegins? || ev.PrepareFails?)
    ensures Fine(Step(s, ev))
  {
  }

  lemma StepFine(s: State, ev: Event)
    requires Fine(s)
    ensures Fine(Step(s, ev))
  {
    hide Fine, EndCall, EndSetup, FailSetup, Ensure, MarkStale;
    match ev
    case Ensures(server) => EnsureFine(s, server);
    case SetupSucceeds(c) => if c < |s.connections| && s.connections[c].setup { EndSetupFine(s, c); }
    case SetupFails(c) => if c < |s.connections| { FailSetupFine(s, c); }
    case Disconnects(c) => if c < |s.connections| { MarkStaleFine(s, c); }
    case CatalogFails(c) => if c < |s.connections| { MarkStaleFine(s, c); }
    case Ends(i, outcome) =>
      if i < |s.calls| && s.calls[i].stage.Sent? && s.calls[i].stage.connection < |s.connections| { EndCallFine(s, i, outcome); }
    case SetupRejects(c) => RejectFine(s, c);
    case CloseFinishes => CloseFinishesFine(s);
    case TransportConnects(_) => OneConnectionFine(s, ev);
    case Prepared(_, _) => OneConnectionFine(s, ev);
    case _ => CallEventFine(s, ev);
  }

  // ---- the requests on a connection are counted ----

  function InFlight(calls: seq<Call>, c: nat): nat {
    if calls == [] then 0
    else InFlight(calls[..|calls| - 1], c) + (if calls[|calls| - 1].stage == Sent(c) then 1 else 0)
  }

  predicate Counted(s: State) {
    && (forall c :: 0 <= c < |s.connections| ==> s.connections[c].active == InFlight(s.calls, c))
    && (forall i :: 0 <= i < |s.calls| && s.calls[i].stage.Sent? ==> s.calls[i].stage.connection < |s.connections|)
  }

  lemma {:induction false} InFlightUpdate(calls: seq<Call>, i: nat, call: Call, c: nat)
    requires i < |calls|
    ensures InFlight(calls[i := call], c) + (if calls[i].stage == Sent(c) then 1 else 0)
         == InFlight(calls, c) + (if call.stage == Sent(c) then 1 else 0)
  {
    var n := |calls| - 1;
    if i < n {
      assert calls[i := call][..n] == calls[..n][i := call];
      InFlightUpdate(calls[..n], i, call, c);
    } else {
      assert calls[i := call][..n] == calls[..n];
    }
  }

  lemma {:induction false} NoneInFlight(calls: seq<Call>, c: nat)
    requires forall i :: 0 <= i < |calls| && calls[i].stage.Sent? ==> calls[i].stage.connection < c
    ensures InFlight(calls, c) == 0
  {
    if calls != [] { NoneInFlight(calls[..|calls| - 1], c); }
  }

  /** Closing and going stale keep the number of requests. */
  predicate SameActive(s: State, t: State) {
    && t.calls == s.calls && |t.connections| == |s.connections|
    && forall c :: 0 <= c < |s.connections| ==> t.connections[c].active == s.connections[c].active
  }

  lemma MarkStaleActive(s: State, c: nat)
    requires c < |s.connections|
    ensures SameActive(s, MarkStale(s, c))
  {
  }

  lemma FailSetupActive(s: State, c: nat)
    requires c < |s.connections|
    ensures SameActive(s, FailSetup(s, c))
  {
    MarkStaleActive(s, c);
    hide MarkStale;
  }

  lemma SameActiveCounted(s: State, t: State)
    requires Counted(s) && SameActive(s, t)
    ensures Counted(t)
  {
  }

  lemma LeaveActive(s: State, c: nat)
    requires c < |s.connections|
    ensures var t := Leave(s, c);
      && t.calls == s.calls && |t.connections| == |s.connections|
      && (forall d :: 0 <= d < |s.connections| && d != c ==> t.connections[d].active == s.connections[d].active)
      && t.connections[c].active == (if s.connections[c].active == 0 then 0 else s.connections[c].active - 1)
  {
  }

  lemma EndCallCounted(s: State, i: nat, outcome: Outcome)
    requires Counted(s) && i < |s.calls| && s.calls[i].stage.Sent? && s.calls[i].stage.connection < |s.connections|
    ensures Counted(EndCall(s, i, outcome))
  {
    var c := s.calls[i].stage.connection;
    var dropped := outcome.Unsent? || (outcome.Failed? && outcome.discard);
    var t := if dropped then MarkStale(s, c) else s;
    MarkStaleActive(s, c);
    hide MarkStale, Leave, InFlight;
    LeaveActive(t, c);
    var r := EndCall(s, i, outcome);
    forall d | 0 <= d < |r.connections| ensures r.connections[d].active == InFlight(r.calls, d) {
      InFlightUpdate(s.calls, i, r.calls[i], d);
    }
  }

  lemma SendCounted(s: State, i: nat, c: nat)
    requires Counted(s) && i < |s.calls| && s.calls[i].stage.Preparing? && c < |s.connections|
    ensures Counted(Send(s, i, c))
  {
    hide InFlight;
    var r := Send(s, i, c);
    forall d | 0 <= d < |r.connections| ensures r.connections[d].active == InFlight(r.calls, d) {
      InFlightUpdate(s.calls, i, r.calls[i], d);
    }
  }

  lemma CallsCounted(s: State, ev: Event)
    requires Counted(s) && (ev.CallBegins? || ev.PrepareFails? || ev.Ensures?)
    ensures Counted(Step(s, ev))
  {
    var r := Step(s, ev);
    if ev.PrepareFails? && r != s {
      hide InFlight;
      forall d | 0 <= d < |r.connections| ensures r.connections[d].active == InFlight(r.calls, d) {
        InFlightUpdate(s.calls, ev.call, r.calls[ev.call], d);
      }
    } else if ev.CallBegins? && r != s {
      forall d | 0 <= d < |r.connections| ensures r.connections[d].active == InFlight(r.calls, d) {
        assert r.calls[..|s.calls|] == s.calls;
      }
    } else if ev.Ensures? {
      NoneInFlight(s.calls, |s.connections|);
      hide InFlight;
    }
  }

  lemma StepCounted(s: State, ev: Event)
    requires Counted(s)
    ensures Counted(Step(s, ev))
  {
    hide Counted, EndCall, MarkStale, FailSetup;
    match ev
    case CallBegins(_) => CallsCounted(s, ev);
    case PrepareFails(_) => CallsCounted(s, ev);
    case Ensures(_) => CallsCounted(s, ev);
    case Prepared(i, c) =>
      if i < |s.calls| && c < |s.connections| && s.calls[i].stage.Preparing? { SendCounted(s, i, c); }
    case Ends(i, outcome) =>
      if i < |s.calls| && s.calls[i].stage.Sent? && s.calls[i].stage.connection < |s.connections| { EndCallCounted(s, i, outcome); }
    case SetupSucceeds(c) =>
      if c < |s.connections| { FailSetupActive(s, c); }
      SameActiveCounted(s, Step(s, ev));
    case SetupFails(c) =>
      if c < |s.connections| { FailSetupActive(s, c); }
      SameActiveCounted(s, Step(s, ev));
    case Disconnects(c) =>
      if c < |s.connections| { MarkStaleActive(s, c); }
      SameActiveCounted(s, Step(s, ev));
    case CatalogFails(c) =>
      if c < |s.connections| { MarkStaleActive(s, c); }
      SameActiveCounted(s, Step(s, ev));
    case _ => SameActiveCounted(s, Step(s, ev));
  }

  // ---- at most twice ----

  predicate CallFine(k: Call) {
    && k.attempt <= 1 && k.sends <= 2 && k.maybe <= 1
    && (k.stage.Preparing? ==> k.sends == k.attempt && k.maybe == 0)
    && (k.stage.Sent? ==> k.sends == k.attempt + 1 && k.maybe == 1)
  }

  predicate CallsFine(s: State) {
    forall i :: 0 <= i < |s.calls| ==> CallFine(s.calls[i])
  }

  lemma StepCalls(s: State, ev: Event)
    requires CallsFine(s)
    ensures CallsFine(Step(s, ev))
    ensures |s.calls| <= |Step(s, ev).calls|
  {
    match ev
    case Ends(i, outcome) => hide MarkStale, Leave;
    case SetupSucceeds(c) => hide FailSetup; if c < |s.connections| { FailSetupActive(s, c); }
    case SetupFails(c) => hide FailSetup; if c < |s.connections| { FailSetupActive(s, c); }
    case Disconnects(c) => hide MarkStale; if c < |s.connections| { MarkStaleActive(s, c); }
    case CatalogFails(c) => hide MarkStale; if c < |s.connections| { MarkStaleActive(s, c); }
    case _ =>
  }

  /** A request goes out a second time only when nothing of the call can have reached the server. */
  lemma SecondSendIsSafe(s: State, ev: Event, i: nat)
    requires CallsFine(s) && i < |s.calls| && i < |Step(s, ev).calls|
    requires s.calls[i].sends == 1 && Step(s, ev).calls[i].sends == 2
    ensures s.calls[i].maybe == 0 && s.calls[i].attempt == 1
  {
    assert CallFine(s.calls[i]);
    match ev
    case Ends(j, outcome) => hide MarkStale, Leave;
    case SetupSucceeds(c) => hide FailSetup; if c < |s.connections| { FailSetupActive(s, c); }
    case SetupFails(c) => hide FailSetup; if c < |s.connections| { FailSetupActive(s, c); }
    case Disconnects(c) => hide MarkStale; if c < |s.connections| { MarkStaleActive(s, c); }
    case CatalogFails(c) => hide MarkStale; if c < |s.connections| { MarkStaleActive(s, c); }
    case _ =>
  }

  // ---- runs ----

  predicate Inv(s: State) {
    Fine(s) && Counted(s) && CallsFine(s)
  }

  lemma {:induction false} RunKeeps(s: State, events: seq<Event>)
    requires Inv(s)
    ensures Inv(Run(s, events))
    decreases |events|
  {
    if events != [] {
      hide Fine, Counted, CallsFine, Step;
      StepFine(s, events[0]);
      StepCounted(s, events[0]);
      StepCalls(s, events[0]);
      RunKeeps(Step(s, events[0]), events[1..]);
    }
  }

  /** In every reachable state a server has at most one connection that is not stale, a call was
      sent at most twice, and at most one of its requests may have reached the server. */
  lemma DownstreamPromise(events: seq<Event>, c: nat, d: nat, i: nat)
    ensures var s := Run(Initial, events);
      && ((c < |s.connections| && d < |s.connections| && !s.connections[c].stale && !s.connections[d].stale
           && s.connections[c].server == s.connections[d].server) ==> c == d)
      && (i < |s.calls| ==> s.calls[i].sends <= 2 && s.calls[i].maybe <= 1)
  {
    RunKeeps(Initial, events);
    var s := Run(Initial, events);
    hide Run, Counted;
    if c < |s.connections| { assert Current(s, c); }
    if d < |s.connections| { assert Current(s, d); }
  }

  predicate StartsClosing(s: State, t: State, c: nat) {
    c < |s.connections| && c < |t.connections| && !s.connections[c].closing && t.connections[c].closing
  }

  lemma MarkStaleCloses(s: State, c: nat, d: nat)
    requires c < |s.connections| && StartsClosing(s, MarkStale(s, c), d)
    ensures d == c && MarkStale(s, c).connections[d].active == 0
  {
  }

  lemma FailSetupCloses(s: State, c: nat, d: nat)
    requires Fine(s) && c < |s.connections| && s.connections[c].setup && StartsClosing(s, FailSetup(s, c), d)
    ensures FailSetup(s, c).connections[d].active == 0
  {
    hide Fine;
    FailSetupActive(s, c);
    assert s.connections[c].active == 0 by { SetupIdle(s, c); }
  }

  lemma SetupIdle(s: State, c: nat)
    requires Fine(s) && c < |s.connections| && s.connections[c].setup
    ensures s.connections[c].active == 0
  {
    assert ConnectionFine(s.connections[c]);
  }

  lemma LeaveCloses(s: State, c: nat, d: nat)
    requires c < |s.connections| && StartsClosing(s, Leave(s, c), d)
    ensures d == c && Leave(s, c).connections[d].active == 0
  {
  }

  lemma EndCallCloses(s: State, i: nat, outcome: Outcome, d: nat)
    requires Counted(s) && i < |s.calls| && s.calls[i].stage.Sent? && s.calls[i].stage.connection < |s.connections|
    requires StartsClosing(s, EndCall(s, i, outcome), d)
    ensures EndCall(s, i, outcome).connections[d].active == 0
  {
    var c := s.calls[i].stage.connection;
    var dropped := outcome.Unsent? || (outcome.Failed? && outcome.discard);
    var t := if dropped then MarkStale(s, c) else s;
    MarkStaleActive(s, c);
    LeaveActive(t, c);
    hide MarkStale, Leave, Counted;
    if d < |t.connections| && t.connections[d].closing {
      MarkStaleCloses(s, c, d);
    } else {
      LeaveCloses(t, c, d);
    }
  }

  /** A connection starts to close only when no request is in flight on it, or at shutdown. */
  lemma ClosesWhenIdle(s: State, ev: Event, d: nat)
    requires Inv(s) && StartsClosing(s, Step(s, ev), d) && !ev.CloseFinishes?
    ensures InFlight(Step(s, ev).calls, d) == 0
  {
    StepCounted(s, ev);
    hide Fine, InFlight, MarkStale, FailSetup, EndCall;
    match ev
    case Ends(i, outcome) => EndCallCloses(s, i, outcome, d);
    case SetupSucceeds(c) => if s.closed || s.connections[c].stale { FailSetupCloses(s, c, d); }
    case SetupFails(c) => FailSetupCloses(s, c, d);
    case Disconnects(c) => MarkStaleCloses(s, c, d);
    case CatalogFails(c) => MarkStaleCloses(s, c, d);
    case _ =>
  }
}

/** The registry as an object. */
module DownstreamRegistries {
  import opened DownstreamStates

  class DownstreamMcpRegistry {
    var connections: seq<Connection>
    var connecting: map<nat, nat>
    var ready: map<nat, nat>
    var calls: seq<Call>
    var closed: bool

    ghost function View(): State
      reads this
    {
      State(connections, connecting, ready, calls, closed)
    }

    constructor ()
      ensures View() == Initial
    {
      connections, connecting, ready, calls, closed := [], map[], map[], [], false;
    }

    method CloseConnection(c: nat)
      requires c < |connections|
      modifies this
      ensures View() == CloseState(old(View()), c)
    {
      if connections[c].closing { return; }
      connections := connections[c := connections[c].(closing := true, stale := true, connected := false)];
    }

    method MarkConnectionStale(c: nat)
      requires c < |connections|
      modifies this
      ensures View() == MarkStale(old(View()), c)
      ensures |connections| == old(|connections|) && calls == old(calls)
    {
      var k := connections[c];
      if k.stale { return; }
      connections := connections[c := k.(stale := true, connected := false)];
      if k.server in ready && ready[k.server] == c {
        ready := ready - {k.server};
        connecting := connecting - {k.server};
      }
      if k.active == 0 { CloseConnection(c); }
    }

    /** `ensureServer`: join the attempt under way or start one. */
    method EnsureServer(server: nat) returns (c: nat)
      requires !closed
      modifies this
      ensures View() == Ensure(old(View()), server)
      ensures server in connecting && connecting[server] == c
    {
      if server in connecting { return connecting[server]; }
      c := |connections|;
      connections := connections + [Connection(server, true, false, false, 0, false)];
      connecting := connecting[server := c];
    }

    /** The failure path of `connectServer`. */
    method AbandonSetup(c: nat)
      requires c < |connections|
      modifies this
      ensures View() == FailSetup(old(View()), c)
    {
      MarkConnectionStale(c);
      CloseConnection(c);
    }

    /** The end of `connectServer`. */
    method FinishSetup(c: nat) returns (ok: bool)
      requires c < |connections|
      modifies this
      ensures View() == EndSetup(old(View()), c)
      ensures ok == (!old(closed) && !old(connections)[c].stale)
    {
      if closed || connections[c].stale {
        AbandonSetup(c);
        return false;
      }
      connections := connections[c := connections[c].(setup := false)];
      ready := ready[connections[c].server := c];
      return true;
    }

    /** What follows a request: `catch`, then `finally`. */
    method SettleCall(i: nat, outcome: Outcome) returns (again: bool)
      requires i < |calls| && calls[i].stage.Sent? && calls[i].stage.connection < |connections|
      modifies this
      ensures View() == EndCall(old(View()), i, outcome)
      ensures again == (outcome.Unsent? && old(calls)[i].attempt == 0)
    {
      hide MarkStale;
      var call := calls[i];
      var c := call.stage.connection;
      if outcome.Unsent? || (outcome.Failed? && outcome.discard) { MarkConnectionStale(c); }
      var k := connections[c];
      if k.active > 0 {
        connections := connections[c := k.(active := k.active - 1)];
        if k.stale && k.active == 1 { CloseConnection(c); }
      }
      var maybe := if outcome.Unsent? && call.maybe > 0 then call.maybe - 1 else call.maybe;
      again := outcome.Unsent? && call.attempt == 0;
      calls := calls[i := if again then call.(stage := Preparing, attempt := 1, maybe := maybe) else call.(stage := Over, maybe := maybe)];
    }
  }
}
