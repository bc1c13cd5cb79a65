/** What each event changes: when a connection goes stale, is closed, offered or withdrawn, and how a
    request goes on. */
module DownstreamLaws {
  import opened DownstreamStates
  import opened DownstreamTheorems

  function Count(yes: bool): nat {
    if yes then 1 else 0
  }

  // ---- the connections ----

  predicate SettingUp(s: State, c: nat) {
    c < |s.connections| && s.connections[c].setup
  }

  /** The setup of the connection comes to its end: its transport is connected, or was lost. */
  predicate EndsSetup(s: State, ev: Event, c: nat) {
    ev == SetupSucceeds(c) && SettingUp(s, c) && (s.connections[c].connected || s.connections[c].stale)
  }

  /** And well: nothing was lost or closed in between. */
  predicate Opens(s: State, ev: Event, c: nat) {
    EndsSetup(s, ev, c) && !s.closed && !s.connections[c].stale
  }

  predicate FailsSetup(s: State, ev: Event, c: nat) {
    (ev == SetupFails(c) && SettingUp(s, c)) || (EndsSetup(s, ev, c) && !Opens(s, ev, c))
  }

  /** The event is the end of a request on this connection. */
  predicate EndsOn(s: State, ev: Event, c: nat) {
    ev.Ends? && ev.call < |s.calls| && s.calls[ev.call].stage == Sent(c) && c < |s.connections|
  }

  /** How the request ended shows that the connection is lost. */
  predicate ShowsLoss(ev: Event) {
    ev.Ends? && (ev.outcome.Unsent? || (ev.outcome.Failed? && ev.outcome.discard))
  }

  /** A close waits until no setup is under way. */
  predicate EndsAll(s: State, ev: Event) {
    ev.CloseFinishes? && s.closed && forall c :: 0 <= c < |s.connections| && s.connections[c].setup ==> s.connections[c].stale
  }

  /** The connection is given up: its setup failed, it was lost, or its catalog could not be read. */
  predicate GivesUp(s: State, ev: Event, c: nat)
    requires c < |s.connections|
  {
    || FailsSetup(s, ev, c)
    || (ev == Disconnects(c) && s.connections[c].connected) || ev == CatalogFails(c)
    || (EndsOn(s, ev, c) && ShowsLoss(ev))
  }

  predicate SendsOn(s: State, ev: Event, c: nat) {
    && ev.Prepared? && ev.connection == c && c < |s.connections| && !s.connections[c].setup
    && ev.call < |s.calls| && s.calls[ev.call].stage.Preparing? && s.calls[ev.call].server == s.connections[c].server
  }

  predicate ConnectsNow(s: State, ev: Event, c: nat) {
    ev == TransportConnects(c) && SettingUp(s, c) && !s.connections[c].stale
  }

  /** What one event makes of a connection. */
  predicate Becomes(s: State, ev: Event, c: nat, was: Connection, now: Connection)
    requires c < |s.connections|
  {
    && now.server == was.server
    && now.setup == (was.setup && !Opens(s, ev, c))
    && now.stale == (was.stale || GivesUp(s, ev, c) || EndsAll(s, ev))
    && now.connected == ((was.connected || ConnectsNow(s, ev, c)) && !now.stale)
    && now.active == was.active + Count(SendsOn(s, ev, c)) - Count(EndsOn(s, ev, c))
    && now.closing == (was.closing || FailsSetup(s, ev, c) || EndsAll(s, ev)
                       || (now.active == 0 && now.stale && (!was.stale || EndsOn(s, ev, c))))
  }

  // ---- the functions of the model, seen from the connection ----

  /** Nothing but this connection and the entries of its server may have changed. */
  predicate OnlyOne(s: State, r: State, c: nat)
    requires c < |s.connections|
  {
    && |r.connections| == |s.connections| && r.connections == s.connections[c := r.connections[c]]
    && r.closed == s.closed
  }

  function Given(k: Connection): Connection {
    if k.stale then k else k.(stale := true, connected := false, closing := k.closing || k.active == 0)
  }

  lemma DropIs(s: State, c: nat)
    requires c < |s.connections|
    ensures OnlyOne(s, Drop(s, c), c) && Drop(s, c).connections[c] == s.connections[c].(stale := true, connected := false)
    ensures Drop(s, c).calls == s.calls
  {
  }

  lemma CloseIs(s: State, c: nat)
    requires c < |s.connections|
    ensures var k := s.connections[c];
      && OnlyOne(s, CloseState(s, c), c)
      && CloseState(s, c).connections[c] == (if k.closing then k else k.(closing := true, stale := true, connected := false))
      && CloseState(s, c).calls == s.calls && CloseState(s, c).ready == s.ready && CloseState(s, c).connecting == s.connecting
  {
  }

  lemma MarkStaleIs(s: State, c: nat)
    requires c < |s.connections|
    ensures OnlyOne(s, MarkStale(s, c), c) && MarkStale(s, c).connections[c] == Given(s.connections[c])
    ensures MarkStale(s, c).calls == s.calls
  {
    hide Drop, CloseState;
    DropIs(s, c);
    CloseIs(Drop(s, c), c);
  }

  lemma FailSetupIs(s: State, c: nat)
    requires c < |s.connections| && (s.connections[c].closing ==> s.connections[c].stale)
    requires s.connections[c].stale ==> !s.connections[c].connected
    ensures OnlyOne(s, FailSetup(s, c), c)
    ensures FailSetup(s, c).connections[c] == s.connections[c].(stale := true, connected := false, closing := true)
    ensures FailSetup(s, c).calls == s.calls
  {
    hide MarkStale, CloseState;
    MarkStaleIs(s, c);
    CloseIs(MarkStale(s, c), c);
  }

  lemma LeaveIs(s: State, c: nat)
    requires c < |s.connections| && s.connections[c].active > 0 && (s.connections[c].stale ==> !s.connections[c].connected)
    ensures var k := s.connections[c];
      && OnlyOne(s, Leave(s, c), c)
      && Leave(s, c).connections[c] == k.(active := k.active - 1, closing := k.closing || (k.stale && k.active == 1))
      && Leave(s, c).ready == s.ready && Leave(s, c).connecting == s.connecting && Leave(s, c).calls == s.calls
  {
    hide CloseState;
    CloseIs(Set(s, c, s.connections[c].(active := s.connections[c].active - 1)), c);
  }

  /** A request in flight is counted on its connection. */
  lemma {:induction false} CountsOne(calls: seq<Call>, i: nat, c: nat)
    requires i < |calls| && calls[i].stage == Sent(c)
    ensures InFlight(calls, c) > 0
  {
    if i < |calls| - 1 { CountsOne(calls[..|calls| - 1], i, c); }
  }

  // ---- one kind of event at a time ----

  lemma StaleStep(s: State, ev: Event)
    requires (ev.Disconnects? || ev.CatalogFails?) && ev.connection < |s.connections|
    ensures Step(s, ev) == if ev.CatalogFails? || s.connections[ev.connection].connected then MarkStale(s, ev.connection) else s
  {
    hide MarkStale;
  }

  lemma LossConnection(s: State, ev: Event, c: nat)
    requires (ev.Disconnects? || ev.CatalogFails?) && c < |s.connections| && ConnectionFine(s.connections[c])
    ensures c < |Step(s, ev).connections| && Becomes(s, ev, c, s.connections[c], Step(s, ev).connections[c])
  {
    var d := ev.connection;
    if d < |s.connections| {
      StaleStep(s, ev);
      MarkStaleIs(s, d);
    } else {
      assert Step(s, ev) == s;
    }
    hide Step, MarkStale;
  }

  lemma SetupStep(s: State, ev: Event)
    requires (ev.SetupSucceeds? || ev.SetupFails?)
    ensures var c := ev.connection;
      Step(s, ev) ==
        if FailsSetup(s, ev, c) then FailSetup(s, c)
        else if Opens(s, ev, c) then
          s.(connections := s.connections[c := s.connections[c].(setup := false)], ready := s.ready[s.connections[c].server := c])
        else s
  {
    hide FailSetup;
  }

  lemma SetupConnection(s: State, ev: Event, c: nat)
    requires (ev.SetupSucceeds? || ev.SetupFails?) && c < |s.connections|
    requires forall d :: 0 <= d < |s.connections| ==> ConnectionFine(s.connections[d])
    ensures c < |Step(s, ev).connections| && Becomes(s, ev, c, s.connections[c], Step(s, ev).connections[c])
  {
    SetupStep(s, ev);
    var d := ev.connection;
    hide Step, FailSetup;
    if d < |s.connections| {
      assert ConnectionFine(s.connections[d]);
      FailSetupIs(s, d);
    }
  }

  lemma EndStep(s: State, ev: Event, d: nat)
    requires EndsOn(s, ev, d)
    ensures var t := if ShowsLoss(ev) then MarkStale(s, d) else s;
      |t.connections| == |s.connections| ==> Step(s, ev).connections == Leave(t, d).connections
    ensures !ShowsLoss(ev) ==> Step(s, ev).ready == Leave(s, d).ready && Step(s, ev).connecting == Leave(s, d).connecting
  {
    hide MarkStale, Leave;
  }

  lemma EndConnection(s: State, ev: Event, c: nat)
    requires Counted(s) && ev.Ends? && c < |s.connections|
    requires forall d :: 0 <= d < |s.connections| ==> ConnectionFine(s.connections[d])
    ensures c < |Step(s, ev).connections| && Becomes(s, ev, c, s.connections[c], Step(s, ev).connections[c])
  {
    var i := ev.call;
    if i < |s.calls| && s.calls[i].stage.Sent? && s.calls[i].stage.connection < |s.connections| {
      var d := s.calls[i].stage.connection;
      EndStep(s, ev, d);
      CountsOne(s.calls, i, d);
      assert s.connections[d].active > 0;
      hide Step, MarkStale, Leave, Counted, InFlight;
      MarkStaleIs(s, d);
      assert ConnectionFine(s.connections[d]);
      LeaveIs(if ShowsLoss(ev) then MarkStale(s, d) else s, d);
    } else {
      assert Step(s, ev) == s;
      hide Step;
    }
  }

  lemma SendStep(s: State, ev: Event)
    requires ev.Prepared?
    ensures Step(s, ev) == if SendsOn(s, ev, ev.connection) then Send(s, ev.call, ev.connection) else s
  {
    hide Send;
  }

  lemma ConnectStep(s: State, ev: Event)
    requires ev.TransportConnects?
    ensures var c := ev.connection;
      Step(s, ev) == if ConnectsNow(s, ev, c) then s.(connections := s.connections[c := s.connections[c].(connected := true)]) else s
  {
  }

  lemma SendConnection(s: State, ev: Event, c: nat)
    requires (ev.Prepared? || ev.TransportConnects?) && c < |s.connections| && ConnectionFine(s.connections[c])
    ensures c < |Step(s, ev).connections| && Becomes(s, ev, c, s.connections[c], Step(s, ev).connections[c])
  {
    if ev.Prepared? { SendStep(s, ev); } else { ConnectStep(s, ev); }
    hide Step;
  }

  lemma CloseConnection(s: State, ev: Event, c: nat)
    requires ev.CloseFinishes? && c < |s.connections| && ConnectionFine(s.connections[c])
    ensures c < |Step(s, ev).connections| && Becomes(s, ev, c, s.connections[c], Step(s, ev).connections[c])
  {
    hide EndCall, EndSetup, FailSetup, MarkStale, Ensure, Send;
    assert Settled(s) <==> forall d :: 0 <= d < |s.connections| && s.connections[d].setup ==> s.connections[d].stale;
  }

  lemma OtherConnection(s: State, ev: Event, c: nat)
    requires c < |s.connections| && ConnectionFine(s.connections[c])
    requires ev.CallBegins? || ev.Ensures? || ev.SetupRejects? || ev.PrepareFails? || ev.Closes?
    ensures c < |Step(s, ev).connections| && Becomes(s, ev, c, s.connections[c], Step(s, ev).connections[c])
  {
    assert c < |Step(s, ev).connections| && Step(s, ev).connections[c] == s.connections[c] by {
      hide EndCall, EndSetup, FailSetup, MarkStale, Send;
    }
    hide Step;
  }

  /** A connection goes stale, is closed, and is used by exactly these events. It is closed at once
      when its setup fails, and otherwise when it is stale and its last request has ended. */
  lemma ConnectionExactly(s: State, ev: Event, c: nat)
    requires Inv(s) && c < |s.connections|
    ensures c < |Step(s, ev).connections| && Becomes(s, ev, c, s.connections[c], Step(s, ev).connections[c])
  {
    AllConnectionsFine(s);
    hide Inv, Step, Becomes, ConnectionFine;
    if ev.Ends? {
      EndConnection(s, ev, c);
    } else if ev.SetupSucceeds? || ev.SetupFails? {
      SetupConnection(s, ev, c);
    } else if ev.Disconnects? || ev.CatalogFails? {
      LossConnection(s, ev, c);
    } else if ev.Prepared? || ev.TransportConnects? {
      SendConnection(s, ev, c);
    } else if ev.CloseFinishes? {
      CloseConnection(s, ev, c);
    } else {
      OtherConnection(s, ev, c);
    }
  }

  lemma AllConnectionsFine(s: State)
    requires Inv(s)
    ensures Counted(s) && forall d :: 0 <= d < |s.connections| ==> ConnectionFine(s.connections[d])
  {
    hide Counted, CallsFine, ReadyFine, ConnectingFine, LiveReady;
  }

  // ---- the connection that a server offers ----

  /** An attempt begins: the registry is open and no other one of this server is under way. */
  predicate Begins(s: State, ev: Event, server: nat) {
    ev == Ensures(server) && !s.closed && server !in s.connecting
  }

  /** The ready connection of the server is given up. */
  predicate Withdraws(s: State, ev: Event, server: nat) {
    && server in s.ready && s.ready[server] < |s.connections|
    && !s.connections[s.ready[server]].stale && GivesUp(s, ev, s.ready[server])
  }

  predicate OpensFor(s: State, ev: Event, server: nat) {
    ev.SetupSucceeds? && Opens(s, ev, ev.connection) && s.connections[ev.connection].server == server
  }

  /** The failed attempt that a server still waits for is forgotten. */
  predicate Forgets(s: State, ev: Event, server: nat) {
    && ev.SetupRejects? && SettingUp(s, ev.connection) && s.connections[ev.connection].closing
    && s.connections[ev.connection].server == server && server in s.connecting && s.connecting[server] == ev.connection
  }

  /** What one event makes of the entries of a server. */
  predicate Offers(s: State, ev: Event, server: nat, t: State) {
    && (server in t.ready <==> OpensFor(s, ev, server) || (server in s.ready && !Withdraws(s, ev, server) && !EndsAll(s, ev)))
    && (server in t.ready ==> t.ready[server] == if OpensFor(s, ev, server) then ev.connection else s.ready[server])
    && (server in t.connecting <==>
          Begins(s, ev, server) || (server in s.connecting && !Withdraws(s, ev, server) && !Forgets(s, ev, server) && !EndsAll(s, ev)))
    && (server in t.connecting ==> t.connecting[server] == if Begins(s, ev, server) then |s.connections| else s.connecting[server])
  }

  /** The entries of all servers but this one are as before. */
  predicate SameOffers(s: State, t: State) {
    t.ready == s.ready && t.connecting == s.connecting
  }

  lemma MarkStaleOffers(s: State, c: nat)
    requires c < |s.connections|
    ensures var v := s.connections[c].server;
      if !s.connections[c].stale && v in s.ready && s.ready[v] == c
      then MarkStale(s, c).ready == s.ready - {v} && MarkStale(s, c).connecting == s.connecting - {v}
      else SameOffers(s, MarkStale(s, c))
  {
    CloseIs(Drop(s, c), c);
    hide CloseState;
  }

  lemma FailSetupOffers(s: State, c: nat)
    requires c < |s.connections|
    ensures FailSetup(s, c).ready == MarkStale(s, c).ready && FailSetup(s, c).connecting == MarkStale(s, c).connecting
  {
    MarkStaleIs(s, c);
    CloseIs(MarkStale(s, c), c);
    hide MarkStale, CloseState;
  }

  /** Ready connections are known, belong to their server, and are past their setup. */
  predicate ReadyKnown(s: State) {
    forall v :: v in s.ready ==>
      s.ready[v] < |s.connections| && s.connections[s.ready[v]].server == v && !s.connections[s.ready[v]].setup && v in s.connecting
  }

  lemma InvReady(s: State)
    requires Inv(s)
    ensures ReadyKnown(s)
  {
    hide Counted, CallsFine, AllCurrent, LiveReady;
  }

  lemma LossOffers(s: State, ev: Event, v: nat)
    requires (ev.Disconnects? || ev.CatalogFails?) && ReadyKnown(s)
    ensures Offers(s, ev, v, Step(s, ev))
  {
    var d := ev.connection;
    if d < |s.connections| {
      StaleStep(s, ev);
      MarkStaleOffers(s, d);
    } else {
      assert Step(s, ev) == s;
    }
    hide Step, MarkStale;
  }

  lemma FailedOffers(s: State, c: nat)
    requires c < |s.connections|
    ensures var v := s.connections[c].server;
      if !s.connections[c].stale && v in s.ready && s.ready[v] == c
      then FailSetup(s, c).ready == s.ready - {v} && FailSetup(s, c).connecting == s.connecting - {v}
      else SameOffers(s, FailSetup(s, c))
  {
    hide MarkStale, FailSetup;
    FailSetupOffers(s, c);
    MarkStaleOffers(s, c);
  }

  /** A setup that fails takes no ready connection away: one that is set up is not ready yet. */
  lemma SetupOffers(s: State, ev: Event, v: nat)
    requires (ev.SetupSucceeds? || ev.SetupFails?) && ReadyKnown(s)
    ensures Offers(s, ev, v, Step(s, ev))
  {
    hide Step, FailSetup;
    SetupStep(s, ev);
    var d := ev.connection;
    if FailsSetup(s, ev, d) {
      FailedOffers(s, d);
      assert SameOffers(s, Step(s, ev));
    }
  }

  lemma EndOffers(s: State, ev: Event, v: nat)
    requires ev.Ends? && ReadyKnown(s) && Counted(s)
    requires forall d :: 0 <= d < |s.connections| ==> ConnectionFine(s.connections[d])
    ensures Offers(s, ev, v, Step(s, ev))
  {
    var i := ev.call;
    if i < |s.calls| && s.calls[i].stage.Sent? && s.calls[i].stage.connection < |s.connections| {
      var d := s.calls[i].stage.connection;
      CountsOne(s.calls, i, d);
      EndMaps(s, ev, d);
      MarkStaleOffers(s, d);
      hide Step, MarkStale, Counted, InFlight;
    } else {
      assert Step(s, ev) == s;
      hide Step;
    }
  }

  lemma EndMaps(s: State, ev: Event, d: nat)
    requires EndsOn(s, ev, d) && s.connections[d].active > 0
    requires forall c :: 0 <= c < |s.connections| ==> ConnectionFine(s.connections[c])
    ensures var t := if ShowsLoss(ev) then MarkStale(s, d) else s; SameOffers(t, Step(s, ev))
  {
    var t := if ShowsLoss(ev) then MarkStale(s, d) else s;
    MarkStaleIs(s, d);
    assert ConnectionFine(s.connections[d]);
    hide MarkStale, Leave;
    LeaveIs(t, d);
  }

  lemma BeginOffers(s: State, ev: Event, v: nat)
    requires ev.Ensures? || ev.SetupRejects?
    ensures Offers(s, ev, v, Step(s, ev))
  {
    hide EndCall, EndSetup, FailSetup, MarkStale, Send;
  }

  lemma CloseOffers(s: State, ev: Event, v: nat)
    requires ev.CloseFinishes?
    ensures Offers(s, ev, v, Step(s, ev))
  {
    hide EndCall, EndSetup, FailSetup, MarkStale, Ensure, Send;
    assert Settled(s) <==> forall d :: 0 <= d < |s.connections| && s.connections[d].setup ==> s.connections[d].stale;
  }

  lemma OtherOffers(s: State, ev: Event, v: nat)
    requires ev.CallBegins? || ev.PrepareFails? || ev.Closes? || ev.Prepared? || ev.TransportConnects?
    ensures Offers(s, ev, v, Step(s, ev))
  {
    assert SameOffers(s, Step(s, ev)) by { hide EndCall, EndSetup, FailSetup, MarkStale; }
    hide Step;
  }

  /** A server offers a connection from the end of its setup until it is given up, and has one attempt
      from its beginning until then or until its failure was noted. */
  lemma OffersExactly(s: State, ev: Event, server: nat)
    requires Inv(s)
    ensures Offers(s, ev, server, Step(s, ev))
    ensures |Step(s, ev).connections| == |s.connections| + Count(ev.Ensures? && Begins(s, ev, ev.server))
    ensures ev.Ensures? && Begins(s, ev, ev.server) ==>
      Step(s, ev).connections[|s.connections|] == Connection(ev.server, true, false, false, 0, false)
    ensures Step(s, ev).closed <==> s.closed || ev.Closes?
  {
    AllConnectionsFine(s);
    InvReady(s);
    ConnectionsCount(s, ev);
    hide Inv, Step, Offers, ConnectionFine, ReadyKnown, Counted;
    if ev.Ends? {
      EndOffers(s, ev, server);
    } else if ev.SetupSucceeds? || ev.SetupFails? {
      SetupOffers(s, ev, server);
    } else if ev.Disconnects? || ev.CatalogFails? {
      LossOffers(s, ev, server);
    } else if ev.Ensures? || ev.SetupRejects? {
      BeginOffers(s, ev, server);
    } else if ev.CloseFinishes? {
      CloseOffers(s, ev, server);
    } else {
      OtherOffers(s, ev, server);
    }
  }

  lemma ConnectionsCount(s: State, ev: Event)
    requires Inv(s)
    ensures |Step(s, ev).connections| == |s.connections| + Count(ev.Ensures? && Begins(s, ev, ev.server))
    ensures ev.Ensures? && Begins(s, ev, ev.server) ==>
      Step(s, ev).connections[|s.connections|] == Connection(ev.server, true, false, false, 0, false)
    ensures Step(s, ev).closed <==> s.closed || ev.Closes?
  {
    AllConnectionsFine(s);
    hide Inv;
    if ev.Ends? {
      var i := ev.call;
      if i < |s.calls| && s.calls[i].stage.Sent? && s.calls[i].stage.connection < |s.connections| {
        var d := s.calls[i].stage.connection;
        CountsOne(s.calls, i, d);
        assert ConnectionFine(s.connections[d]);
        MarkStaleIs(s, d);
        hide MarkStale, Leave, Counted, InFlight;
        LeaveIs(if ShowsLoss(ev) then MarkStale(s, d) else s, d);
      }
    } else if ev.SetupSucceeds? || ev.SetupFails? {
      SetupStep(s, ev);
      hide Step, FailSetup, Counted;
      if ev.connection < |s.connections| {
        assert ConnectionFine(s.connections[ev.connection]);
        FailSetupIs(s, ev.connection);
      }
    } else if ev.Disconnects? || ev.CatalogFails? {
      if ev.connection < |s.connections| { StaleStep(s, ev); MarkStaleIs(s, ev.connection); hide Step, MarkStale; }
    } else {
      hide EndCall, EndSetup, FailSetup, MarkStale, Counted;
    }
  }

  // ---- the requests ----

  /** The first request was not sent, so it is prepared once more. */
  predicate TriesAgain(s: State, ev: Event, i: nat) {
    ev.Ends? && ev.call == i && i < |s.calls| && ev.outcome.Unsent? && s.calls[i].attempt == 0
  }

  predicate EndsCall(s: State, ev: Event, i: nat) {
    ev.Ends? && ev.call == i && i < |s.calls| && s.calls[i].stage.Sent? && s.calls[i].stage.connection < |s.connections|
  }

  /** A request is sent when it was prepared and ends when its request does, or when it cannot be
      prepared; only one that was not sent is prepared again, and once. */
  lemma RequestExactly(s: State, ev: Event, i: nat)
    requires Inv(s) && i < |s.calls|
    ensures i < |Step(s, ev).calls|
    ensures var was, now := s.calls[i], Step(s, ev).calls[i];
      if ev.Prepared? && ev.call == i && SendsOn(s, ev, ev.connection) then
        now == was.(stage := Sent(ev.connection), sends := was.sends + 1, maybe := was.maybe + 1)
      else if EndsCall(s, ev, i) then
        && now.maybe == was.maybe - Count(ev.outcome.Unsent?) && now.sends == was.sends && now.server == was.server
        && (if TriesAgain(s, ev, i) then now.stage == Preparing && now.attempt == 1 else now.stage == Over && now.attempt == was.attempt)
      else if ev == PrepareFails(i) && was.stage.Preparing? then now == was.(stage := Over)
      else now == was
  {
    assert CallFine(s.calls[i]);
    SameCalls(s, ev);
    hide Inv, Fine, Counted, MarkStale, Leave, FailSetup, Ensure;
  }

  lemma SameCalls(s: State, ev: Event)
    ensures (ev.SetupSucceeds? || ev.SetupFails? || ev.Disconnects? || ev.CatalogFails?) ==> Step(s, ev).calls == s.calls
    ensures ev.CallBegins? ==> Step(s, ev).calls == if s.closed then s.calls else s.calls + [Call(ev.server, Preparing, 0, 0, 0)]
  {
    if ev.SetupSucceeds? || ev.SetupFails? || ev.Disconnects? || ev.CatalogFails? {
      if ev.connection < |s.connections| { FailSetupActive(s, ev.connection); MarkStaleActive(s, ev.connection); }
    }
    hide MarkStale, FailSetup;
  }
}
