/** Calls that wait for new user notes. The program keeps groups of waiting calls by conversation
    and forgets a group when it wakes it; the simple form says of each call whether it still
    waits. Both agree on who is woken. */
module NotesObservers {

  // ---- the simple form ----

  /** A call waits for notes of one conversation until it is woken or disposed of. */
  datatype Waiter = Waiter(conversation: nat, waiting: bool, woken: bool)

  datatype Event =
    | Watches(conversation: nat)
    | Submits(conversation: nat)
    | Disposes(waiter: nat)

  function SimpleStep(ws: seq<Waiter>, ev: Event): (r: seq<Waiter>)
    ensures |r| == |ws| + (if ev.Watches? then 1 else 0)
  {
    match ev
    case Watches(c) => ws + [Waiter(c, true, false)]
    case Submits(c) =>
      seq(|ws|, i requires 0 <= i < |ws| =>
        if ws[i].conversation == c && ws[i].waiting then Waiter(c, false, true) else ws[i])
    case Disposes(w) => if w < |ws| then ws[w := ws[w].(waiting := false)] else ws
  }

  function SimpleRun(events: seq<Event>): seq<Waiter> {
    if events == [] then [] else SimpleStep(SimpleRun(events[..|events| - 1]), events[|events| - 1])
  }

  // ---- the program's form ----

  /** The group a call joined, which its dispose function keeps even when the group is forgotten. */
  datatype Member = Member(conversation: nat, group: nat)

  datatype State = State(groups: seq<set<nat>>, observers: map<nat, nat>, members: seq<Member>, aborted: set<nat>)

  const Nobody := State([], map[], [], {})

  /** `watchUserNotes` */
  function Watch(s: State, c: nat): State {
    var w := |s.members|;
    if c in s.observers && s.observers[c] < |s.groups| then
      var g := s.observers[c];
      s.(groups := s.groups[g := s.groups[g] + {w}], members := s.members + [Member(c, g)])
    else
      s.(groups := s.groups + [{w}], observers := s.observers[c := |s.groups|], members := s.members + [Member(c, |s.groups|)])
  }

  /** `yieldObservers` */
  function Yield(s: State, c: nat): State {
    if c in s.observers && s.observers[c] < |s.groups|
    then s.(observers := s.observers - {c}, aborted := s.aborted + s.groups[s.observers[c]])
    else s
  }

  /** `dispose`: an empty group is forgotten only while it is still the conversation's own. */
  function Dispose(s: State, w: nat): State {
    if w >= |s.members| || s.members[w].group >= |s.groups| then s
    else
      var c, g := s.members[w].conversation, s.members[w].group;
      var t := s.(groups := s.groups[g := s.groups[g] - {w}]);
      if t.groups[g] == {} && c in s.observers && s.observers[c] == g then t.(observers := t.observers - {c}) else t
  }

  function Step(s: State, ev: Event): State {
    match ev
    case Watches(c) => Watch(s, c)
    case Submits(c) => Yield(s, c)
    case Disposes(w) => Dispose(s, w)
  }

  function Run(events: seq<Event>): State {
    if events == [] then Nobody else Step(Run(events[..|events| - 1]), events[|events| - 1])
  }

  // ---- both agree ----

  predicate Current(s: State, w: nat) {
    && w < |s.members|
    && s.members[w].conversation in s.observers && s.observers[s.members[w].conversation] == s.members[w].group
    && s.members[w].group < |s.groups| && w in s.groups[s.members[w].group]
  }

  predicate Agree(s: State, ws: seq<Waiter>) {
    && |ws| == |s.members|
    && forall w :: 0 <= w < |ws| ==>
         && ws[w].conversation == s.members[w].conversation
         && ws[w].waiting == Current(s, w)
         && ws[w].woken == (w in s.aborted)
  }

  predicate GroupFine(s: State, g: nat) {
    g < |s.groups| ==> forall w: nat :: w in s.groups[g] ==> w < |s.members| && s.members[w].group == g
  }

  predicate ObserverFine(s: State, c: nat) {
    c in s.observers ==>
      s.observers[c] < |s.groups| && s.groups[s.observers[c]] != {} &&
      forall w :: 0 <= w < |s.members| && s.members[w].group == s.observers[c] ==> s.members[w].conversation == c
  }

  /** Groups hold only their own members; a known group is not empty and belongs to its conversation. */
  ghost predicate Grouped(s: State) {
    && (forall w :: 0 <= w < |s.members| ==> s.members[w].group < |s.groups|)
    && (forall g: nat :: GroupFine(s, g))
    && (forall c: nat :: ObserverFine(s, c))
    && (forall w: nat :: w in s.aborted ==> w < |s.members|)
  }

  ghost predicate Inv(s: State, ws: seq<Waiter>) {
    Grouped(s) && Agree(s, ws)
  }

  lemma WatchGrouped(s: State, c: nat)
    requires Grouped(s)
    ensures Grouped(Watch(s, c))
  {
    var r := Watch(s, c);
    forall g: nat ensures GroupFine(r, g) { assert GroupFine(s, g); }
    forall d: nat ensures ObserverFine(r, d) {
      assert ObserverFine(s, d) && ObserverFine(s, c);
      if c in s.observers && d in s.observers && s.observers[c] == s.observers[d] {
        var w :| w in s.groups[s.observers[c]];
        assert GroupFine(s, s.observers[c]);
      }
    }
  }

  lemma YieldGrouped(s: State, c: nat)
    requires Grouped(s)
    ensures Grouped(Yield(s, c))
  {
    var r := Yield(s, c);
    forall g: nat ensures GroupFine(r, g) { assert GroupFine(s, g); }
    forall d: nat ensures ObserverFine(r, d) { assert ObserverFine(s, d); }
    forall w: nat | w in r.aborted ensures w < |r.members| {
      assert ObserverFine(s, c);
      if c in s.observers { assert GroupFine(s, s.observers[c]); }
    }
  }

  lemma DisposeGrouped(s: State, d: nat)
    requires Grouped(s)
    ensures Grouped(Dispose(s, d))
  {
    var r := Dispose(s, d);
    forall g: nat ensures GroupFine(r, g) { assert GroupFine(s, g); }
    forall c: nat ensures ObserverFine(r, c) { assert ObserverFine(s, c); }
  }

  lemma CurrentWatch(s: State, c: nat, w: nat)
    requires Grouped(s) && w < |s.members|
    ensures Current(Watch(s, c), w) == Current(s, w)
  {
    assert ObserverFine(s, c);
    assert s.members[w].group < |s.groups|;
  }

  lemma CurrentNew(s: State, c: nat)
    requires Grouped(s)
    ensures Current(Watch(s, c), |s.members|)
  {
  }

  lemma WatchAgrees(s: State, ws: seq<Waiter>, c: nat)
    requires Inv(s, ws)
    ensures Inv(Watch(s, c), SimpleStep(ws, Watches(c)))
  {
    WatchGrouped(s, c);
    CurrentNew(s, c);
    forall w | 0 <= w < |ws| ensures Current(Watch(s, c), w) == Current(s, w) { CurrentWatch(s, c, w); }
    hide Current, Grouped;
    assert |s.members| !in s.aborted by { NewNotAborted(s); }
  }

  lemma NewNotAborted(s: State)
    requires Grouped(s)
    ensures |s.members| !in s.aborted
  {
  }

  lemma CurrentYield(s: State, c: nat, w: nat)
    requires Grouped(s) && w < |s.members|
    ensures Current(Yield(s, c), w) == (Current(s, w) && s.members[w].conversation != c)
    ensures w in Yield(s, c).aborted <==> w in s.aborted || (Current(s, w) && s.members[w].conversation == c)
  {
    assert ObserverFine(s, c);
    if c in s.observers { assert GroupFine(s, s.observers[c]); }
  }

  lemma YieldAgrees(s: State, ws: seq<Waiter>, c: nat)
    requires Inv(s, ws)
    ensures Inv(Yield(s, c), SimpleStep(ws, Submits(c)))
  {
    YieldGrouped(s, c);
    forall w | 0 <= w < |ws|
      ensures Current(Yield(s, c), w) == (Current(s, w) && s.members[w].conversation != c)
      ensures w in Yield(s, c).aborted <==> w in s.aborted || (Current(s, w) && s.members[w].conversation == c)
    {
      CurrentYield(s, c, w);
    }
    assert Yield(s, c).members == s.members;
    hide Current, Grouped, Yield;
  }

  lemma CurrentDispose(s: State, d: nat, w: nat)
    requires Grouped(s) && w < |s.members| && d < |s.members|
    ensures Current(Dispose(s, d), w) == (Current(s, w) && w != d)
  {
    var g := s.members[w].group;
    assert GroupFine(s, g);
    if Current(s, w) && w != d {
      assert w in Dispose(s, d).groups[g];
    }
  }

  lemma DisposeAgrees(s: State, ws: seq<Waiter>, d: nat)
    requires Inv(s, ws)
    ensures Inv(Dispose(s, d), SimpleStep(ws, Disposes(d)))
  {
    DisposeGrouped(s, d);
    if d < |s.members| {
      forall w | 0 <= w < |ws| ensures Current(Dispose(s, d), w) == (Current(s, w) && w != d) { CurrentDispose(s, d, w); }
    }
    assert Dispose(s, d).members == s.members && Dispose(s, d).aborted == s.aborted;
    hide Current, Grouped;
  }

  lemma {:induction false} RunsAgree(events: seq<Event>)
    ensures Inv(Run(events), SimpleRun(events))
  {
    if events != [] {
      var s, ws := Run(events[..|events| - 1]), SimpleRun(events[..|events| - 1]);
      RunsAgree(events[..|events| - 1]);
      hide Inv, SimpleStep, Watch, Yield, Dispose;
      match events[|events| - 1]
      case Watches(c) => WatchAgrees(s, ws, c);
      case Submits(c) => YieldAgrees(s, ws, c);
      case Disposes(d) => DisposeAgrees(s, ws, d);
    }
  }

  /** In every run exactly those calls are woken that were waiting when a note was submitted to
      their conversation; neither an older note nor the dispose function of an older call can wake
      or drop a newer one. */
  lemma WokenExactly(events: seq<Event>, w: nat)
    ensures w < |SimpleRun(events)| ==> (w in Run(events).aborted <==> SimpleRun(events)[w].woken)
    ensures w in Run(events).aborted ==> w < |SimpleRun(events)|
  {
    RunsAgree(events);
  }
}

/** The observers as the object that notes and tool calls share. */
module NotesObserverObjects {
  import opened NotesObservers

  class Observers {
    var groups: seq<set<nat>>
    var observers: map<nat, nat>
    var members: seq<Member>
    var aborted: set<nat>

    ghost function View(): State
      reads this
    {
      State(groups, observers, members, aborted)
    }

    constructor ()
      ensures View() == Nobody
    {
      groups, observers, members, aborted := [], map[], [], {};
    }

    method WatchUserNotes(c: nat) returns (w: nat)
      modifies this
      ensures View() == Watch(old(View()), c) && w == old(|members|)
    {
      w := |members|;
      var g;
      if c in observers && observers[c] < |groups| {
        g := observers[c];
        groups := groups[g := groups[g] + {w}];
      } else {
        g := |groups|;
        groups := groups + [{w}];
        observers := observers[c := g];
      }
      members := members + [Member(c, g)];
    }

    /** Forgets the group first, then aborts each of its calls. */
    method YieldObservers(c: nat)
      modifies this
      ensures View() == Yield(old(View()), c)
    {
      if c !in observers || observers[c] >= |groups| { return; }
      var group := groups[observers[c]];
      observers := observers - {c};
      var todo := group;
      while todo != {}
        invariant todo <= group && View() == old(View()).(observers := old(observers) - {c}, aborted := old(aborted) + (group - todo))
        decreases |todo|
      {
        var w :| w in todo;
        todo := todo - {w};
        aborted := aborted + {w};
      }
    }

    method DisposeWatch(w: nat)
      requires w < |members| && members[w].group < |groups|
      modifies this
      ensures View() == Dispose(old(View()), w)
    {
      var c, g := members[w].conversation, members[w].group;
      groups := groups[g := groups[g] - {w}];
      if groups[g] == {} && c in observers && observers[c] == g { observers := observers - {c}; }
    }
  }
}
