/** The images kept for the audit: least recently stored first, each with the calls that show it. */
module AuditMediaStates {

  datatype Entry = Entry(id: nat, size: nat, owners: set<nat>)

  datatype State = State(items: seq<Entry>, bytes: int)

  const Empty := State([], 0)

  function Sum(items: seq<Entry>): nat {
    if items == [] then 0 else items[0].size + Sum(items[1..])
  }

  function Find(items: seq<Entry>, id: nat): (i: nat)
    ensures i <= |items|
    ensures i < |items| ==> items[i].id == id
    ensures forall j :: 0 <= j < i ==> items[j].id != id
  {
    if items == [] || items[0].id == id then 0 else 1 + Find(items[1..], id)
  }

  function Without(items: seq<Entry>, i: nat): seq<Entry>
    requires i < |items|
  {
    items[..i] + items[i + 1..]
  }

  /** Drops the oldest items while the bytes are over the budget, but never the last one. */
  function Trim(s: State, budget: nat): State
    decreases |s.items|
  {
    if s.bytes > budget && |s.items| > 1 then Trim(State(s.items[1..], s.bytes - s.items[0].size), budget) else s
  }

  /** `store` for an image of an accepted type. `estimate` is the length that base64 promises. */
  function Store(s: State, id: nat, estimate: nat, size: nat, owner: nat, budget: nat, itemLimit: nat): State {
    if estimate > itemLimit then s
    else
      var i := Find(s.items, id);
      if i < |s.items| then
        var e := s.items[i];
        State(Without(s.items, i) + [e.(owners := e.owners + {owner})], s.bytes)
      else Trim(State(s.items + [Entry(id, size, {owner})], s.bytes + size), budget)
  }

  /** `release`: the owner leaves every item, and items without owners go. */
  function Release(s: State, owner: nat): State
    decreases |s.items|
  {
    if s.items == [] then s
    else
      var e := s.items[0].(owners := s.items[0].owners - {owner});
      var rest := Release(State(s.items[1..], s.bytes), owner);
      if owner in s.items[0].owners && e.owners == {} then State(rest.items, rest.bytes - e.size)
      else State([e] + rest.items, rest.bytes)
  }

  datatype Event =
    | Stores(id: nat, estimate: nat, size: nat, owner: nat)
    | Releases(owner: nat)
    | Clears

  function Step(s: State, ev: Event, budget: nat, itemLimit: nat): State {
    match ev
    case Stores(id, estimate, size, owner) => if size <= estimate then Store(s, id, estimate, size, owner, budget, itemLimit) else s
    case Releases(owner) => Release(s, owner)
    case Clears => Empty
  }

  function Run(s: State, events: seq<Event>, budget: nat, itemLimit: nat): State
    decreases |events|
  {
    if events == [] then s else Run(Step(s, events[0], budget, itemLimit), events[1..], budget, itemLimit)
  }

  // ---- what every reachable state satisfies ----

  predicate Owned(items: seq<Entry>) {
    forall i :: 0 <= i < |items| ==> items[i].owners != {}
  }

  predicate Distinct(items: seq<Entry>) {
    forall i, j :: 0 <= i < j < |items| ==> items[i].id != items[j].id
  }

  predicate Limited(items: seq<Entry>, itemLimit: nat) {
    forall i :: 0 <= i < |items| ==> items[i].size <= itemLimit
  }

  predicate Inv(s: State, budget: nat, itemLimit: nat) {
    && s.bytes == Sum(s.items) && Owned(s.items) && Distinct(s.items) && Limited(s.items, itemLimit)
    && (s.bytes <= budget || |s.items| == 1)
  }

  lemma {:induction false} SumConcat(a: seq<Entry>, b: seq<Entry>)
    ensures Sum(a + b) == Sum(a) + Sum(b)
  {
    if a == [] {
      assert a + b == b;
    } else {
      assert (a + b)[1..] == a[1..] + b;
      SumConcat(a[1..], b);
    }
  }

  lemma SumOne(e: Entry)
    ensures Sum([e]) == e.size
  {
    assert Sum([e][1..]) == 0;
  }

  lemma {:induction false} TrimKeeps(s: State, budget: nat, itemLimit: nat)
    requires s.bytes == Sum(s.items) && Owned(s.items) && Distinct(s.items) && Limited(s.items, itemLimit)
    requires s.items != []
    ensures Inv(Trim(s, budget), budget, itemLimit)
    ensures Trim(s, budget).items != [] && Trim(s, budget).items[|Trim(s, budget).items| - 1] == s.items[|s.items| - 1]
    decreases |s.items|
  {
    if s.bytes > budget && |s.items| > 1 {
      TrimKeeps(State(s.items[1..], s.bytes - s.items[0].size), budget, itemLimit);
    }
  }

  lemma TouchSum(items: seq<Entry>, i: nat, f: Entry)
    requires i < |items| && f.size == items[i].size
    ensures Sum(Without(items, i) + [f]) == Sum(items)
  {
    var e := items[i];
    var a, b := items[..i], items[i + 1..];
    assert items == a + [e] + b;
    hide Sum;
    SumConcat(a, [e]);
    SumConcat(a + [e], b);
    SumConcat(a, b);
    SumConcat(a + b, [f]);
    SumOne(e);
    SumOne(f);
  }

  lemma TouchKeeps(items: seq<Entry>, i: nat, owner: nat, itemLimit: nat)
    requires i < |items| && Owned(items) && Distinct(items) && Limited(items, itemLimit)
    ensures var r := Without(items, i) + [items[i].(owners := items[i].owners + {owner})];
      Owned(r) && Distinct(r) && Limited(r, itemLimit)
  {
    assert owner in items[i].owners + {owner};
  }

  lemma AddKeeps(items: seq<Entry>, e: Entry, itemLimit: nat)
    requires Owned(items) && Distinct(items) && Limited(items, itemLimit)
    requires Find(items, e.id) == |items| && e.size <= itemLimit && e.owners != {}
    ensures Owned(items + [e]) && Distinct(items + [e]) && Limited(items + [e], itemLimit)
    ensures Sum(items + [e]) == Sum(items) + e.size
  {
    SumConcat(items, [e]);
    SumOne(e);
    hide Sum;
  }

  lemma StoreKeeps(s: State, id: nat, estimate: nat, size: nat, owner: nat, budget: nat, itemLimit: nat)
    requires Inv(s, budget, itemLimit) && size <= estimate
    ensures Inv(Store(s, id, estimate, size, owner, budget, itemLimit), budget, itemLimit)
  {
    hide Sum, Trim, Owned, Distinct, Limited;
    if estimate <= itemLimit {
      var i := Find(s.items, id);
      if i < |s.items| {
        TouchSum(s.items, i, s.items[i].(owners := s.items[i].owners + {owner}));
        TouchKeeps(s.items, i, owner, itemLimit);
      } else {
        assert owner in {owner};
        AddKeeps(s.items, Entry(id, size, {owner}), itemLimit);
        TrimKeeps(State(s.items + [Entry(id, size, {owner})], s.bytes + size), budget, itemLimit);
      }
    }
  }

  lemma {:induction false} ReleaseKeeps(s: State, owner: nat)
    requires Owned(s.items) && Distinct(s.items)
    ensures var r := Release(s, owner);
      && s.bytes - r.bytes == Sum(s.items) - Sum(r.items) && r.bytes <= s.bytes
      && Owned(r.items) && Distinct(r.items) && |r.items| <= |s.items|
      && (forall e :: e in r.items ==> owner !in e.owners && Was(s.items, e))
    decreases |s.items|
  {
    if s.items != [] {
      ReleaseKeeps(State(s.items[1..], s.bytes), owner);
      var rest := Release(State(s.items[1..], s.bytes), owner);
      forall e | e in rest.items ensures Was(s.items, e) && e.id != s.items[0].id {
        assert Was(s.items[1..], e);
        var i :| 0 <= i < |s.items[1..]| && s.items[1..][i].id == e.id && s.items[1..][i].size == e.size;
        assert s.items[i + 1] == s.items[1..][i];
      }
      assert s.items[0] in s.items;
    }
  }

  /** The item is what is left of one of these. */
  predicate Was(items: seq<Entry>, e: Entry) {
    exists i :: 0 <= i < |items| && items[i].id == e.id && items[i].size == e.size
  }

  lemma StepKeeps(s: State, ev: Event, budget: nat, itemLimit: nat)
    requires Inv(s, budget, itemLimit)
    ensures Inv(Step(s, ev, budget, itemLimit), budget, itemLimit)
  {
    match ev
    case Stores(id, estimate, size, owner) =>
      hide Inv, Store;
      if size <= estimate { StoreKeeps(s, id, estimate, size, owner, budget, itemLimit); }
    case Releases(owner) =>
      ReleaseKeeps(s, owner);
      hide Sum, Release;
      var r := Release(s, owner);
      forall i | 0 <= i < |r.items| ensures r.items[i].size <= itemLimit {
        assert Was(s.items, r.items[i]);
      }
      if |s.items| == 1 && r.items == [] { NothingStored(); }
    case Clears => NothingStored();
  }

  lemma NothingStored()
    ensures Sum([]) == 0
  {
  }

  lemma {:induction false} RunKeeps(s: State, events: seq<Event>, budget: nat, itemLimit: nat)
    requires Inv(s, budget, itemLimit)
    ensures Inv(Run(s, events, budget, itemLimit), budget, itemLimit)
    decreases |events|
  {
    if events != [] {
      StepKeeps(s, events[0], budget, itemLimit);
      hide Inv, Step;
      RunKeeps(Step(s, events[0], budget, itemLimit), events[1..], budget, itemLimit);
    }
  }

  /** After every run the byte count is that of the stored items and every item has an owner; only
      a single item larger than the budget can exceed it, which an item limit within the budget
      rules out. */
  lemma MediaWithinBudget(events: seq<Event>, budget: nat, itemLimit: nat)
    ensures var s := Run(Empty, events, budget, itemLimit);
      && s.bytes == Sum(s.items)
      && (forall i :: 0 <= i < |s.items| ==> s.items[i].owners != {})
      && (s.bytes <= budget || (|s.items| == 1 && budget < s.items[0].size <= itemLimit))
      && (itemLimit <= budget ==> s.bytes <= budget)
  {
    NothingStored();
    RunKeeps(Empty, events, budget, itemLimit);
    var s := Run(Empty, events, budget, itemLimit);
    hide Run;
    if |s.items| == 1 { assert s.items == [s.items[0]]; SumOne(s.items[0]); }
  }

  /** One image as large as the item limit, stored first, stays whatever the budget is. */
  lemma LargestImageStays(budget: nat, itemLimit: nat)
    ensures Run(Empty, [Stores(0, itemLimit, itemLimit, 0)], budget, itemLimit).bytes == itemLimit
  {
    var ev := Stores(0, itemLimit, itemLimit, 0);
    assert [ev][1..] == [];
    assert Step(Empty, ev, budget, itemLimit) == State([Entry(0, itemLimit, {0})], itemLimit);
  }

  /** The byte count is within the budget after every run exactly when the item limit is. */
  lemma BudgetExact(budget: nat, itemLimit: nat)
    ensures (forall events: seq<Event> :: Run(Empty, events, budget, itemLimit).bytes <= budget) <==> itemLimit <= budget
  {
    forall events: seq<Event> | itemLimit <= budget ensures Run(Empty, events, budget, itemLimit).bytes <= budget {
      MediaWithinBudget(events, budget, itemLimit);
    }
    LargestImageStays(budget, itemLimit);
    hide Run;
  }

  // ---- what a release leaves ----

  /** The images that somebody else shows too, in their order, without the owner. */
  function Shared(items: seq<Entry>, owner: nat): seq<Entry> {
    if items == [] then []
    else
      var rest, last := Shared(items[..|items| - 1], owner), items[|items| - 1];
      if exists o :: o in last.owners && o != owner then rest + [last.(owners := last.owners - {owner})] else rest
  }

  lemma {:induction false} SharedFirst(items: seq<Entry>, owner: nat)
    requires items != []
    ensures Shared(items, owner) ==
      (if exists o :: o in items[0].owners && o != owner then [items[0].(owners := items[0].owners - {owner})] else [])
      + Shared(items[1..], owner)
  {
    var n := |items| - 1;
    if n > 0 {
      assert items[..n][1..] == items[1..][..n - 1];
      SharedFirst(items[..n], owner);
    }
  }

  /** A release leaves exactly the images that somebody else shows, in their order, and gives back the
      bytes of the others. */
  lemma {:induction false} ReleaseExactly(s: State, owner: nat)
    requires Owned(s.items)
    ensures Release(s, owner).items == Shared(s.items, owner)
    ensures s.bytes - Release(s, owner).bytes == Sum(s.items) - Sum(Shared(s.items, owner))
    decreases |s.items|
  {
    if s.items != [] {
      var e := s.items[0].(owners := s.items[0].owners - {owner});
      SharedFirst(s.items, owner);
      ReleaseExactly(State(s.items[1..], s.bytes), owner);
      assert e.owners != {} <==> exists o :: o in s.items[0].owners && o != owner by {
        if o :| o in s.items[0].owners && o != owner { assert o in e.owners; }
        if e.owners != {} { var o :| o in e.owners; assert o in s.items[0].owners && o != owner; }
      }
      assert s.items[0].owners != {};
    }
  }
}

/** The store as an object. */
module AuditMediaObjects {
  import opened AuditMediaStates

  class AuditMedia {
    const budget: nat
    const itemLimit: nat
    var items: seq<Entry>
    var bytes: int

    ghost function View(): State
      reads this
    {
      State(items, bytes)
    }

    constructor (budget: nat, itemLimit: nat)
      ensures View() == Empty && this.budget == budget && this.itemLimit == itemLimit
    {
      this.budget, this.itemLimit, items, bytes := budget, itemLimit, [], 0;
    }

    /** `store`: a known image moves to the end; a new one pushes out the oldest. */
    method Keep(id: nat, estimate: nat, size: nat, owner: nat)
      modifies this
      ensures View() == Store(old(View()), id, estimate, size, owner, budget, itemLimit)
    {
      if estimate > itemLimit { return; }
      var i := Find(items, id);
      if i < |items| {
        var e := items[i];
        items := Without(items, i) + [e.(owners := e.owners + {owner})];
        return;
      }
      items, bytes := items + [Entry(id, size, {owner})], bytes + size;
      ghost var was := View();
      while bytes > budget && |items| > 1
        invariant Trim(View(), budget) == Trim(was, budget)
        decreases |items|
      {
        bytes := bytes - items[0].size;
        items := items[1..];
      }
    }

    /** `release`: one pass over the items. */
    method ReleaseOwner(owner: nat)
      modifies this
      ensures View() == Release(old(View()), owner)
    {
      var kept, freed, i := [], 0, 0;
      assert items[0..] == items;
      while i < |items|
        invariant 0 <= i <= |items| && items == old(items) && bytes == old(bytes)
        invariant var rest := Release(State(items[i..], bytes), owner);
          Release(View(), owner) == State(kept + rest.items, rest.bytes - freed)
      {
        assert items[i..][1..] == items[i + 1..] && items[i..][0] == items[i];
        var e := items[i].(owners := items[i].owners - {owner});
        if owner in items[i].owners && e.owners == {} {
          freed := freed + e.size;
        } else {
          kept := kept + [e];
        }
        i := i + 1;
      }
      items, bytes := kept, bytes - freed;
    }
  }
}
