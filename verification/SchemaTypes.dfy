/** Display types of JSON schemas: rendering follows local references, which may be cyclic, within
    a count of expansions and a byte allowance. */
module SchemaTypes {

  datatype Option<+T> = None | Some(value: T)

  /** The UTF-8 bytes of a text. */
  type Text = seq<char>

  const UNKNOWN: Text := "unknown"

  /** `Leaf` needs no further schema. `Joined` stands for every construct that renders parts: what
      it makes of their texts is its own affair, and before each of its first `checked` parts it
      gives up when nothing is left of the allowance. `Types` is a list of type names, each shown
      without being charged by itself. `own` says that the schema carries an `$id`. */
  datatype Schema =
    | Leaf(text: Text)
    | Joined(own: bool, parts: seq<Schema>, checked: nat, join: seq<Text> -> Text)
    | Types(own: bool, parts: seq<Schema>, join: seq<Text> -> Text)
    | Ref(own: bool, name: nat, siblings: Schema)

  const MAX_REFS: nat := 32
  const MAX_BYTES: nat := 64_000
  const MAX_RESULT: nat := 16_000

  datatype State = State(refs: nat, bytes: int, active: map<nat, nat>)

  const Start := State(MAX_REFS, MAX_BYTES, map[])

  /** What a reference points to; none stands for a fragment that cannot be decoded. */
  type Root = nat -> Option<Schema>

  function Active(st: State, name: nat): nat {
    if name in st.active then st.active[name] else 0
  }

  /** A reference is followed outside nested resources, at most twice inside itself, while
      expansions are left. */
  predicate Follows(root: Root, name: nat, nested: bool, st: State) {
    !nested && Active(st, name) < 2 && st.refs > 0 && root(name).Some?
  }

  /** The state in which the target of a followed reference is rendered. */
  function Entered(st: State, name: nat): State
    requires st.refs > 0
  {
    st.(refs := st.refs - 1, active := st.active[name := Active(st, name) + 1])
  }

  function Combine(referenced: Text, sibling: Text): Text {
    if sibling == UNKNOWN then referenced
    else if referenced == UNKNOWN then sibling
    else "(" + referenced + ") & (" + sibling + ")"
  }

  /** What holds between the state before and after rendering anything. */
  ghost predicate Spent(a: State, b: State) {
    b.refs <= a.refs && b.bytes <= a.bytes && forall n: nat :: Active(a, n) == Active(b, n)
  }

  /** `render`: what does not fit into the allowance is shown as unknown. */
  function Render(root: Root, s: Schema, nested: bool, st: State): (r: (Text, State))
    ensures Spent(st, r.1)
    decreases st.refs, s, 2, 0
  {
    if st.bytes <= 0 then (UNKNOWN, st)
    else
      var (out, t) := RenderValue(root, s, nested, st);
      var u := t.(bytes := t.bytes - |out|);
      (if u.bytes < 0 then UNKNOWN else out, u)
  }

  /** `renderValue`; the root is never a nested resource. */
  function RenderValue(root: Root, s: Schema, nested: bool, st: State): (r: (Text, State))
    ensures Spent(st, r.1)
    decreases st.refs, s, 1, 0
  {
    match s
    case Leaf(text) => (text, st)
    case Joined(own, parts, _, join) =>
      var (texts, t) := RenderParts(root, s, |parts|, nested || own, st);
      (if texts.None? then UNKNOWN else join(texts.value), t)
    case Types(own, parts, join) =>
      var (texts, t) := RenderTypes(root, s, |parts|, nested || own, st);
      (join(texts), t)
    case Ref(own, _, siblings) =>
      var inner := nested || own;
      var (referenced, t) := Expand(root, s, inner, st);
      var (sibling, u) := Render(root, siblings, inner, t);
      (Combine(referenced, sibling), u)
  }

  /** One expansion: the reference counts as active while its target is rendered. */
  function Expand(root: Root, s: Schema, nested: bool, st: State): (r: (Text, State))
    requires s.Ref?
    ensures Spent(st, r.1)
    decreases st.refs, s, 0, 0
  {
    var name := s.name;
    if !Follows(root, name, nested, st) then (UNKNOWN, st)
    else
      var (out, t) := Render(root, root(name).value, false, Entered(st, name));
      var u := t.(active := t.active[name := Active(st, name)]);
      assert forall n: nat :: Active(u, n) == if n == name then Active(st, name) else Active(t, n);
      (out, u)
  }

  /** The texts of the first `n` parts in order, or none when the construct gave up. */
  function RenderParts(root: Root, s: Schema, n: nat, nested: bool, st: State): (r: (Option<seq<Text>>, State))
    requires s.Joined? && n <= |s.parts|
    ensures Spent(st, r.1)
    decreases st.refs, s, 0, n
  {
    if n == 0 then (Some([]), st)
    else
      var (before, t) := RenderParts(root, s, n - 1, nested, st);
      if before.None? || (n <= s.checked && t.bytes <= 0) then (None, t)
      else
        var (out, u) := Render(root, s.parts[n - 1], nested, t);
        (Some(before.value + [out]), u)
  }

  function RenderTypes(root: Root, s: Schema, n: nat, nested: bool, st: State): (r: (seq<Text>, State))
    requires s.Types? && n <= |s.parts|
    ensures Spent(st, r.1)
    decreases st.refs, s, 0, n
  {
    if n == 0 then ([], st)
    else
      var (before, t) := RenderTypes(root, s, n - 1, nested, st);
      var (out, u) := RenderValue(root, s.parts[n - 1], nested, t);
      (before + [out], u)
  }

  /** `schemaType` */
  function SchemaType(root: Root, s: Schema): Text {
    var out := Render(root, s, false, Start).0;
    if |out| > MAX_RESULT then UNKNOWN else out
  }

  // ---- how many references are followed ----

  /** The references followed while a schema is rendered: this one's own, if it is followed, and
      those in whatever is rendered on the way. */
  function Followed(root: Root, s: Schema, nested: bool, st: State): (n: nat)
    ensures n == st.refs - Render(root, s, nested, st).1.refs
    decreases st.refs, s, 2, 0
  {
    if st.bytes <= 0 then 0 else FollowedIn(root, s, nested, st)
  }

  function FollowedIn(root: Root, s: Schema, nested: bool, st: State): (n: nat)
    ensures n == st.refs - RenderValue(root, s, nested, st).1.refs
    decreases st.refs, s, 1, 0
  {
    match s
    case Leaf(_) => 0
    case Joined(own, parts, _, _) => FollowedInParts(root, s, |parts|, nested || own, st)
    case Types(own, parts, _) => FollowedInTypes(root, s, |parts|, nested || own, st)
    case Ref(own, name, siblings) =>
      var inner := nested || own;
      var t := Expand(root, s, inner, st).1;
      (if Follows(root, name, inner, st) then 1 + Followed(root, root(name).value, false, Entered(st, name)) else 0)
      + Followed(root, siblings, inner, t)
  }

  function FollowedInParts(root: Root, s: Schema, n: nat, nested: bool, st: State): (k: nat)
    requires s.Joined? && n <= |s.parts|
    ensures k == st.refs - RenderParts(root, s, n, nested, st).1.refs
    decreases st.refs, s, 0, n
  {
    if n == 0 then 0
    else
      var before := FollowedInParts(root, s, n - 1, nested, st);
      var (texts, t) := RenderParts(root, s, n - 1, nested, st);
      if texts.None? || (n <= s.checked && t.bytes <= 0) then before
      else before + Followed(root, s.parts[n - 1], nested, t)
  }

  function FollowedInTypes(root: Root, s: Schema, n: nat, nested: bool, st: State): (k: nat)
    requires s.Types? && n <= |s.parts|
    ensures k == st.refs - RenderTypes(root, s, n, nested, st).1.refs
    decreases st.refs, s, 0, n
  {
    if n == 0 then 0
    else
      FollowedInTypes(root, s, n - 1, nested, st)
      + FollowedIn(root, s.parts[n - 1], nested, RenderTypes(root, s, n - 1, nested, st).1)
  }

  /** Rendering any schema, cyclic or not, follows at most 32 references. That the result has
      at most 16,000 bytes is by definition. */
  lemma SchemaTypeBounded(root: Root, s: Schema)
    ensures Followed(root, s, false, Start) <= MAX_REFS
    ensures |SchemaType(root, s)| <= MAX_RESULT
  {
    hide Render, Followed;
  }

  /** Rendering gives back every nesting count it took, so a reference is never counted as active
      outside its own expansion. */
  lemma NothingStaysActive(root: Root, s: Schema, name: nat)
    ensures Active(Render(root, s, false, Start).1, name) == 0
  {
    hide Render;
  }

  /** A shown text was paid for in full; what could not be paid is shown as unknown. */
  lemma PartsFit(root: Root, s: Schema, nested: bool, st: State)
    ensures var (out, t) := Render(root, s, nested, st);
      out != UNKNOWN ==> t.bytes >= 0 && |out| <= st.bytes - t.bytes
  {
    hide RenderValue;
  }

  // ---- what the text means ----

  /** How often a reference is being expanded already. */
  type Open = map<nat, nat>

  function Times(open: Open, name: nat): nat {
    if name in open then open[name] else 0
  }

  /** A schema shown without any limit but that on nesting: a reference is shown as its target unless it
      stands in a nested resource, cannot be resolved, or is being expanded twice already. `depth` only
      bounds the recursion. */
  function Ideal(root: Root, s: Schema, nested: bool, open: Open, depth: nat): Text
    decreases depth, s, 1, 0
  {
    match s
    case Leaf(text) => text
    case Joined(own, parts, _, join) => join(IdealParts(root, s, |parts|, nested || own, open, depth))
    case Types(own, parts, join) => join(IdealParts(root, s, |parts|, nested || own, open, depth))
    case Ref(own, name, siblings) =>
      var target := IdealTarget(root, s, nested || own, open, depth);
      var rest := Ideal(root, siblings, nested || own, open, depth);
      if target != "unknown" && rest != "unknown" then "(" + target + ") & (" + rest + ")"
      else if target == "unknown" then rest else target
  }

  /** The target of a reference. */
  function IdealTarget(root: Root, s: Schema, nested: bool, open: Open, depth: nat): Text
    requires s.Ref?
    decreases depth, s, 0, 0
  {
    var name := s.name;
    if nested || root(name).None? || Times(open, name) > 1 || depth == 0 then "unknown"
    else Ideal(root, root(name).value, false, open[name := Times(open, name) + 1], depth - 1)
  }

  function IdealParts(root: Root, s: Schema, n: nat, nested: bool, open: Open, depth: nat): seq<Text>
    requires (s.Joined? || s.Types?) && n <= |s.parts|
    decreases depth, s, 0, n
  {
    if n == 0 then []
    else IdealParts(root, s, n - 1, nested, open, depth) + [Ideal(root, s.parts[n - 1], nested, open, depth)]
  }

  /** Expansions and bytes were left at the end, so no limit was met on the way. */
  predicate Ample(t: State) {
    t.refs > 0 && t.bytes > 0
  }

  ghost predicate Alike(st: State, open: Open) {
    forall n: nat :: Active(st, n) == Times(open, n)
  }

  lemma RenderIsIdeal(root: Root, s: Schema, nested: bool, st: State, open: Open, depth: nat)
    requires Alike(st, open) && depth >= st.refs && Ample(Render(root, s, nested, st).1)
    ensures Render(root, s, nested, st).0 == Ideal(root, s, nested, open, depth)
    decreases st.refs, s, 2, 0
  {
    ValueIsIdeal(root, s, nested, st, open, depth);
  }

  lemma ValueIsIdeal(root: Root, s: Schema, nested: bool, st: State, open: Open, depth: nat)
    requires Alike(st, open) && depth >= st.refs && Ample(RenderValue(root, s, nested, st).1)
    ensures RenderValue(root, s, nested, st).0 == Ideal(root, s, nested, open, depth)
    decreases st.refs, s, 1, 0
  {
    hide Alike;
    match s
    case Leaf(_) =>
    case Joined(own, parts, _, _) => PartsAreIdeal(root, s, |parts|, nested || own, st, open, depth);
    case Types(own, parts, _) => TypesAreIdeal(root, s, |parts|, nested || own, st, open, depth);
    case Ref(_, _, _) => RefIsIdeal(root, s, nested, st, open, depth);
  }

  lemma EnteredAlike(st: State, open: Open, name: nat)
    requires Alike(st, open) && st.refs > 0
    ensures Alike(Entered(st, name), open[name := Times(open, name) + 1])
  {
    forall n: nat ensures Active(Entered(st, name), n) == Times(open[name := Times(open, name) + 1], n) {
      assert Active(st, n) == Times(open, n);
    }
  }

  lemma SpentAlike(st: State, t: State, open: Open)
    requires Alike(st, open) && Spent(st, t)
    ensures Alike(t, open)
  {
  }

  lemma TargetIsIdeal(root: Root, s: Schema, nested: bool, st: State, open: Open, depth: nat)
    requires s.Ref? && Alike(st, open) && depth >= st.refs && Ample(Expand(root, s, nested, st).1)
    ensures Expand(root, s, nested, st).0 == IdealTarget(root, s, nested, open, depth)
    decreases st.refs, s, 0, 0
  {
    hide Ideal, Render, Spent;
    if Follows(root, s.name, nested, st) {
      EnteredAlike(st, open, s.name);
      RenderIsIdeal(root, root(s.name).value, false, Entered(st, s.name), open[s.name := Times(open, s.name) + 1], depth - 1);
    }
  }

  lemma IdealRef(root: Root, s: Schema, nested: bool, open: Open, depth: nat)
    requires s.Ref?
    ensures Ideal(root, s, nested, open, depth) ==
      var target, rest := IdealTarget(root, s, nested || s.own, open, depth), Ideal(root, s.siblings, nested || s.own, open, depth);
      if target != "unknown" && rest != "unknown" then "(" + target + ") & (" + rest + ")"
      else if target == "unknown" then rest else target
  {
  }

  lemma RefIsIdeal(root: Root, s: Schema, nested: bool, st: State, open: Open, depth: nat)
    requires s.Ref? && Alike(st, open) && depth >= st.refs && Ample(RenderValue(root, s, nested, st).1)
    ensures RenderValue(root, s, nested, st).0 == Ideal(root, s, nested, open, depth)
    decreases st.refs, s, 0, 1
  {
    hide Ideal, Render, IdealTarget, Expand, Alike;
    var inner := nested || s.own;
    var t := Expand(root, s, inner, st).1;
    IdealRef(root, s, nested, open, depth);
    SpentAlike(st, t, open);
    assert Spent(t, Render(root, s.siblings, inner, t).1);
    TargetIsIdeal(root, s, inner, st, open, depth);
    RenderIsIdeal(root, s.siblings, inner, t, open, depth);
  }

  lemma PartsAreIdeal(root: Root, s: Schema, n: nat, nested: bool, st: State, open: Open, depth: nat)
    requires s.Joined? && n <= |s.parts| && Alike(st, open) && depth >= st.refs && Ample(RenderParts(root, s, n, nested, st).1)
    ensures RenderParts(root, s, n, nested, st).0 == Some(IdealParts(root, s, n, nested, open, depth))
    decreases st.refs, s, 0, n
  {
    if n > 0 {
      PartsAreIdeal(root, s, n - 1, nested, st, open, depth);
      RenderIsIdeal(root, s.parts[n - 1], nested, RenderParts(root, s, n - 1, nested, st).1, open, depth);
    }
  }

  lemma TypesAreIdeal(root: Root, s: Schema, n: nat, nested: bool, st: State, open: Open, depth: nat)
    requires s.Types? && n <= |s.parts| && Alike(st, open) && depth >= st.refs && Ample(RenderTypes(root, s, n, nested, st).1)
    ensures RenderTypes(root, s, n, nested, st).0 == IdealParts(root, s, n, nested, open, depth)
    decreases st.refs, s, 0, n
  {
    if n > 0 {
      TypesAreIdeal(root, s, n - 1, nested, st, open, depth);
      ValueIsIdeal(root, s.parts[n - 1], nested, RenderTypes(root, s, n - 1, nested, st).1, open, depth);
    }
  }

  /** A schema whose rendering met neither limit is shown as without them; only a text of more than
      16,000 bytes is not shown then. */
  lemma ShownAsIs(root: Root, s: Schema)
    requires Ample(Render(root, s, false, Start).1)
    ensures var ideal := Ideal(root, s, false, map[], 32); SchemaType(root, s) == if |ideal| <= 16_000 then ideal else "unknown"
  {
    hide Render, Ideal;
    RenderIsIdeal(root, s, false, Start, map[], 32);
  }

  /** What one rendering costs and shows: nothing once the allowance is spent; otherwise the bytes of
      its text, which is shown if they could be paid. */
  lemma PaysAndShows(root: Root, s: Schema, nested: bool, st: State)
    ensures var (out, t) := Render(root, s, nested, st);
      var (value, u) := RenderValue(root, s, nested, st);
      if st.bytes <= 0 then out == "unknown" && t == st
      else t.bytes == u.bytes - |value| && t.refs == u.refs && out == if u.bytes >= |value| then value else "unknown"
  {
    hide RenderValue;
  }

  /** A construct gives up exactly when the allowance is spent before one of its checked parts. */
  lemma {:induction false} GivesUpExactly(root: Root, s: Schema, n: nat, nested: bool, st: State)
    requires s.Joined? && n <= |s.parts|
    ensures RenderParts(root, s, n, nested, st).0.None? <==>
      exists k :: 0 <= k < n && k < s.checked && RenderParts(root, s, k, nested, st).1.bytes <= 0
    ensures RenderParts(root, s, n, nested, st).0.Some? ==> |RenderParts(root, s, n, nested, st).0.value| == n
  {
    if n > 0 { GivesUpExactly(root, s, n - 1, nested, st); }
  }
}

/** The renderer as the closure with its three counters. */
module SchemaRenderers {
  import opened SchemaTypes

  class SchemaRenderer {
    const root: Root
    var remainingRefs: nat
    var remainingBytes: int
    var active: map<nat, nat>

    ghost function View(): State
      reads this
    {
      State(remainingRefs, remainingBytes, active)
    }

    constructor (root: Root)
      ensures View() == Start && this.root == root
    {
      this.root := root;
      remainingRefs, remainingBytes, active := MAX_REFS, MAX_BYTES, map[];
    }

    method RenderSchema(s: Schema, nested: bool) returns (out: Text)
      modifies this
      ensures (out, View()) == Render(root, s, nested, old(View()))
      decreases remainingRefs, s, 2, 0
    {
      if remainingBytes <= 0 { return UNKNOWN; }
      out := RenderSchemaValue(s, nested);
      remainingBytes := remainingBytes - |out|;
      if remainingBytes < 0 { out := UNKNOWN; }
    }

    method RenderSchemaValue(s: Schema, nested: bool) returns (out: Text)
      modifies this
      ensures (out, View()) == RenderValue(root, s, nested, old(View()))
      decreases remainingRefs, s, 1, 0
    {
      match s
      case Leaf(text) => return text;
      case Joined(own, parts, _, join) =>
        var texts := RenderEach(s, nested || own);
        return if texts.None? then UNKNOWN else join(texts.value);
      case Types(own, parts, join) =>
        var texts := RenderNames(s, nested || own);
        return join(texts);
      case Ref(own, _, siblings) =>
        var referenced := ExpandRef(s, nested || own);
        var sibling := RenderSchema(siblings, nested || own);
        return Combine(referenced, sibling);
    }

    method ExpandRef(s: Schema, nested: bool) returns (out: Text)
      requires s.Ref?
      modifies this
      ensures (out, View()) == Expand(root, s, nested, old(View()))
      decreases remainingRefs, s, 0, 0
    {
      hide Render, Spent;
      var name := s.name;
      var count := if name in active then active[name] else 0;
      if nested || count >= 2 || remainingRefs == 0 || root(name).None? { return UNKNOWN; }
      remainingRefs := remainingRefs - 1;
      active := active[name := count + 1];
      out := RenderSchema(root(name).value, false);
      active := active[name := count];
    }

    method RenderEach(s: Schema, nested: bool) returns (texts: Option<seq<Text>>)
      requires s.Joined?
      modifies this
      ensures (texts, View()) == RenderParts(root, s, |s.parts|, nested, old(View()))
      decreases remainingRefs, s, 0, |s.parts|
    {
      ghost var was := View();
      var done: seq<Text> := [];
      var i := 0;
      while i < |s.parts|
        invariant 0 <= i <= |s.parts| && (Some(done), View()) == RenderParts(root, s, i, nested, was)
        invariant remainingRefs <= was.refs
      {
        if i < s.checked && remainingBytes <= 0 {
          StopsAt(s, i, nested, was);
          return None;
        }
        var out := RenderSchema(s.parts[i], nested);
        done := done + [out];
        i := i + 1;
      }
      return Some(done);
    }

    /** A construct that gave up before one part renders no later one. */
    lemma {:induction false} StopsAt(s: Schema, i: nat, nested: bool, was: State)
      requires s.Joined? && i < |s.parts|
      requires var (texts, t) := RenderParts(root, s, i + 1, nested, was); texts.None?
      ensures RenderParts(root, s, |s.parts|, nested, was) == RenderParts(root, s, i + 1, nested, was)
      decreases |s.parts| - i
    {
      if i + 1 < |s.parts| { StopsAt(s, i + 1, nested, was); }
    }

    method RenderNames(s: Schema, nested: bool) returns (texts: seq<Text>)
      requires s.Types?
      modifies this
      ensures (texts, View()) == RenderTypes(root, s, |s.parts|, nested, old(View()))
      decreases remainingRefs, s, 0, |s.parts|
    {
      ghost var was := View();
      texts := [];
      var i := 0;
      while i < |s.parts|
        invariant 0 <= i <= |s.parts| && (texts, View()) == RenderTypes(root, s, i, nested, was)
        invariant remainingRefs <= was.refs
      {
        var out := RenderSchemaValue(s.parts[i], nested);
        texts := texts + [out];
        i := i + 1;
      }
    }
  }
}
