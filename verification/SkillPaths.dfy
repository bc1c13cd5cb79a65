/** Shorter skill paths: common directory prefixes become aliases, and expanding the aliases gives
    back every path. */
module SkillPaths {
  import opened SkillTexts
  import J = Jsons

  const Slash: Point := 0x2f
  const Backslash: Point := 0x5c

  /** A drive letter with a separator, or two backslashes. */
  predicate Windows(path: Text) {
    || (|path| >= 3 && (0x41 <= path[0] <= 0x5a || 0x61 <= path[0] <= 0x7a) && path[1] == 0x3a
        && (path[2] == Slash || path[2] == Backslash))
    || (|path| >= 2 && path[0] == Backslash && path[1] == Backslash)
  }

  predicate Separator(path: Text, offset: nat)
    requires offset < |path|
  {
    path[offset] == Slash || (Windows(path) && path[offset] == Backslash)
  }

  /** The path lies below this directory prefix. */
  predicate Below(path: Text, prefix: Text) {
    prefix != [] && prefix <= path && Separator(path, |prefix| - 1)
  }

  // ---- how a path is shown ----

  function AliasName(k: nat): (t: Text)
    ensures t != [] && t[0] == 0x72
  {
    [0x72] + J.Decimal(k)
  }

  /** `@rN + "suffix"` */
  function AliasEntry(k: nat, suffix: Text): (t: Text)
    ensures t != [] && t[0] == 0x40
  {
    [0x40] + AliasName(k) + [0x20, 0x2b, 0x20] + Quote(suffix)
  }

  /** `rN = "prefix"` */
  function RootLine(k: nat, prefix: Text): Text {
    AliasName(k) + [0x20, 0x3d, 0x20] + Quote(prefix)
  }

  /** A path is shown whole, or as a root and the rest. */
  datatype Entry = Whole | Aliased(root: nat)

  datatype Plan = Plan(roots: seq<Text>, entries: seq<Entry>, saved: int)

  predicate Fits(paths: seq<Text>, plan: Plan) {
    && |plan.entries| == |paths|
    && forall i :: 0 <= i < |paths| && plan.entries[i].Aliased? ==>
         plan.entries[i].root < |plan.roots| && Below(paths[i], plan.roots[plan.entries[i].root])
  }

  function Shown(path: Text, roots: seq<Text>, entry: Entry): Text {
    if entry.Aliased? && entry.root < |roots| && |roots[entry.root]| <= |path|
    then AliasEntry(entry.root, path[|roots[entry.root]|..])
    else Quote(path)
  }

  // ---- the greedy choice ----

  function Available(paths: seq<Text>, entries: seq<Entry>, prefix: Text): (r: seq<nat>)
    requires |entries| == |paths|
    ensures forall x :: 0 <= x < |r| ==> r[x] < |paths| && Below(paths[r[x]], prefix) && entries[r[x]].Whole?
    ensures forall x, y :: 0 <= x < y < |r| ==> r[x] < r[y]
  {
    if paths == [] then []
    else
      var n := |paths| - 1;
      var rest := Available(paths[..n], entries[..n], prefix);
      if Below(paths[n], prefix) && entries[n].Whole? then rest + [n] else rest
  }

  function EntrySaving(path: Text, prefix: Text, k: nat): int
    requires Below(path, prefix)
  {
    |Quote(path)| - |AliasEntry(k, path[|prefix|..])|
  }

  function EntrySavings(paths: seq<Text>, indices: seq<nat>, prefix: Text, k: nat): int
    requires forall x :: 0 <= x < |indices| ==> indices[x] < |paths| && Below(paths[indices[x]], prefix)
  {
    if indices == [] then 0
    else
      var n := |indices| - 1;
      EntrySavings(paths, indices[..n], prefix, k) + EntrySaving(paths[indices[n]], prefix, k)
  }

  /** `saving`: what the shown paths lose, less the line that defines the alias. */
  function Saving(paths: seq<Text>, indices: seq<nat>, prefix: Text, k: nat): int
    requires forall x :: 0 <= x < |indices| ==> indices[x] < |paths| && Below(paths[indices[x]], prefix)
  {
    EntrySavings(paths, indices, prefix, k) - (|RootLine(k, prefix)| + 1)
  }

  function Assign(entries: seq<Entry>, indices: seq<nat>, k: nat): (r: seq<Entry>)
    ensures |r| == |entries|
    ensures forall i :: 0 <= i < |entries| ==> r[i] == if i in indices then Aliased(k) else entries[i]
  {
    seq(|entries|, i requires 0 <= i < |entries| => if i in indices then Aliased(k) else entries[i])
  }

  /** One candidate prefix: taken when it still shortens at least two paths. */
  function Consider(paths: seq<Text>, plan: Plan, prefix: Text): Plan
    requires |plan.entries| == |paths|
  {
    var indices := Available(paths, plan.entries, prefix);
    var k := |plan.roots|;
    if |indices| < 2 || Saving(paths, indices, prefix, k) <= 0 then plan
    else Plan(plan.roots + [prefix], Assign(plan.entries, indices, k), plan.saved + Saving(paths, indices, prefix, k))
  }

  /** The candidates in the order of their rank, which may be any. */
  function Greedy(paths: seq<Text>, plan: Plan, ranked: seq<Text>): (r: Plan)
    requires |plan.entries| == |paths|
    ensures |r.entries| == |paths|
    decreases |ranked|
  {
    if ranked == [] then plan else Greedy(paths, Consider(paths, plan, ranked[0]), ranked[1..])
  }

  function NoAliases(paths: seq<Text>): Plan {
    Plan([], seq(|paths|, _ => Whole), 0)
  }

  // ---- the presentation ----

  function Originals(paths: seq<Text>): (r: seq<Text>)
    ensures |r| == |paths|
  {
    seq(|paths|, i requires 0 <= i < |paths| => Quote(paths[i]))
  }

  function Entries(paths: seq<Text>, plan: Plan): (r: seq<Text>)
    requires |plan.entries| == |paths|
    ensures |r| == |paths|
  {
    seq(|paths|, i requires 0 <= i < |paths| => Shown(paths[i], plan.roots, plan.entries[i]))
  }

  function RootLines(roots: seq<Text>): (r: seq<Text>)
    ensures |r| == |roots|
  {
    seq(|roots|, k requires 0 <= k < |roots| => RootLine(k, roots[k]))
  }

  /** The length of lines joined by line feeds. */
  function Joined(lines: seq<Text>): int {
    Total(lines) + (if lines == [] then 0 else |lines| - 1)
  }

  function Total(lines: seq<Text>): nat {
    if lines == [] then 0 else Total(lines[..|lines| - 1]) + |lines[|lines| - 1]|
  }

  datatype Presentation = Presentation(lines: seq<Text>, paths: seq<Text>)

  /** `pathPlan`: the aliased form only when all of it, help line included, is shorter. */
  function PathPlan(paths: seq<Text>, ranked: seq<Text>, help: Text): Presentation {
    var plan := Greedy(paths, NoAliases(paths), ranked);
    var lines := if plan.roots == [] then [] else [help] + RootLines(plan.roots);
    if Joined(lines + Entries(paths, plan)) < Joined(Originals(paths))
    then Presentation(lines, Entries(paths, plan))
    else Presentation([], Originals(paths))
  }

  // ---- reading the presentation back ----

  predicate IsDigit(c: Point) {
    0x30 <= c <= 0x39
  }

  /** How many digits a text starts with. */
  function DigitRun(t: Text): (n: nat)
    ensures n <= |t|
    ensures forall i :: 0 <= i < n ==> IsDigit(t[i])
  {
    if t == [] || !IsDigit(t[0]) then 0 else 1 + DigitRun(t[1..])
  }

  datatype Reading = Unreadable | Reading(number: int, text: Text)

  /** `rN`, three characters with `sign` in the middle, and a quoted text. */
  function ReadAlias(t: Text, sign: Point): Reading {
    if t == [] || t[0] != 0x72 then Unreadable
    else
      var n := 1 + DigitRun(t[1..]);
      if |t| < n + 3 || t[n..n + 3] != [0x20, sign, 0x20] then Unreadable
      else
        var text := Unquote(t[n + 3..]);
        if text.None? then Unreadable else Reading(NumberOf(t[1..n]), text.value)
  }

  function NumberOf(digits: Text): int
    requires forall i :: 0 <= i < |digits| ==> IsDigit(digits[i])
  {
    J.Spelled(digits)
  }

  /** What a shown path stands for, given the lines above it: the help line and the roots. */
  function Expand(lines: seq<Text>, t: Text): Option<Text> {
    if t != [] && t[0] == 0x22 then Unquote(t)
    else if t == [] || t[0] != 0x40 then None
    else
      var entry := ReadAlias(t[1..], 0x2b);
      if entry.Unreadable? || !(0 <= entry.number && entry.number + 1 < |lines|) then None
      else
        var root := ReadAlias(lines[entry.number + 1], 0x3d);
        if root.Unreadable? || root.number != entry.number then None else Some(root.text + entry.text)
  }

  lemma {:induction false} DigitRunEnds(digits: Text, rest: Text)
    requires forall i :: 0 <= i < |digits| ==> IsDigit(digits[i])
    requires rest == [] || !IsDigit(rest[0])
    ensures DigitRun(digits + rest) == |digits|
  {
    if digits == [] {
      assert digits + rest == rest;
    } else {
      assert (digits + rest)[1..] == digits[1..] + rest;
      DigitRunEnds(digits[1..], rest);
    }
  }

  lemma ReadsBack(k: nat, sign: Point, text: Text)
    ensures ReadAlias(AliasName(k) + [0x20, sign, 0x20] + Quote(text), sign) == Reading(k, text)
  {
    var digits: Text := J.Decimal(k);
    var rest := [0x20, sign, 0x20] + Quote(text);
    var t := AliasName(k) + [0x20, sign, 0x20] + Quote(text);
    assert t[1..] == digits + rest;
    DigitRunEnds(digits, rest);
    var n := 1 + |digits|;
    assert t[n..n + 3] == [0x20, sign, 0x20] && t[n + 3..] == Quote(text) && t[1..n] == digits;
    QuoteRoundTrip(text);
    J.DecimalSpelled(k);
  }

  lemma ExpandsEntry(paths: seq<Text>, plan: Plan, help: Text, i: nat)
    requires Fits(paths, plan) && i < |paths|
    ensures Expand([help] + RootLines(plan.roots), Entries(paths, plan)[i]) == Some(paths[i])
  {
    hide Below, Windows;
    var path, entry := paths[i], plan.entries[i];
    if entry.Whole? {
      hide Unquote;
      QuoteRoundTrip(path);
    } else {
      BelowPrefix(path, plan.roots[entry.root]);
      ExpandsAlias(path, plan.roots, entry.root, help);
    }
  }

  lemma BelowPrefix(path: Text, prefix: Text)
    requires Below(path, prefix)
    ensures prefix <= path
  {
  }

  lemma ExpandsAlias(path: Text, roots: seq<Text>, k: nat, help: Text)
    requires k < |roots| && roots[k] <= path
    ensures Expand([help] + RootLines(roots), AliasEntry(k, path[|roots[k]|..])) == Some(path)
  {
    hide ReadAlias, Unquote, Quote, AliasName;
    var prefix := roots[k];
    var suffix := path[|prefix|..];
    var lines := [help] + RootLines(roots);
    ReadsBack(k, 0x2b, suffix);
    ReadsBack(k, 0x3d, prefix);
    assert AliasEntry(k, suffix)[1..] == AliasName(k) + [0x20, 0x2b, 0x20] + Quote(suffix);
    assert lines[k + 1] == RootLine(k, prefix);
    assert prefix + suffix == path;
  }

  // ---- what the greedy choice keeps ----

  lemma {:induction false} AvailableAll(paths: seq<Text>, entries: seq<Entry>, prefix: Text, i: nat)
    requires |entries| == |paths| && i < |paths| && Below(paths[i], prefix) && entries[i].Whole?
    ensures i in Available(paths, entries, prefix)
  {
    hide Below;
    var n := |paths| - 1;
    if i < n { AvailableAll(paths[..n], entries[..n], prefix, i); }
  }

  /** The first `n` shown paths. */
  function SumShown(paths: seq<Text>, plan: Plan, n: nat): nat
    requires n <= |paths| == |plan.entries|
  {
    if n == 0 then 0 else SumShown(paths, plan, n - 1) + |Shown(paths[n - 1], plan.roots, plan.entries[n - 1])|
  }

  function RootCosts(roots: seq<Text>): nat {
    if roots == [] then 0
    else RootCosts(roots[..|roots| - 1]) + |RootLine(|roots| - 1, roots[|roots| - 1])| + 1
  }

  /** The running saving is the real difference in length. */
  predicate ExactSaving(paths: seq<Text>, plan: Plan)
    requires |plan.entries| == |paths|
  {
    SumShown(paths, plan, |paths|) + RootCosts(plan.roots) + plan.saved == SumShown(paths, NoAliases(paths), |paths|)
  }

  /** Every alias shortens at least two paths. */
  predicate UsedTwice(plan: Plan) {
    forall k :: 0 <= k < |plan.roots| ==> Twice(plan.entries, k)
  }

  predicate Twice(entries: seq<Entry>, k: nat) {
    exists i, j :: 0 <= i < j < |entries| && entries[i] == Aliased(k) && entries[j] == Aliased(k)
  }

  predicate Sound(paths: seq<Text>, plan: Plan) {
    Fits(paths, plan) && ExactSaving(paths, plan) && UsedTwice(plan)
  }

  lemma ShownAliased(path: Text, roots: seq<Text>, k: nat)
    requires k < |roots| && Below(path, roots[k])
    ensures Shown(path, roots, Aliased(k)) == AliasEntry(k, path[|roots[k]|..])
  {
  }

  lemma ShownSame(path: Text, roots: seq<Text>, prefix: Text, entry: Entry)
    requires entry.Aliased? ==> entry.root < |roots|
    ensures Shown(path, roots + [prefix], entry) == Shown(path, roots, entry)
  {
    hide Quote, AliasEntry;
  }

  /** How one path is shown before and after the root is taken. */
  lemma ShownStep(paths: seq<Text>, plan: Plan, prefix: Text, i: nat)
    requires i < |paths| && Fits(paths, plan)
    ensures var k := |plan.roots|;
      var now := Shown(paths[i], plan.roots + [prefix], Assign(plan.entries, Available(paths, plan.entries, prefix), k)[i]);
      var was := Shown(paths[i], plan.roots, plan.entries[i]);
      if Below(paths[i], prefix) && plan.entries[i].Whole?
      then was == Quote(paths[i]) && |prefix| <= |paths[i]| && now == AliasEntry(k, paths[i][|prefix|..])
      else now == was
  {
    var path, entry := paths[i], plan.entries[i];
    var k := |plan.roots|;
    var all := Available(paths, plan.entries, prefix);
    if Below(path, prefix) && entry.Whole? {
      AvailableAll(paths, plan.entries, prefix, i);
      ShownAliased(path, plan.roots + [prefix], k);
    } else {
      assert i !in all;
      ShownSame(path, plan.roots, prefix, entry);
    }
    hide Available, Windows, Quote, AliasEntry;
  }

  /** The plan after the root is taken by every path that can use it. */
  function Extended(paths: seq<Text>, plan: Plan, prefix: Text): (r: Plan)
    requires |plan.entries| == |paths|
    ensures |r.entries| == |paths|
  {
    Plan(plan.roots + [prefix], Assign(plan.entries, Available(paths, plan.entries, prefix), |plan.roots|), 0)
  }

  lemma SumStep(paths: seq<Text>, plan: Plan, n: nat)
    requires 0 < n <= |paths| == |plan.entries|
    ensures SumShown(paths, plan, n) == SumShown(paths, plan, n - 1) + |Shown(paths[n - 1], plan.roots, plan.entries[n - 1])|
  {
    hide Shown;
  }

  /** Among the first `n` paths, the shown length falls by the entry savings. */
  lemma {:induction false} ShownSavings(paths: seq<Text>, plan: Plan, prefix: Text, n: nat)
    requires n <= |paths| && Fits(paths, plan)
    ensures var some := Available(paths[..n], plan.entries[..n], prefix);
      && (forall x :: 0 <= x < |some| ==> some[x] < |paths| && Below(paths[some[x]], prefix))
      && SumShown(paths, Extended(paths, plan, prefix), n) + EntrySavings(paths, some, prefix, |plan.roots|) == SumShown(paths, plan, n)
  {
    hide *;
    FitsLength(paths, plan);
    if n > 0 {
      ShownSavings(paths, plan, prefix, n - 1);
      ShownSavingsStep(paths, plan, prefix, n);
    } else {
      NoSavings(paths, plan, prefix);
    }
  }

  lemma NoSavings(paths: seq<Text>, plan: Plan, prefix: Text)
    requires |plan.entries| == |paths|
    ensures Available(paths[..0], plan.entries[..0], prefix) == []
    ensures SumShown(paths, Extended(paths, plan, prefix), 0) == SumShown(paths, plan, 0) == 0
    ensures EntrySavings(paths, [], prefix, |plan.roots|) == 0
  {
  }

  lemma ShownSavingsStep(paths: seq<Text>, plan: Plan, prefix: Text, n: nat)
    requires 0 < n <= |paths| == |plan.entries| && Fits(paths, plan)
    requires var some := Available(paths[..n - 1], plan.entries[..n - 1], prefix);
      && (forall x :: 0 <= x < |some| ==> some[x] < |paths| && Below(paths[some[x]], prefix))
      && SumShown(paths, Extended(paths, plan, prefix), n - 1) + EntrySavings(paths, some, prefix, |plan.roots|) == SumShown(paths, plan, n - 1)
    ensures var some := Available(paths[..n], plan.entries[..n], prefix);
      && (forall x :: 0 <= x < |some| ==> some[x] < |paths| && Below(paths[some[x]], prefix))
      && SumShown(paths, Extended(paths, plan, prefix), n) + EntrySavings(paths, some, prefix, |plan.roots|) == SumShown(paths, plan, n)
  {
    hide *;
    var fewer := Available(paths[..n - 1], plan.entries[..n - 1], prefix);
    AvailableStep(paths, plan.entries, prefix, n);
    ShownStep(paths, plan, prefix, n - 1);
    ExtendedIs(paths, plan, prefix);
    SumStep(paths, plan, n);
    SumStep(paths, Extended(paths, plan, prefix), n);
    if Below(paths[n - 1], prefix) && plan.entries[n - 1].Whole? {
      SavingsAppend(paths, fewer, n - 1, prefix, |plan.roots|);
      assert Available(paths[..n], plan.entries[..n], prefix) == fewer + [n - 1];
    } else {
      assert Available(paths[..n], plan.entries[..n], prefix) == fewer + [] == fewer;
    }
  }

  lemma FitsLength(paths: seq<Text>, plan: Plan)
    requires Fits(paths, plan)
    ensures |plan.entries| == |paths|
  {
  }

  lemma ExtendedIs(paths: seq<Text>, plan: Plan, prefix: Text)
    requires |plan.entries| == |paths|
    ensures Extended(paths, plan, prefix).roots == plan.roots + [prefix]
    ensures Extended(paths, plan, prefix).entries == Assign(plan.entries, Available(paths, plan.entries, prefix), |plan.roots|)
  {
  }

  lemma AvailableStep(paths: seq<Text>, entries: seq<Entry>, prefix: Text, n: nat)
    requires 0 < n <= |paths| == |entries|
    ensures Available(paths[..n], entries[..n], prefix)
         == Available(paths[..n - 1], entries[..n - 1], prefix) + (if Below(paths[n - 1], prefix) && entries[n - 1].Whole? then [n - 1] else [])
    ensures forall x :: 0 <= x < |Available(paths[..n], entries[..n], prefix)| ==>
      Available(paths[..n], entries[..n], prefix)[x] < n && Below(paths[Available(paths[..n], entries[..n], prefix)[x]], prefix)
  {
    hide Below;
    assert paths[..n][..n - 1] == paths[..n - 1] && entries[..n][..n - 1] == entries[..n - 1];
  }

  lemma SavingsAppend(paths: seq<Text>, some: seq<nat>, i: nat, prefix: Text, k: nat)
    requires i < |paths| && Below(paths[i], prefix)
    requires forall x :: 0 <= x < |some| ==> some[x] < |paths| && Below(paths[some[x]], prefix)
    ensures EntrySavings(paths, some + [i], prefix, k)
         == EntrySavings(paths, some, prefix, k) + |Quote(paths[i])| - |AliasEntry(k, paths[i][|prefix|..])|
  {
    hide Below, Quote, AliasEntry;
    assert (some + [i])[..|some|] == some;
  }

  lemma RootCostsAppend(roots: seq<Text>, prefix: Text)
    ensures RootCosts(roots + [prefix]) == RootCosts(roots) + |RootLine(|roots|, prefix)| + 1
  {
    assert (roots + [prefix])[..|roots|] == roots;
  }

  lemma {:induction false} SumIgnoresSaved(paths: seq<Text>, a: Plan, b: Plan, n: nat)
    requires n <= |paths| == |a.entries| && a.entries == b.entries && a.roots == b.roots
    ensures SumShown(paths, a, n) == SumShown(paths, b, n)
  {
    if n > 0 { SumIgnoresSaved(paths, a, b, n - 1); }
  }

  lemma ConsiderSound(paths: seq<Text>, plan: Plan, prefix: Text)
    requires Sound(paths, plan)
    ensures Sound(paths, Consider(paths, plan, prefix))
  {
    hide *;
    SoundParts(paths, plan);
    var r := Consider(paths, plan, prefix);
    ConsiderTwice(paths, plan, prefix);
    ConsiderFits(paths, plan, prefix);
    ConsiderExact(paths, plan, prefix);
    SoundFrom(paths, r);
  }

  lemma SoundParts(paths: seq<Text>, plan: Plan)
    requires Sound(paths, plan)
    ensures |plan.entries| == |paths| && Fits(paths, plan) && ExactSaving(paths, plan) && UsedTwice(plan)
  {
  }

  lemma SoundFrom(paths: seq<Text>, plan: Plan)
    requires |plan.entries| == |paths| && Fits(paths, plan) && ExactSaving(paths, plan) && UsedTwice(plan)
    ensures Sound(paths, plan)
  {
  }

  lemma ConsiderExact(paths: seq<Text>, plan: Plan, prefix: Text)
    requires Fits(paths, plan) && ExactSaving(paths, plan)
    ensures |Consider(paths, plan, prefix).entries| == |paths| && ExactSaving(paths, Consider(paths, plan, prefix))
  {
    hide *;
    FitsLength(paths, plan);
    var r := Consider(paths, plan, prefix);
    var some := Available(paths, plan.entries, prefix);
    var next := Extended(paths, plan, prefix);
    if r != plan {
      assert paths[..|paths|] == paths && plan.entries[..|paths|] == plan.entries;
      ShownSavings(paths, plan, prefix, |paths|);
      ConsiderIs(paths, plan, prefix);
      SumIgnoresSaved(paths, next, r, |paths|);
      RootCostsAppend(plan.roots, prefix);
      ExactIs(paths, plan);
      ExactIs(paths, r);
    }
  }

  lemma ExactIs(paths: seq<Text>, plan: Plan)
    requires |plan.entries| == |paths|
    ensures |NoAliases(paths).entries| == |paths|
    ensures ExactSaving(paths, plan) <==>
      (SumShown(paths, plan, |paths|) + RootCosts(plan.roots) + plan.saved == SumShown(paths, NoAliases(paths), |paths|))
  {
    hide SumShown, RootCosts;
  }

  lemma ConsiderIs(paths: seq<Text>, plan: Plan, prefix: Text)
    requires |plan.entries| == |paths| && Consider(paths, plan, prefix) != plan
    ensures var r, next := Consider(paths, plan, prefix), Extended(paths, plan, prefix);
      && r.roots == next.roots == plan.roots + [prefix] && r.entries == next.entries && |r.entries| == |paths|
      && r.saved == plan.saved + EntrySavings(paths, Available(paths, plan.entries, prefix), prefix, |plan.roots|)
                    - |RootLine(|plan.roots|, prefix)| - 1
  {
    hide EntrySavings, Available, RootLine, Below;
  }

  lemma ConsiderFits(paths: seq<Text>, plan: Plan, prefix: Text)
    requires Fits(paths, plan)
    ensures Fits(paths, Consider(paths, plan, prefix))
  {
    hide Below, Saving;
    var r := Consider(paths, plan, prefix);
    var indices := Available(paths, plan.entries, prefix);
    forall i | 0 <= i < |paths| && r.entries[i].Aliased?
      ensures r.entries[i].root < |r.roots| && Below(paths[i], r.roots[r.entries[i].root])
    {
      if r != plan && i in indices {
        var x :| 0 <= x < |indices| && indices[x] == i;
      }
    }
  }

  lemma ConsiderTwice(paths: seq<Text>, plan: Plan, prefix: Text)
    requires Fits(paths, plan) && UsedTwice(plan)
    ensures UsedTwice(Consider(paths, plan, prefix))
  {
    hide Below, Saving;
    var r := Consider(paths, plan, prefix);
    var indices := Available(paths, plan.entries, prefix);
    if r != plan {
      forall k | 0 <= k < |r.roots| ensures Twice(r.entries, k) {
        if k < |plan.roots| {
          assert Twice(plan.entries, k);
          var i, j :| 0 <= i < j < |plan.entries| && plan.entries[i] == Aliased(k) && plan.entries[j] == Aliased(k);
          assert r.entries[i] == Aliased(k) && r.entries[j] == Aliased(k);
        } else {
          var i, j := indices[0], indices[1];
          assert i in indices && j in indices;
          assert r.entries[i] == Aliased(k) && r.entries[j] == Aliased(k);
        }
      }
    }
  }

  lemma {:induction false} GreedySound(paths: seq<Text>, plan: Plan, ranked: seq<Text>)
    requires Sound(paths, plan)
    ensures Sound(paths, Greedy(paths, plan, ranked))
    decreases |ranked|
  {
    if ranked != [] {
      ConsiderSound(paths, plan, ranked[0]);
      hide Sound, Consider;
      GreedySound(paths, Consider(paths, plan, ranked[0]), ranked[1..]);
    }
  }

  // ---- the presentation as a whole ----

  lemma {:induction false} TotalConcat(a: seq<Text>, b: seq<Text>)
    ensures Total(a + b) == Total(a) + Total(b)
  {
    if b == [] {
      assert a + b == a;
    } else {
      assert (a + b)[..|a + b| - 1] == a + b[..|b| - 1];
      TotalConcat(a, b[..|b| - 1]);
    }
  }

  lemma {:induction false} EntriesTotal(paths: seq<Text>, plan: Plan, n: nat)
    requires n <= |paths| == |plan.entries|
    ensures Total(Entries(paths, plan)[..n]) == SumShown(paths, plan, n)
  {
    hide *;
    var lines := Entries(paths, plan);
    if n > 0 {
      EntriesTotal(paths, plan, n - 1);
      EntryAt(paths, plan, n - 1);
      SumStep(paths, plan, n);
      assert lines[..n] == lines[..n - 1] + [lines[n - 1]];
      TotalConcat(lines[..n - 1], [lines[n - 1]]);
      OneLine(lines[n - 1]);
    } else {
      NothingTotal(paths, plan);
    }
  }

  lemma NothingTotal(paths: seq<Text>, plan: Plan)
    requires |plan.entries| == |paths|
    ensures Total([]) == 0 && SumShown(paths, plan, 0) == 0
  {
  }

  lemma EntryAt(paths: seq<Text>, plan: Plan, i: nat)
    requires i < |paths| == |plan.entries|
    ensures Entries(paths, plan)[i] == Shown(paths[i], plan.roots, plan.entries[i])
  {
    hide Shown;
  }

  lemma {:induction false} RootsTotal(roots: seq<Text>)
    ensures Total(RootLines(roots)) + |roots| == RootCosts(roots)
  {
    hide RootLine;
    if roots != [] {
      var n := |roots| - 1;
      RootsTotal(roots[..n]);
      assert RootLines(roots)[..n] == RootLines(roots[..n]);
    }
  }

  lemma OriginalsAreWhole(paths: seq<Text>)
    ensures Originals(paths) == Entries(paths, NoAliases(paths))
    ensures Sound(paths, NoAliases(paths))
  {
    hide Quote, SumShown;
    assert SumShown(paths, NoAliases(paths), |paths|) + RootCosts([]) + 0 == SumShown(paths, NoAliases(paths), |paths|);
  }

  /** The greedy estimate is exact: with the help line, the aliased form is shorter by the savings
      less that line. */
  lemma SavingIsReal(paths: seq<Text>, plan: Plan, help: Text)
    requires Sound(paths, plan) && plan.roots != []
    ensures Joined([help] + RootLines(plan.roots) + Entries(paths, plan)) == Joined(Originals(paths)) + |help| + 1 - plan.saved
  {
    var none := NoAliases(paths);
    OriginalsAreWhole(paths);
    TwicePaths(plan);
    hide *;
    EntriesTotal(paths, plan, |paths|);
    EntriesTotal(paths, none, |paths|);
    RootsTotal(plan.roots);
    var lines := [help] + RootLines(plan.roots);
    assert Entries(paths, plan)[..|paths|] == Entries(paths, plan) && Entries(paths, none)[..|paths|] == Entries(paths, none);
    TotalConcat([help], RootLines(plan.roots));
    TotalConcat(lines, Entries(paths, plan));
    OneLine(help);
    SoundIs(paths, plan);
    JoinedIs(lines + Entries(paths, plan));
    JoinedIs(Originals(paths));
  }

  lemma OneLine(help: Text)
    ensures Total([help]) == |help|
  {
    assert [help][..0] == [];
  }

  lemma JoinedIs(lines: seq<Text>)
    ensures lines != [] ==> Joined(lines) == Total(lines) + |lines| - 1
  {
  }

  lemma SoundIs(paths: seq<Text>, plan: Plan)
    requires Sound(paths, plan)
    ensures |plan.entries| == |paths| && |NoAliases(paths).entries| == |paths|
    ensures SumShown(paths, plan, |paths|) + RootCosts(plan.roots) + plan.saved == SumShown(paths, NoAliases(paths), |paths|)
  {
    hide SumShown;
  }

  lemma TwicePaths(plan: Plan)
    requires UsedTwice(plan) && plan.roots != []
    ensures |plan.entries| >= 2
  {
    assert Twice(plan.entries, 0);
  }

  /** Whatever the ranking: every shown path expands to its original, and aliases are used only
      when the whole presentation with them is strictly shorter, which is exactly when their
      savings exceed the help line. */
  lemma PathPlanLossless(paths: seq<Text>, ranked: seq<Text>, help: Text)
    ensures var r := PathPlan(paths, ranked, help);
      && |r.paths| == |paths|
      && (forall i :: 0 <= i < |paths| ==> Expand(r.lines, r.paths[i]) == Some(paths[i]))
      && (r == Presentation([], Originals(paths)) || Joined(r.lines + r.paths) < Joined(Originals(paths)))
    ensures var plan := Greedy(paths, NoAliases(paths), ranked);
      PathPlan(paths, ranked, help).lines != [] <==> plan.roots != [] && plan.saved > |help| + 1
  {
    var plan := Greedy(paths, NoAliases(paths), ranked);
    var r := PathPlan(paths, ranked, help);
    OriginalsAreWhole(paths);
    GreedySound(paths, NoAliases(paths), ranked);
    hide Greedy, Expand, Joined, Quote, SumShown, Shown, UsedTwice, ExactSaving;
    if plan.roots != [] { SavingIsReal(paths, plan, help); } else { NoRoots(paths, plan); }
    forall i | 0 <= i < |paths| ensures Expand(r.lines, r.paths[i]) == Some(paths[i]) {
      if r.lines != [] {
        ExpandsEntry(paths, plan, help, i);
      } else {
        ExpandsWhole(paths[i], r.lines);
      }
    }
  }

  lemma ExpandsWhole(path: Text, lines: seq<Text>)
    ensures Expand(lines, Quote(path)) == Some(path)
  {
    QuoteRoundTrip(path);
  }

  lemma NoRoots(paths: seq<Text>, plan: Plan)
    requires Fits(paths, plan) && plan.roots == []
    ensures Entries(paths, plan) == Originals(paths)
  {
    hide Quote;
  }

  // ---- the loops ----

  /** `pathPlan` once the candidates are ranked. */
  method ChoosePaths(paths: seq<Text>, ranked: seq<Text>, help: Text) returns (shown: Presentation)
    ensures shown == PathPlan(paths, ranked, help)
    ensures forall i :: 0 <= i < |paths| ==> i < |shown.paths| && Expand(shown.lines, shown.paths[i]) == Some(paths[i])
  {
    hide *;
    PathPlanLossless(paths, ranked, help);
    PathPlanIs(paths, ranked, help);
    var plan, left := NoAliases(paths), ranked;
    NoAliasesLength(paths);
    while left != []
      invariant |plan.entries| == |paths| && Greedy(paths, plan, left) == Greedy(paths, NoAliases(paths), ranked)
      decreases |left|
    {
      GreedyFirst(paths, plan, left);
      plan := TryRoot(paths, plan, left[0]);
      left := left[1..];
    }
    GreedyDone(paths, plan, left);
    var lines := if plan.roots == [] then [] else [help] + RootLines(plan.roots);
    var entries := Entries(paths, plan);
    if Joined(lines + entries) < Joined(Originals(paths)) {
      shown := Presentation(lines, entries);
    } else {
      shown := Presentation([], Originals(paths));
    }
  }

  /** One candidate: its paths that are still whole, and the saving summed over them. */
  method TryRoot(paths: seq<Text>, plan: Plan, prefix: Text) returns (next: Plan)
    requires |plan.entries| == |paths|
    ensures next == Consider(paths, plan, prefix) && |next.entries| == |paths|
  {
    hide Below, Shown, EntrySaving, RootLine, EntrySavings;
    var k := |plan.roots|;
    var indices := Available(paths, plan.entries, prefix);
    if |indices| < 2 { return plan; }
    var total, n := 0, 0;
    SavingsNone(paths, prefix, k);
    while n < |indices|
      invariant 0 <= n <= |indices| && total == EntrySavings(paths, indices[..n], prefix, k)
    {
      SavingsNext(paths, indices, n, prefix, k);
      total := total + EntrySaving(paths[indices[n]], prefix, k);
      n := n + 1;
    }
    assert indices[..n] == indices;
    var saving := total - (|RootLine(k, prefix)| + 1);
    if saving <= 0 { return plan; }
    next := Plan(plan.roots + [prefix], Assign(plan.entries, indices, k), plan.saved + saving);
  }

  lemma SavingsNone(paths: seq<Text>, prefix: Text, k: nat)
    ensures EntrySavings(paths, [], prefix, k) == 0
  {
  }

  lemma SavingsNext(paths: seq<Text>, indices: seq<nat>, n: nat, prefix: Text, k: nat)
    requires n < |indices| && forall x :: 0 <= x < |indices| ==> indices[x] < |paths| && Below(paths[indices[x]], prefix)
    ensures EntrySavings(paths, indices[..n + 1], prefix, k)
         == EntrySavings(paths, indices[..n], prefix, k) + EntrySaving(paths[indices[n]], prefix, k)
  {
    hide Below, EntrySaving;
    assert indices[..n + 1][..n] == indices[..n];
  }

  lemma NoAliasesLength(paths: seq<Text>)
    ensures |NoAliases(paths).entries| == |paths|
  {
  }

  lemma GreedyFirst(paths: seq<Text>, plan: Plan, ranked: seq<Text>)
    requires |plan.entries| == |paths| && ranked != []
    ensures |Consider(paths, plan, ranked[0]).entries| == |paths|
    ensures Greedy(paths, plan, ranked) == Greedy(paths, Consider(paths, plan, ranked[0]), ranked[1..])
  {
    hide Consider;
    assert |Consider(paths, plan, ranked[0]).entries| == |paths| by { ConsiderLength(paths, plan, ranked[0]); }
  }

  lemma ConsiderLength(paths: seq<Text>, plan: Plan, prefix: Text)
    requires |plan.entries| == |paths|
    ensures |Consider(paths, plan, prefix).entries| == |paths|
  {
  }

  lemma GreedyDone(paths: seq<Text>, plan: Plan, ranked: seq<Text>)
    requires |plan.entries| == |paths| && ranked == []
    ensures Greedy(paths, plan, ranked) == plan
  {
  }

  lemma PathPlanIs(paths: seq<Text>, ranked: seq<Text>, help: Text)
    ensures |NoAliases(paths).entries| == |paths|
    ensures var plan := Greedy(paths, NoAliases(paths), ranked);
      var lines := if plan.roots == [] then [] else [help] + RootLines(plan.roots);
      PathPlan(paths, ranked, help) == if Joined(lines + Entries(paths, plan)) < Joined(Originals(paths))
        then Presentation(lines, Entries(paths, plan)) else Presentation([], Originals(paths))
  {
    hide Greedy, Joined, RootLines, Entries, Originals;
  }
}
