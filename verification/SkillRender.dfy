/** The skill catalog within a character and a byte budget: descriptions grow by one code point a
    pass, and the space that is left is tracked instead of rendering again. */
module SkillRenders {
  import opened SkillTexts

  /** A skill with its shown path and its description, white space already collapsed. */
  datatype Skill = Skill(name: Text, path: Text, description: Text, implicit: bool)

  /** The fixed sentences of the catalog; their wording does not matter here. */
  datatype Wording = Wording(header: Text, shortened: Text, empty: Text, automatic: Text, explicit: Text, warnings: Text,
                             overChars: Text, overBytes: Text)

  datatype Catalog = Catalog(skills: seq<Skill>, pathLines: seq<Text>, warnings: seq<Text>, wording: Wording)

  const Ellipsis: Point := 0x2026
  const Newline: Point := 10

  // ---- the rendered text ----

  function Bar(): Text {
    [0x20, 0x7c, 0x20]
  }

  function Stem(s: Skill): Text {
    [0x2d, 0x20] + Quote(s.name) + Bar() + s.path
  }

  function AutomaticRows(skills: seq<Skill>, values: seq<Text>): seq<Text>
    requires |skills| == |values|
  {
    if skills == [] then []
    else
      var n := |skills| - 1;
      AutomaticRows(skills[..n], values[..n])
      + (if skills[n].implicit then [Stem(skills[n]) + Bar() + Quote(values[n])] else [])
  }

  function ExplicitRows(skills: seq<Skill>): seq<Text> {
    if skills == [] then []
    else
      ExplicitRows(skills[..|skills| - 1])
      + (if skills[|skills| - 1].implicit then [] else [Stem(skills[|skills| - 1])])
  }

  function WarningRows(warnings: seq<Text>): seq<Text> {
    if warnings == [] then []
    else WarningRows(warnings[..|warnings| - 1]) + [[0x2d, 0x20] + Quote(warnings[|warnings| - 1])]
  }

  predicate HasPolicy(skills: seq<Skill>, implicit: bool) {
    exists i :: 0 <= i < |skills| && skills[i].implicit == implicit
  }

  function Front(c: Catalog, note: Option<Text>): (r: seq<Text>)
    ensures r != []
  {
    [c.wording.header] + (if note.Some? then [note.value] else []) + c.pathLines
    + (if c.skills == [] then [c.wording.empty] else [])
    + (if HasPolicy(c.skills, true) then [c.wording.automatic] else [])
  }

  function Back(c: Catalog): seq<Text> {
    (if HasPolicy(c.skills, false) then [c.wording.explicit] + ExplicitRows(c.skills) else [])
    + (if c.warnings != [] then [c.wording.warnings] + WarningRows(c.warnings) else [])
  }

  function Lines(c: Catalog, values: seq<Text>, note: Option<Text>): (r: seq<Text>)
    requires |values| == |c.skills|
    ensures r != []
  {
    Front(c, note) + AutomaticRows(c.skills, values) + Back(c)
  }

  function Join(lines: seq<Text>): Text {
    if lines == [] then []
    else if |lines| == 1 then lines[0]
    else Join(lines[..|lines| - 1]) + [Newline] + lines[|lines| - 1]
  }

  /** `rows` */
  function Rows(c: Catalog, values: seq<Text>, note: Option<Text>): Text
    requires |values| == |c.skills|
  {
    Join(Lines(c, values, note))
  }

  function Descriptions(c: Catalog): (r: seq<Text>)
    ensures |r| == |c.skills|
  {
    seq(|c.skills|, i requires 0 <= i < |c.skills| => if c.skills[i].implicit then c.skills[i].description else [])
  }

  /** A description cut to `count` code points, with an ellipsis when something is missing. */
  function Clip(u: Text, count: nat): Text
    requires count <= |u|
  {
    u[..count] + (if count < |u| then [Ellipsis] else [])
  }

  predicate Bounded(units: seq<Text>, shares: seq<nat>) {
    |shares| == |units| && forall i :: 0 <= i < |units| ==> shares[i] <= |units[i]|
  }

  function Clipped(units: seq<Text>, shares: seq<nat>): (r: seq<Text>)
    requires Bounded(units, shares)
    ensures |r| == |units|
  {
    seq(|units|, i requires 0 <= i < |units| => Clip(units[i], shares[i]))
  }

  // ---- the size of the rendered text ----

  /** The lines with a line feed each. */
  function LineSum(lines: seq<Text>, m: Metric): nat {
    if lines == [] then 0 else LineSum(lines[..|lines| - 1], m) + Size(lines[|lines| - 1], m) + 1
  }

  lemma {:induction false} JoinSize(lines: seq<Text>, m: Metric)
    requires lines != []
    ensures Size(Join(lines), m) + 1 == LineSum(lines, m)
  {
    var n := |lines| - 1;
    if n > 0 {
      hide Size;
      JoinSize(lines[..n], m);
      SizeConcat(Join(lines[..n]), [Newline], m);
      SizeConcat(Join(lines[..n]) + [Newline], lines[n], m);
      OneSize(Newline, m);
    } else {
      assert LineSum(lines[..0], m) == 0;
    }
  }

  lemma OneSize(c: Point, m: Metric)
    ensures Size([c], m) == PointSize(c, m)
  {
    assert Size([], m) == 0;
  }

  lemma {:induction false} LineSumConcat(a: seq<Text>, b: seq<Text>, m: Metric)
    ensures LineSum(a + b, m) == LineSum(a, m) + LineSum(b, m)
  {
    hide Size;
    if b == [] {
      assert a + b == a;
    } else {
      assert (a + b)[..|a + b| - 1] == a + b[..|b| - 1];
      LineSumConcat(a, b[..|b| - 1], m);
    }
  }

  lemma OneLine(line: Text, m: Metric)
    ensures LineSum([line], m) == Size(line, m) + 1
  {
    assert [line][..0] == [];
    hide Size;
  }

  /** Changing the value of one automatic skill changes only its quoted description. */
  lemma {:induction false} RowsChange(skills: seq<Skill>, values: seq<Text>, i: nat, v: Text, m: Metric)
    requires i < |skills| == |values| && skills[i].implicit
    ensures LineSum(AutomaticRows(skills, values[i := v]), m) + Size(Quote(values[i]), m)
         == LineSum(AutomaticRows(skills, values), m) + Size(Quote(v), m)
  {
    hide LineSum, Size, Stem, Quote, Bar;
    var n := |skills| - 1;
    if i < n {
      assert values[i := v][..n] == values[..n][i := v];
      RowsChange(skills[..n], values[..n], i, v, m);
      var last := if skills[n].implicit then [Stem(skills[n]) + Bar() + Quote(values[n])] else [];
      LineSumConcat(AutomaticRows(skills[..n], values[..n]), last, m);
      LineSumConcat(AutomaticRows(skills[..n], values[..n][i := v]), last, m);
    } else {
      assert values[i := v][..n] == values[..n];
      var rows, stem := AutomaticRows(skills[..n], values[..n]), Stem(skills[n]) + Bar();
      LineSumConcat(rows, [stem + Quote(values[i])], m);
      LineSumConcat(rows, [stem + Quote(v)], m);
      OneLine(stem + Quote(values[i]), m);
      OneLine(stem + Quote(v), m);
      SizeConcat(stem, Quote(values[i]), m);
      SizeConcat(stem, Quote(v), m);
    }
  }

  lemma SizeChange(c: Catalog, values: seq<Text>, note: Option<Text>, i: nat, v: Text, m: Metric)
    requires i < |c.skills| == |values| && c.skills[i].implicit
    ensures Size(Rows(c, values[i := v], note), m) + Size(Quote(values[i]), m)
         == Size(Rows(c, values, note), m) + Size(Quote(v), m)
  {
    hide *;
    LinesSum(c, values, note, m);
    LinesSum(c, values[i := v], note, m);
    RowsChange(c.skills, values, i, v, m);
  }

  lemma LinesSum(c: Catalog, values: seq<Text>, note: Option<Text>, m: Metric)
    requires |c.skills| == |values|
    ensures Size(Rows(c, values, note), m) + 1
         == LineSum(Front(c, note), m) + LineSum(AutomaticRows(c.skills, values), m) + LineSum(Back(c), m)
  {
    hide LineSum, Size, Front, Back, AutomaticRows, Join;
    JoinSize(Lines(c, values, note), m);
    LineSumConcat(Front(c, note), AutomaticRows(c.skills, values), m);
    LineSumConcat(Front(c, note) + AutomaticRows(c.skills, values), Back(c), m);
  }

  // ---- one more code point ----

  function EllipsisSize(m: Metric): nat {
    if m == Chars then 1 else 3
  }

  /** What the next code point of a description adds; the last one also removes the ellipsis. */
  function Delta(u: Text, position: nat, m: Metric): int
    requires position < |u|
  {
    Size(Quote([u[position]]), m) - 2 - (if position + 1 == |u| then EllipsisSize(m) else 0)
  }

  lemma EllipsisQuote(m: Metric)
    ensures Size(Quote([Ellipsis]), m) == EllipsisSize(m) + 2
  {
    assert EscapeAll([Ellipsis]) == [Ellipsis];
    QuoteSize([Ellipsis], m);
    OneSize(Ellipsis, m);
  }

  lemma ClipGrows(u: Text, position: nat, m: Metric)
    requires position < |u|
    ensures Size(Quote(Clip(u, position + 1)), m) == Size(Quote(Clip(u, position)), m) + Delta(u, position, m)
  {
    hide Quote, Size;
    var a := u[..position];
    var x := [u[position]];
    assert u[..position + 1] == a + x;
    QuoteConcat(a, x, m);
    QuoteConcat(a, [Ellipsis], m);
    QuoteConcat(a + x, [Ellipsis], m);
    EllipsisQuote(m);
    assert position + 1 == |u| ==> Clip(u, position + 1) == a + x;
  }

  function Taken(shares: seq<nat>, i: nat): (r: seq<nat>)
    requires i < |shares|
    ensures |r| == |shares|
  {
    shares[i := shares[i] + 1]
  }

  /** The description of an explicit-only skill is empty, so it can never grow. */
  predicate Silent(c: Catalog, units: seq<Text>) {
    |units| == |c.skills| && forall i :: 0 <= i < |units| && units[i] != [] ==> c.skills[i].implicit
  }

  function Catalogue(c: Catalog, units: seq<Text>, shares: seq<nat>): Text
    requires |units| == |c.skills| && Bounded(units, shares)
  {
    Rows(c, Clipped(units, shares), Some(c.wording.shortened))
  }

  lemma TakeSize(c: Catalog, units: seq<Text>, shares: seq<nat>, i: nat, m: Metric)
    requires Silent(c, units) && Bounded(units, shares) && i < |units| && shares[i] < |units[i]|
    ensures Bounded(units, Taken(shares, i))
    ensures Size(Catalogue(c, units, Taken(shares, i)), m) == Size(Catalogue(c, units, shares), m) + Delta(units[i], shares[i], m)
  {
    hide Rows, Size, Clip, Quote, Delta;
    var v := Clip(units[i], shares[i] + 1);
    assert Clipped(units, Taken(shares, i)) == Clipped(units, shares)[i := v];
    SizeChange(c, Clipped(units, shares), Some(c.wording.shortened), i, v, m);
    ClipGrows(units[i], shares[i], m);
  }

  // ---- the budgets ----

  datatype Budget = Budget(chars: nat, bytes: Option<nat>)

  predicate Within(t: Text, b: Budget) {
    Size(t, Chars) <= b.chars && (b.bytes.Some? ==> Size(t, Bytes) <= b.bytes.value)
  }

  /** No unfinished description can take its next code point. */
  predicate Maximal(c: Catalog, units: seq<Text>, shares: seq<nat>, b: Budget)
    requires |units| == |c.skills| && Bounded(units, shares)
  {
    forall i :: 0 <= i < |units| && shares[i] < |units[i]| ==>
      Bounded(units, Taken(shares, i)) && !Within(Catalogue(c, units, Taken(shares, i)), b)
  }

  /** What is left of both budgets; an infinite one stays infinite. */
  predicate Tracks(c: Catalog, units: seq<Text>, shares: seq<nat>, b: Budget, remaining: int, bytesRemaining: Option<int>)
    requires |units| == |c.skills| && Bounded(units, shares)
  {
    && remaining == b.chars - Size(Catalogue(c, units, shares), Chars)
    && bytesRemaining.Some? == b.bytes.Some?
    && (b.bytes.Some? ==> bytesRemaining.value == b.bytes.value - Size(Catalogue(c, units, shares), Bytes))
  }

  predicate DeltaFits(u: Text, position: nat, remaining: int, bytesRemaining: Option<int>)
    requires position < |u|
  {
    Delta(u, position, Chars) <= remaining && (bytesRemaining.None? || Delta(u, position, Bytes) <= bytesRemaining.value)
  }

  /** The tracked check is the real one: the next code point fits exactly when the catalog with it
      is within both budgets. */
  lemma DeltaTest(c: Catalog, units: seq<Text>, shares: seq<nat>, b: Budget, remaining: int, bytesRemaining: Option<int>, i: nat)
    requires Silent(c, units) && Bounded(units, shares) && i < |units| && shares[i] < |units[i]|
    requires Tracks(c, units, shares, b, remaining, bytesRemaining)
    ensures Bounded(units, Taken(shares, i))
    ensures DeltaFits(units[i], shares[i], remaining, bytesRemaining) <==> Within(Catalogue(c, units, Taken(shares, i)), b)
    ensures Tracks(c, units, Taken(shares, i), b, remaining - Delta(units[i], shares[i], Chars),
                   if bytesRemaining.None? then None else Some(bytesRemaining.value - Delta(units[i], shares[i], Bytes)))
  {
    hide Catalogue, Delta, Size, Silent, Bounded;
    TakeSize(c, units, shares, i, Chars);
    TakeSize(c, units, shares, i, Bytes);
  }

  // ---- the allocation loop ----

  function Slack(units: seq<Text>, shares: seq<nat>): int
    requires |units| == |shares|
  {
    if units == [] then 0
    else Slack(units[..|units| - 1], shares[..|units| - 1]) + |units[|units| - 1]| - shares[|units| - 1]
  }

  lemma {:induction false} SlackTaken(units: seq<Text>, shares: seq<nat>, i: nat)
    requires i < |units| == |shares|
    ensures Slack(units, Taken(shares, i)) == Slack(units, shares) - 1
  {
    var n := |units| - 1;
    if i < n {
      assert Taken(shares, i)[..n] == Taken(shares[..n], i);
      SlackTaken(units[..n], shares[..n], i);
    } else {
      assert Taken(shares, i)[..n] == shares[..n];
    }
  }

  lemma {:induction false} SlackNatural(units: seq<Text>, shares: seq<nat>)
    requires Bounded(units, shares)
    ensures Slack(units, shares) >= 0
  {
    if units != [] { SlackNatural(units[..|units| - 1], shares[..|units| - 1]); }
  }

  predicate Active(active: seq<nat>, units: seq<Text>, shares: seq<nat>)
    requires |units| == |shares|
  {
    && (forall x :: 0 <= x < |active| ==> active[x] < |units|)
    && (forall i :: 0 <= i < |units| && shares[i] < |units[i]| ==> i in active)
    && (forall x :: 0 <= x < |active| ==> shares[active[x]] < |units[active[x]]|)
    && (forall x, y :: 0 <= x < y < |active| ==> active[x] != active[y])
  }

  /** The space that is left is exact and not negative. */
  predicate Exact(c: Catalog, units: seq<Text>, shares: seq<nat>, b: Budget, remaining: int, bytesRemaining: Option<int>) {
    && |units| == |c.skills| && Bounded(units, shares)
    && Tracks(c, units, shares, b, remaining, bytesRemaining)
    && remaining >= 0 && (bytesRemaining.Some? ==> bytesRemaining.value >= 0)
  }

  lemma ExactTake(c: Catalog, units: seq<Text>, shares: seq<nat>, b: Budget, remaining: int, bytesRemaining: Option<int>, i: nat)
    requires Silent(c, units) && Exact(c, units, shares, b, remaining, bytesRemaining) && i < |units| && shares[i] < |units[i]|
    requires DeltaFits(units[i], shares[i], remaining, bytesRemaining)
    ensures Exact(c, units, Taken(shares, i), b, remaining - Delta(units[i], shares[i], Chars),
                  if bytesRemaining.None? then None else Some(bytesRemaining.value - Delta(units[i], shares[i], Bytes)))
    ensures Slack(units, Taken(shares, i)) == Slack(units, shares) - 1
  {
    hide Tracks, Silent, Delta, Within;
    DeltaTest(c, units, shares, b, remaining, bytesRemaining, i);
    SlackTaken(units, shares, i);
  }

  /** No active description can take its next code point. */
  predicate Blocked(units: seq<Text>, shares: seq<nat>, remaining: int, bytesRemaining: Option<int>, i: nat) {
    i < |units| && i < |shares| && (shares[i] < |units[i]| ==> !DeltaFits(units[i], shares[i], remaining, bytesRemaining))
  }

  /** One description takes its next code point if both budgets allow it. */
  method TakeNext(c: Catalog, units: seq<Text>, b: Budget, shares0: seq<nat>, remaining0: int, bytesRemaining0: Option<int>, i: nat)
    returns (shares: seq<nat>, remaining: int, bytesRemaining: Option<int>, took: bool)
    requires Silent(c, units) && Exact(c, units, shares0, b, remaining0, bytesRemaining0)
    requires i < |units| == |shares0| && shares0[i] < |units[i]|
    ensures Exact(c, units, shares, b, remaining, bytesRemaining)
    ensures took ==> shares == Taken(shares0, i) && Slack(units, shares) < Slack(units, shares0)
    ensures !took ==> shares == shares0 && remaining == remaining0 && bytesRemaining == bytesRemaining0
    ensures !took ==> Blocked(units, shares, remaining, bytesRemaining, i)
    ensures |shares| == |units|
  {
    hide Silent, Exact, DeltaFits, Slack, Blocked, Delta;
    shares, remaining, bytesRemaining := shares0, remaining0, bytesRemaining0;
    var u, position := units[i], shares[i];
    took := DeltaFits(u, position, remaining, bytesRemaining);
    if took {
      ExactTake(c, units, shares, b, remaining, bytesRemaining, i);
      shares := Taken(shares, i);
      remaining := remaining - Delta(u, position, Chars);
      if bytesRemaining.Some? { bytesRemaining := Some(bytesRemaining.value - Delta(u, position, Bytes)); }
    } else {
      BlockedHere(units, shares, remaining, bytesRemaining, i);
    }
  }

  /** One pass: each active description may grow by one code point. */
  method Pass(c: Catalog, units: seq<Text>, b: Budget, shares0: seq<nat>, remaining0: int, bytesRemaining0: Option<int>, active: seq<nat>)
    returns (shares: seq<nat>, remaining: int, bytesRemaining: Option<int>, next: seq<nat>, changed: bool)
    requires Silent(c, units) && |units| == |shares0|
    requires Exact(c, units, shares0, b, remaining0, bytesRemaining0) && Active(active, units, shares0)
    ensures |units| == |shares| && Exact(c, units, shares, b, remaining, bytesRemaining) && Active(next, units, shares)
    ensures changed ==> Slack(units, shares) < Slack(units, shares0)
    ensures !changed ==> forall x :: 0 <= x < |active| ==> Blocked(units, shares, remaining, bytesRemaining, active[x])
    ensures !changed ==> shares == shares0
    ensures Grown(shares0, shares, active)
  {
    hide *;
    shares, remaining, bytesRemaining, next, changed := shares0, remaining0, bytesRemaining0, [], false;
    ActiveParts(active, units, shares0);
    PassStarts(units, shares0, active);
    var k := 0;
    while k < |active|
      invariant 0 <= k <= |active| && |shares| == |units|
      invariant Exact(c, units, shares, b, remaining, bytesRemaining)
      invariant Grown(shares0, shares, active[..k])
      invariant Kept(next, active[..k], units, shares)
      invariant changed ==> Slack(units, shares) < Slack(units, shares0)
      invariant !changed ==> shares == shares0 && forall x :: 0 <= x < k ==> Blocked(units, shares, remaining, bytesRemaining, active[x])
    {
      var i := active[k];
      assert i !in active[..k];
      ghost var before := shares;
      GrownAt(shares0, shares, active[..k], i);
      var took;
      shares, remaining, bytesRemaining, took := TakeNext(c, units, b, shares, remaining, bytesRemaining, i);
      changed := changed || took;
      TakenElsewhere(before, i);
      KeptStep(next, active, k, units, before, shares);
      GrownStep(shares0, before, shares, active, k);
      if shares[i] < |units[i]| { next := next + [i]; }
      k := k + 1;
    }
    assert active[..|active|] == active;
    NextActive(next, active, units, shares0, shares);
  }

  lemma TakenElsewhere(shares: seq<nat>, i: nat)
    requires i < |shares|
    ensures forall j :: 0 <= j < |shares| && j != i ==> Taken(shares, i)[j] == shares[j]
  {
  }

  lemma GrownAt(shares0: seq<nat>, shares: seq<nat>, visited: seq<nat>, i: nat)
    requires Grown(shares0, shares, visited) && i < |shares0| && i !in visited
    ensures i < |shares| && shares[i] == shares0[i]
  {
  }

  lemma PassStarts(units: seq<Text>, shares: seq<nat>, active: seq<nat>)
    requires |units| == |shares|
    ensures Grown(shares, shares, active[..0]) && Kept([], active[..0], units, shares)
  {
  }

  lemma BlockedHere(units: seq<Text>, shares: seq<nat>, remaining: int, bytesRemaining: Option<int>, i: nat)
    requires i < |units| == |shares| && shares[i] < |units[i]| && !DeltaFits(units[i], shares[i], remaining, bytesRemaining)
    ensures Blocked(units, shares, remaining, bytesRemaining, i)
  {
  }

  lemma ActiveParts(active: seq<nat>, units: seq<Text>, shares: seq<nat>)
    requires |units| == |shares| && Active(active, units, shares)
    ensures forall x :: 0 <= x < |active| ==> active[x] < |units| && shares[active[x]] < |units[active[x]]|
    ensures forall x, y :: 0 <= x < y < |active| ==> active[x] != active[y]
  {
  }

  lemma ExactParts(c: Catalog, units: seq<Text>, shares: seq<nat>, b: Budget, remaining: int, bytesRemaining: Option<int>)
    requires Exact(c, units, shares, b, remaining, bytesRemaining)
    ensures |units| == |c.skills| == |shares| && Bounded(units, shares)
  {
  }

  /** Only what was visited has grown, by one at most. */
  predicate Grown(shares0: seq<nat>, shares: seq<nat>, visited: seq<nat>) {
    && |shares| == |shares0|
    && (forall i :: 0 <= i < |shares| && i !in visited ==> shares[i] == shares0[i])
    && (forall i :: 0 <= i < |shares| ==> shares0[i] <= shares[i] <= shares0[i] + 1)
  }

  lemma GrownStep(shares0: seq<nat>, before: seq<nat>, shares: seq<nat>, active: seq<nat>, k: nat)
    requires k < |active| && active[k] < |before| && Grown(shares0, before, active[..k]) && active[k] !in active[..k]
    requires shares == before || shares == Taken(before, active[k])
    ensures Grown(shares0, shares, active[..k + 1])
  {
    assert active[..k + 1] == active[..k] + [active[k]];
  }

  lemma NextActive(next: seq<nat>, active: seq<nat>, units: seq<Text>, shares0: seq<nat>, shares: seq<nat>)
    requires |units| == |shares0| && Active(active, units, shares0)
    requires Grown(shares0, shares, active) && Kept(next, active, units, shares)
    ensures Active(next, units, shares)
  {
  }

  /** `next` lists the unfinished ones among those already visited. */
  predicate Kept(next: seq<nat>, visited: seq<nat>, units: seq<Text>, shares: seq<nat>) {
    && |shares| == |units|
    && (forall x :: 0 <= x < |next| ==> next[x] < |units| && next[x] in visited && shares[next[x]] < |units[next[x]]|)
    && (forall i :: i in visited && i < |units| && shares[i] < |units[i]| ==> i in next)
    && (forall x, y :: 0 <= x < y < |next| ==> next[x] != next[y])
  }

  lemma KeptStep(next: seq<nat>, active: seq<nat>, k: nat, units: seq<Text>, before: seq<nat>, shares: seq<nat>)
    requires k < |active| && Kept(next, active[..k], units, before) && |shares| == |units| && active[k] < |units|
    requires active[k] !in active[..k]
    requires forall i :: 0 <= i < |units| && i != active[k] ==> shares[i] == before[i]
    ensures Kept(if shares[active[k]] < |units[active[k]]| then next + [active[k]] else next, active[..k + 1], units, shares)
  {
    assert active[..k + 1] == active[..k] + [active[k]];
  }

  lemma BlockedMaximal(c: Catalog, units: seq<Text>, shares: seq<nat>, b: Budget, remaining: int, bytesRemaining: Option<int>, active: seq<nat>)
    requires Silent(c, units) && Exact(c, units, shares, b, remaining, bytesRemaining) && Active(active, units, shares)
    requires forall x :: 0 <= x < |active| ==> Blocked(units, shares, remaining, bytesRemaining, active[x])
    ensures Maximal(c, units, shares, b)
  {
    hide Silent, DeltaFits, Tracks, Within, Catalogue;
    forall i | 0 <= i < |units| && shares[i] < |units[i]|
      ensures Bounded(units, Taken(shares, i)) && !Within(Catalogue(c, units, Taken(shares, i)), b)
    {
      assert i in active;
      var x :| 0 <= x < |active| && active[x] == i;
      assert Blocked(units, shares, remaining, bytesRemaining, active[x]);
      DeltaTest(c, units, shares, b, remaining, bytesRemaining, i);
    }
  }

  lemma ExactWithin(c: Catalog, units: seq<Text>, shares: seq<nat>, b: Budget, remaining: int, bytesRemaining: Option<int>)
    requires Exact(c, units, shares, b, remaining, bytesRemaining)
    ensures |units| == |c.skills| && Bounded(units, shares) && Within(Catalogue(c, units, shares), b)
  {
    hide Size, Catalogue;
  }

  function Zeros(units: seq<Text>): (r: seq<nat>)
    ensures Bounded(units, r)
  {
    seq(|units|, _ => 0)
  }

  /** The allocation loop: the result is within both budgets, and nothing more would be. */
  method Allocate(c: Catalog, units: seq<Text>, b: Budget) returns (shares: seq<nat>)
    requires Silent(c, units) && Within(Catalogue(c, units, Zeros(units)), b)
    ensures Bounded(units, shares) && Within(Catalogue(c, units, shares), b) && Maximal(c, units, shares, b)
  {
    shares := Zeros(units);
    var remaining: int := b.chars - Size(Catalogue(c, units, shares), Chars);
    var bytesRemaining: Option<int> := if b.bytes.None? then None else Some(b.bytes.value - Size(Catalogue(c, units, shares), Bytes));
    var active := Unfinished(units);
    assert Exact(c, units, shares, b, remaining, bytesRemaining);
    hide Within, Catalogue, Size, Tracks, Exact, Active, Maximal, Blocked, Slack, Bounded;
    while active != []
      invariant |shares| == |units| && Exact(c, units, shares, b, remaining, bytesRemaining) && Active(active, units, shares)
      decreases Slack(units, shares)
    {
      SlackExact(c, units, shares, b, remaining, bytesRemaining);
      var next, changed;
      ghost var before := shares;
      shares, remaining, bytesRemaining, next, changed := Pass(c, units, b, shares, remaining, bytesRemaining, active);
      ExactParts(c, units, shares, b, remaining, bytesRemaining);
      if !changed {
        BlockedMaximal(c, units, shares, b, remaining, bytesRemaining, active);
        ExactWithin(c, units, shares, b, remaining, bytesRemaining);
        return;
      }
      SlackExact(c, units, shares, b, remaining, bytesRemaining);
      active := next;
    }
    BlockedMaximal(c, units, shares, b, remaining, bytesRemaining, active);
    ExactWithin(c, units, shares, b, remaining, bytesRemaining);
  }

  lemma SlackExact(c: Catalog, units: seq<Text>, shares: seq<nat>, b: Budget, remaining: int, bytesRemaining: Option<int>)
    requires Exact(c, units, shares, b, remaining, bytesRemaining)
    ensures |units| == |shares| && Slack(units, shares) >= 0
  {
    SlackNatural(units, shares);
  }

  /** The indices of the descriptions that are not empty. */
  method Unfinished(units: seq<Text>) returns (active: seq<nat>)
    ensures Active(active, units, Zeros(units))
  {
    active := [];
    var i := 0;
    while i < |units|
      invariant 0 <= i <= |units|
      invariant forall x :: 0 <= x < |active| ==> active[x] < i && units[active[x]] != []
      invariant forall j :: 0 <= j < i && units[j] != [] ==> j in active
      invariant forall x, y :: 0 <= x < y < |active| ==> active[x] != active[y]
    {
      if units[i] != [] { active := active + [i]; }
      i := i + 1;
    }
  }

  lemma DescriptionsSilent(c: Catalog)
    ensures Silent(c, Descriptions(c))
  {
  }

  /** `renderSkills`: everything when it fits; otherwise the minimum form with as much of each
      description as fits; and when even that form is too large, the minimum form that says so. */
  method RenderSkills(c: Catalog, b: Budget) returns (text: Text, shares: seq<nat>)
    ensures Bounded(Descriptions(c), shares)
    ensures var full := Rows(c, Descriptions(c), None);
      var minimum := Catalogue(c, Descriptions(c), Zeros(Descriptions(c)));
      && (Within(full, b) ==> text == full)
      && (!Within(full, b) && Within(minimum, b) ==>
            text == Catalogue(c, Descriptions(c), shares) && Maximal(c, Descriptions(c), shares, b))
      && (!Within(full, b) && !Within(minimum, b) ==>
            shares == Zeros(Descriptions(c)) &&
            text == Rows(c, Clipped(Descriptions(c), shares), Some(if Size(minimum, Chars) > b.chars then c.wording.overChars else c.wording.overBytes)))
      && (Within(full, b) || Within(minimum, b) ==> Within(text, b))
  {
    hide Within, Rows, Size, Maximal, Clipped;
    var units := Descriptions(c);
    shares := Zeros(units);
    text := Rows(c, units, None);
    if Within(text, b) { return; }
    var minimum := Catalogue(c, units, shares);
    if !Within(minimum, b) {
      var note := if Size(minimum, Chars) > b.chars then c.wording.overChars else c.wording.overBytes;
      text := Rows(c, Clipped(units, shares), Some(note));
      return;
    }
    DescriptionsSilent(c);
    shares := Allocate(c, units, b);
    text := Catalogue(c, units, shares);
  }
}
