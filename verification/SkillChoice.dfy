/** Which aliases the catalog chooses, what they stand for, and what its quotes let through. */
module SkillChoices {
  import opened SkillTexts
  import opened SkillPaths
  import J = Jsons

  // ---- quotes ----

  const Directional: seq<Point> := [0x202a, 0x202b, 0x202c, 0x202d, 0x202e, 0x2066, 0x2067, 0x2068, 0x2069]

  /** Characters that end a line, turn its direction, or are half of one. */
  predicate Unsafe(c: Point) {
    c < 0x20 || c == 0x2028 || c == 0x2029 || c in Directional || 0xd800 <= c <= 0xdfff
  }

  /** Characters with a two-character escape of their own. */
  predicate Short(c: Point) {
    c == '"' as int || c == '\\' as int || c == '\n' as int || c == '\r' as int || c == '\t' as int || c == 8 || c == 12
  }

  lemma UnsafeIs(c: Point)
    ensures Unsafe(c) <==> c < 0x20 || Surrogate(c) || Control(c)
  {
    var d := Directional;
    assert d[0] == 0x202a && d[1] == 0x202b && d[2] == 0x202c && d[3] == 0x202d && d[4] == 0x202e;
    assert d[5] == 0x2066 && d[6] == 0x2067 && d[7] == 0x2068 && d[8] == 0x2069;
  }

  lemma EscapedSafe(c: Point)
    ensures forall i :: 0 <= i < |Escape(c)| ==> !Unsafe(Escape(c)[i])
    ensures Escape(c) == [c] <==> !Unsafe(c) && c != '"' as int && c != '\\' as int
    ensures |Escape(c)| == if Short(c) then 2 else if Unsafe(c) then 6 else 1
  {
    UnsafeIs(c);
    forall i | 0 <= i < |Escape(c)| ensures !Unsafe(Escape(c)[i]) {
      UnsafeIs(Escape(c)[i]);
    }
    hide Unsafe;
  }

  /** A character that a quote shows as it is. */
  predicate Plain(c: Point) {
    !Unsafe(c) && c != '"' as int && c != '\\' as int
  }

  predicate AllPlain(t: Text) {
    forall i :: 0 <= i < |t| ==> Plain(t[i])
  }

  lemma {:induction false} EscapedAll(t: Text)
    ensures forall i :: 0 <= i < |EscapeAll(t)| ==> !Unsafe(EscapeAll(t)[i])
    ensures EscapeAll(t) == t <==> AllPlain(t)
    ensures |EscapeAll(t)| >= |t| && (|EscapeAll(t)| == |t| ==> EscapeAll(t) == t)
  {
    if t != [] {
      EscapedSafe(t[0]);
      EscapedAll(t[1..]);
      hide Escape, Unsafe;
      assert t == [t[0]] + t[1..];
      assert AllPlain(t) <==> Plain(t[0]) && AllPlain(t[1..]);
    }
  }

  /** A quoted text never leaves its line or its direction, and is shown as it is exactly when it
      has nothing to escape. */
  lemma QuotedExactly(t: Text)
    ensures forall i :: 0 <= i < |Quote(t)| ==> !Unsafe(Quote(t)[i])
    ensures Quote(t) == ['"' as int] + t + ['"' as int] <==> AllPlain(t)
  {
    EscapedAll(t);
    var q := ['"' as int];
    assert (q + t + q)[1..|t| + 1] == t && |q + t + q| == |t| + 2;
    assert Quote(t)[1..|Quote(t)| - 1] == EscapeAll(t);
  }

  // ---- what an alias saves ----

  /** Every path below a prefix saves the same number of characters. */
  lemma SavesAlike(path: Text, prefix: Text, k: nat)
    requires Below(path, prefix)
    ensures EntrySaving(path, prefix, k) == |Quote(prefix)| - |AliasName(k)| - 6
  {
    hide Below, AliasName;
    BelowPrefix(path, prefix);
    var suffix := path[|prefix|..];
    assert path == prefix + suffix;
    EscapeConcat(prefix, suffix);
    hide EscapeAll;
  }

  lemma {:induction false} SavesEach(paths: seq<Text>, indices: seq<nat>, prefix: Text, k: nat)
    requires forall x :: 0 <= x < |indices| ==> indices[x] < |paths| && Below(paths[indices[x]], prefix)
    ensures EntrySavings(paths, indices, prefix, k) == |indices| * (|Quote(prefix)| - |AliasName(k)| - 6)
  {
    hide Below, EntrySaving, AliasName, Quote;
    if indices != [] {
      var n := |indices| - 1;
      SavesEach(paths, indices[..n], prefix, k);
      SavesAlike(paths[indices[n]], prefix, k);
    }
  }

  lemma {:induction false} DigitsGrow(a: nat, b: nat)
    requires a <= b
    ensures J.Digits(a) <= J.Digits(b)
  {
    if a >= 10 { DigitsGrow(a / 10, b / 10); }
  }

  lemma NamesGrow(a: nat, b: nat)
    requires a <= b
    ensures |AliasName(a)| <= |AliasName(b)|
  {
    DigitsGrow(a, b);
  }

  /** Fewer paths under a later alias save no more, unless they save nothing anyway. */
  lemma SavesLess(m: nat, n: nat, a: int, b: int)
    requires m <= n && a <= b
    ensures m * a <= n * b || m * a <= 0
  {
    if a > 0 {
      assert m * a <= n * a && n * a <= n * b;
    }
  }

  // ---- the choice ----

  /** Another alias for this prefix would still shorten two paths or more, and the whole by at
      least one character. */
  predicate Worthwhile(paths: seq<Text>, plan: Plan, prefix: Text)
    requires |plan.entries| == |paths|
  {
    var left := Available(paths, plan.entries, prefix);
    |left| >= 2 && Saving(paths, left, prefix, |plan.roots|) >= 1
  }

  /** A later plan: more roots, and fewer paths that are shown whole. */
  predicate Later(a: Plan, b: Plan) {
    && |a.entries| == |b.entries| && |a.roots| <= |b.roots|
    && forall i :: 0 <= i < |a.entries| && b.entries[i].Whole? ==> a.entries[i].Whole?
  }

  lemma {:induction false} FewerAvailable(paths: seq<Text>, a: seq<Entry>, b: seq<Entry>, prefix: Text)
    requires |a| == |b| == |paths| && forall i :: 0 <= i < |a| && b[i].Whole? ==> a[i].Whole?
    ensures |Available(paths, b, prefix)| <= |Available(paths, a, prefix)|
  {
    hide Below;
    if paths != [] {
      var n := |paths| - 1;
      FewerAvailable(paths[..n], a[..n], b[..n], prefix);
    }
  }

  lemma SavingIs(paths: seq<Text>, indices: seq<nat>, prefix: Text, k: nat)
    requires forall x :: 0 <= x < |indices| ==> indices[x] < |paths| && Below(paths[indices[x]], prefix)
    ensures Saving(paths, indices, prefix, k) ==
      |indices| * (|Quote(prefix)| - |AliasName(k)| - 6) - |AliasName(k)| - |Quote(prefix)| - 4
  {
    SavesEach(paths, indices, prefix, k);
    hide Below, EntrySavings, Quote, AliasName;
  }

  /** What `n` paths save together, and whether that is worth it. */
  predicate Gain(n: nat, quoted: int, named: int) {
    n >= 2 && n * (quoted - named - 6) - named - quoted - 4 >= 1
  }

  lemma WorthIs(paths: seq<Text>, plan: Plan, prefix: Text)
    requires |plan.entries| == |paths|
    ensures Worthwhile(paths, plan, prefix) <==>
      Gain(|Available(paths, plan.entries, prefix)|, |Quote(prefix)|, |AliasName(|plan.roots|)|)
  {
    SavingIs(paths, Available(paths, plan.entries, prefix), prefix, |plan.roots|);
    hide Available, Below, Saving, Quote, AliasName;
  }

  lemma NoLaterGain(m: nat, n: nat, quoted: int, a: nat, b: nat)
    requires m <= n && a <= b && quoted >= 0 && !Gain(n, quoted, a)
    ensures !Gain(m, quoted, b)
  {
    SavesLess(m, n, quoted - b - 6, quoted - a - 6);
  }

  /** What is not worth an alias does not become so later. */
  lemma StaysWorthless(paths: seq<Text>, a: Plan, b: Plan, prefix: Text)
    requires |a.entries| == |paths| && Later(a, b) && !Worthwhile(paths, a, prefix)
    ensures |b.entries| == |paths| && !Worthwhile(paths, b, prefix)
  {
    FewerAvailable(paths, a.entries, b.entries, prefix);
    WorthIs(paths, a, prefix);
    WorthIs(paths, b, prefix);
    NamesGrow(|a.roots|, |b.roots|);
    hide Available, Quote, AliasName, Worthwhile, Gain;
    NoLaterGain(|Available(paths, b.entries, prefix)|, |Available(paths, a.entries, prefix)|, |Quote(prefix)|,
                |AliasName(|a.roots|)|, |AliasName(|b.roots|)|);
  }

  lemma LaterChain(a: Plan, b: Plan, c: Plan)
    requires Later(a, b) && Later(b, c)
    ensures Later(a, c)
  {
  }

  /** A candidate that is worth an alias gets one at once, and leaves no path for itself. */
  lemma ConsideredOnce(paths: seq<Text>, plan: Plan, prefix: Text)
    requires |plan.entries| == |paths|
    ensures var r := Consider(paths, plan, prefix);
      && |r.entries| == |paths| && Later(plan, r) && !Worthwhile(paths, r, prefix)
      && (if Worthwhile(paths, plan, prefix) then r.roots == plan.roots + [prefix] && r.saved > plan.saved else r == plan)
  {
    var all := Available(paths, plan.entries, prefix);
    var r := Consider(paths, plan, prefix);
    var rest := Available(paths, r.entries, prefix);
    hide Below, Saving;
    if r != plan && rest != [] {
      AvailableAll(paths, plan.entries, prefix, rest[0]);
    }
  }

  lemma {:induction false} GreedyLater(paths: seq<Text>, plan: Plan, ranked: seq<Text>)
    requires |plan.entries| == |paths|
    ensures Later(plan, Greedy(paths, plan, ranked))
    decreases |ranked|
  {
    if ranked != [] {
      ConsideredOnce(paths, plan, ranked[0]);
      var next := Consider(paths, plan, ranked[0]);
      GreedyLater(paths, next, ranked[1..]);
      LaterChain(plan, next, Greedy(paths, next, ranked[1..]));
      hide Consider, Later, Worthwhile;
    }
  }

  /** Every alias saves at least one character, and at the end none of the candidates is worth one
      more. */
  lemma {:induction false} NothingLeft(paths: seq<Text>, plan: Plan, ranked: seq<Text>)
    requires |plan.entries| == |paths|
    ensures var r := Greedy(paths, plan, ranked);
      && (forall j :: 0 <= j < |ranked| ==> !Worthwhile(paths, r, ranked[j]))
      && r.saved - plan.saved >= |r.roots| - |plan.roots|
    decreases |ranked|
  {
    if ranked != [] {
      var next := Consider(paths, plan, ranked[0]);
      var r := Greedy(paths, plan, ranked);
      ConsideredOnce(paths, plan, ranked[0]);
      GreedyLater(paths, next, ranked[1..]);
      NothingLeft(paths, next, ranked[1..]);
      StaysWorthless(paths, next, r, ranked[0]);
      hide Consider, Later, Worthwhile;
      forall j | 0 <= j < |ranked| ensures !Worthwhile(paths, r, ranked[j]) {
        if j > 0 { assert ranked[1..][j - 1] == ranked[j]; }
      }
    }
  }

  /** The first candidate that is worth an alias gets the first one. */
  lemma FirstComesFirst(paths: seq<Text>, ranked: seq<Text>, j: nat)
    requires j < |ranked| && Worthwhile(paths, NoAliases(paths), ranked[j])
    requires forall i :: 0 <= i < j ==> !Worthwhile(paths, NoAliases(paths), ranked[i])
    ensures var roots := Greedy(paths, NoAliases(paths), ranked).roots; roots != [] && roots[0] == ranked[j]
  {
    SkipsWorthless(paths, NoAliases(paths), ranked, j);
    ConsideredOnce(paths, NoAliases(paths), ranked[j]);
    hide Worthwhile, Consider;
    GreedyPrefix(paths, Consider(paths, NoAliases(paths), ranked[j]), ranked[j + 1..]);
  }

  lemma {:induction false} SkipsWorthless(paths: seq<Text>, plan: Plan, ranked: seq<Text>, j: nat)
    requires |plan.entries| == |paths| && j < |ranked|
    requires forall i :: 0 <= i < j ==> !Worthwhile(paths, plan, ranked[i])
    ensures Greedy(paths, plan, ranked) == Greedy(paths, Consider(paths, plan, ranked[j]), ranked[j + 1..])
    decreases j
  {
    if j > 0 {
      ConsideredOnce(paths, plan, ranked[0]);
      hide Worthwhile, Consider;
      SkipsWorthless(paths, plan, ranked[1..], j - 1);
      assert ranked[1..][j..] == ranked[j + 1..];
    }
  }

  lemma {:induction false} GreedyPrefix(paths: seq<Text>, plan: Plan, ranked: seq<Text>)
    requires |plan.entries| == |paths|
    ensures plan.roots <= Greedy(paths, plan, ranked).roots
    decreases |ranked|
  {
    if ranked != [] {
      ConsideredOnce(paths, plan, ranked[0]);
      hide Worthwhile, Consider;
      GreedyPrefix(paths, Consider(paths, plan, ranked[0]), ranked[1..]);
    }
  }

  // ---- directories ----

  predicate Letter(c: Point) {
    'a' as int <= c <= 'z' as int || 'A' as int <= c <= 'Z' as int
  }

  /** `C:\` or `C:/` at the start, or two backslashes. */
  predicate FromWindows(path: Text) {
    || (|path| >= 3 && Letter(path[0]) && path[1] == ':' as int && (path[2] == '/' as int || path[2] == '\\' as int))
    || ['\\' as int, '\\' as int] <= path
  }

  /** The prefix names a directory above the path: it ends with a slash, or in a Windows path with
      a backslash. */
  predicate DirectoryOf(prefix: Text, path: Text) {
    && prefix != [] && prefix <= path
    && (prefix[|prefix| - 1] == '/' as int || (prefix[|prefix| - 1] == '\\' as int && FromWindows(path)))
  }

  lemma BelowExactly(path: Text, prefix: Text)
    ensures Below(path, prefix) <==> DirectoryOf(prefix, path)
  {
    if prefix != [] && prefix <= path { assert path[|prefix| - 1] == prefix[|prefix| - 1]; }
    if |path| >= 2 { assert ['\\' as int, '\\' as int] <= path <==> path[0] == '\\' as int && path[1] == '\\' as int; }
  }

  // ---- sizes in UTF-8 ----

  function Power2(n: nat): nat {
    if n == 0 then 1 else 2 * Power2(n - 1)
  }

  /** How many code points up to `n` bytes can name (section 3 of RFC 3629): one byte has seven bits,
      and every further byte brings five more on balance, the first of them four. */
  function Nameable(n: nat): nat {
    if n == 0 then 0 else if n == 1 then Power2(7) else Power2(5 * n + 1)
  }

  /** A code point takes the fewest bytes that can name it. */
  lemma FewestBytes(c: Point)
    ensures var n := PointSize(c, Bytes); 1 <= n <= 4 && Nameable(n - 1) <= c < Nameable(n)
  {
    assert Power2(7) == 128;
    assert Power2(11) == 16 * Power2(7);
    assert Power2(16) == 32 * Power2(11);
    assert Power2(21) == 32 * Power2(16);
  }
}
