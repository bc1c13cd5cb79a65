/** What a catalog tells: a reader of its text gets back every skill and every warning, and no name,
    path or description can pass for something else. */
module SkillCatalogs {
  import opened SkillTexts
  import opened SkillRenders
  import P = SkillPaths
  import J = Jsons

  // ---- reading a quoted text out of a line ----

  const QuoteMark: Point := 0x22

  /** Where a quoted text ends, behind its opening mark: at the first mark that no backslash
      protects. */
  function Closing(t: Text): (k: Option<nat>)
    ensures k.Some? ==> k.value < |t| && t[k.value] == QuoteMark
  {
    if t == [] then None
    else if t[0] == QuoteMark then Some(0)
    else
      var n := if t[0] == 0x5c then 2 else 1;
      if |t| < n then None
      else
        var rest := Closing(t[n..]);
        if rest.None? then None else Some(n + rest.value)
  }

  /** The quoted text at the front, as it stands, and what follows it. */
  function TakeQuoted(t: Text): Option<(Text, Text)> {
    if t == [] || t[0] != QuoteMark then None
    else
      var k := Closing(t[1..]);
      if k.None? then None else Some((t[..k.value + 2], t[k.value + 2..]))
  }

  function FirstMark(t: Text): (k: nat)
    ensures k <= |t| && (k < |t| ==> t[k] == QuoteMark)
    ensures forall i :: 0 <= i < k ==> t[i] != QuoteMark
  {
    if t == [] || t[0] == QuoteMark then 0 else 1 + FirstMark(t[1..])
  }

  /** A shown path at the front, a quoted text that an alias may precede, and what follows it. */
  function TakePath(t: Text): Option<(Text, Text)> {
    var k := FirstMark(t);
    var q := TakeQuoted(t[k..]);
    if q.None? then None else Some((t[..k] + q.value.0, q.value.1))
  }

  // ---- the reader ----

  datatype Item =
    | Heading(text: Text)
    | Automatic(name: Text, path: Text, value: Text)
    | Explicit(name: Text, path: Text)
    | Warning(text: Text)

  function BehindBar(t: Text): Option<Text> {
    if [0x20, 0x7c, 0x20] <= t then Some(t[3..]) else None
  }

  /** A row: one column is a warning, two are an explicit skill, three an automatic one. */
  function ReadRow(line: Text): Option<Item> {
    if !([0x2d, 0x20] <= line) then None
    else
      var first := TakeQuoted(line[2..]);
      if first.None? || Unquote(first.value.0).None? then None
      else if first.value.1 == [] then Some(Warning(Unquote(first.value.0).value))
      else ReadSkill(Unquote(first.value.0).value, BehindBar(first.value.1))
  }

  function ReadSkill(name: Text, rest: Option<Text>): Option<Item> {
    if rest.None? then None
    else
      var path := TakePath(rest.value);
      if path.None? then None
      else if path.value.1 == [] then Some(Explicit(name, path.value.0))
      else ReadValue(name, path.value.0, BehindBar(path.value.1))
  }

  function ReadValue(name: Text, path: Text, rest: Option<Text>): Option<Item> {
    if rest.None? then None
    else
      var last := TakeQuoted(rest.value);
      if last.None? || last.value.1 != [] || Unquote(last.value.0).None? then None
      else Some(Automatic(name, path, Unquote(last.value.0).value))
  }

  function ReadLine(w: Wording, line: Text): Option<Item> {
    if line == w.automatic || line == w.explicit || line == w.warnings then Some(Heading(line)) else ReadRow(line)
  }

  function ReadLines(w: Wording, lines: seq<Text>): seq<Item> {
    if lines == [] then []
    else
      var item := ReadLine(w, lines[|lines| - 1]);
      ReadLines(w, lines[..|lines| - 1]) + (if item.Some? then [item.value] else [])
  }

  /** The lines of a text. */
  function Split(t: Text): (lines: seq<Text>)
    ensures lines != []
  {
    if t == [] then [[]]
    else
      var rest := Split(t[1..]);
      if t[0] == Newline then [[]] + rest else [[t[0]] + rest[0]] + rest[1..]
  }

  function ReadText(w: Wording, t: Text): seq<Item> {
    ReadLines(w, Split(t))
  }

  // ---- what a catalog holds ----

  function AutomaticItems(skills: seq<Skill>, values: seq<Text>): seq<Item>
    requires |skills| == |values|
  {
    if skills == [] then []
    else if skills[0].implicit then
      [Automatic(skills[0].name, skills[0].path, values[0])] + AutomaticItems(skills[1..], values[1..])
    else AutomaticItems(skills[1..], values[1..])
  }

  function ExplicitItems(skills: seq<Skill>): seq<Item> {
    if skills == [] then []
    else if skills[0].implicit then ExplicitItems(skills[1..])
    else [Explicit(skills[0].name, skills[0].path)] + ExplicitItems(skills[1..])
  }

  function WarningItems(warnings: seq<Text>): (items: seq<Item>)
    ensures |items| == |warnings|
  {
    if warnings == [] then [] else [Warning(warnings[0])] + WarningItems(warnings[1..])
  }

  function Section(heading: Text, items: seq<Item>): seq<Item> {
    if items == [] then [] else [Heading(heading)] + items
  }

  /** Each section that has an entry, under its heading: automatic skills, explicit ones, warnings. */
  function Contents(c: Catalog, values: seq<Text>): seq<Item>
    requires |values| == |c.skills|
  {
    Section(c.wording.automatic, AutomaticItems(c.skills, values))
    + Section(c.wording.explicit, ExplicitItems(c.skills))
    + Section(c.wording.warnings, WarningItems(c.warnings))
  }

  // ---- quoted texts are found again ----

  predicate OneLine(t: Text) {
    Newline !in t
  }

  lemma EscapeOneLine(c: Point)
    ensures OneLine(Escape(c))
  {
    if |Escape(c)| == 6 {
      assert forall i :: 0 <= i < 6 ==> Escape(c)[i] != Newline;
    }
  }

  lemma {:induction false} EscapedOneLine(t: Text)
    ensures OneLine(EscapeAll(t))
  {
    if t != [] {
      EscapeOneLine(t[0]);
      hide Escape;
      EscapedOneLine(t[1..]);
    }
  }

  lemma QuotedOneLine(t: Text)
    ensures OneLine(Quote(t))
  {
    EscapedOneLine(t);
  }

  /** The three forms of an escaped code point. */
  lemma EscapeForms(c: Point)
    ensures var e := Escape(c);
      || (|e| == 1 && e[0] != QuoteMark && e[0] != 0x5c)
      || (|e| == 2 && e[0] == 0x5c)
      || (|e| == 6 && e[0] == 0x5c && forall i :: 2 <= i < 6 ==> e[i] != QuoteMark && e[i] != 0x5c)
  {
  }

  lemma ClosingStep(c: Point, rest: Text)
    ensures Closing(Escape(c) + rest) ==
      if Closing(rest).None? then None else Some(|Escape(c)| + Closing(rest).value)
  {
    EscapeForms(c);
    hide Escape;
    var e := Escape(c);
    var t := e + rest;
    if |e| == 6 {
      assert t[2..] == e[2..] + rest;
      ClosingPlain(e[2..], rest);
    } else if |e| == 2 {
      assert t[2..] == rest;
    } else {
      assert t[1..] == rest;
    }
  }

  lemma {:induction false} ClosingPlain(a: Text, rest: Text)
    requires forall i :: 0 <= i < |a| ==> a[i] != QuoteMark && a[i] != 0x5c
    ensures Closing(a + rest) == if Closing(rest).None? then None else Some(|a| + Closing(rest).value)
  {
    if a == [] {
      assert a + rest == rest;
    } else {
      assert (a + rest)[1..] == a[1..] + rest;
      ClosingPlain(a[1..], rest);
    }
  }

  lemma EscapeFirst(t: Text)
    ensures t != [] ==> EscapeAll(t) == Escape(t[0]) + EscapeAll(t[1..])
    ensures t == [] ==> EscapeAll(t) == []
  {
  }

  lemma ClosingAtOnce(rest: Text)
    ensures Closing([QuoteMark] + rest) == Some(0)
  {
  }

  lemma {:induction false} ClosingAll(t: Text, rest: Text)
    ensures Closing(EscapeAll(t) + ([QuoteMark] + rest)) == Some(|EscapeAll(t)|)
  {
    hide *;
    var behind := [QuoteMark] + rest;
    EscapeFirst(t);
    if t == [] {
      assert EscapeAll(t) + behind == behind;
      ClosingAtOnce(rest);
    } else {
      var first, more := Escape(t[0]), EscapeAll(t[1..]);
      ClosingAll(t[1..], rest);
      ClosingStep(t[0], more + behind);
      assert first + more + behind == first + (more + behind);
    }
  }

  lemma TakesQuoted(t: Text, rest: Text)
    ensures TakeQuoted(Quote(t) + rest) == Some((Quote(t), rest)) && Unquote(Quote(t)) == Some(t)
  {
    hide EscapeAll, Unescape;
    ClosingAll(t, rest);
    QuoteRoundTrip(t);
    assert (Quote(t) + rest)[1..] == EscapeAll(t) + ([QuoteMark] + rest);
  }

  /** A path as the catalog shows it: a quoted text, with something unquoted in front at most. */
  ghost predicate PathShape(path: Text) {
    exists a, t :: PathIs(path, a, t)
  }

  predicate PathIs(path: Text, a: Text, t: Text) {
    path == a + Quote(t) && QuoteMark !in a && OneLine(a)
  }

  lemma {:induction false} MarkBehind(a: Text, rest: Text)
    requires QuoteMark !in a && rest != [] && rest[0] == QuoteMark
    ensures FirstMark(a + rest) == |a|
  {
    if a != [] {
      assert (a + rest)[1..] == a[1..] + rest;
      MarkBehind(a[1..], rest);
    } else {
      assert a + rest == rest;
    }
  }

  lemma TakesPath(path: Text, rest: Text)
    requires PathShape(path)
    ensures TakePath(path + rest) == Some((path, rest))
  {
    hide Quote;
    var a, t :| PathIs(path, a, t);
    assert path + rest == a + (Quote(t) + rest);
    MarkBehind(a, Quote(t) + rest);
    TakesQuoted(t, rest);
    assert (path + rest)[|a|..] == Quote(t) + rest && (path + rest)[..|a|] == a;
  }

  lemma PathOneLine(path: Text)
    requires PathShape(path)
    ensures OneLine(path) && path != []
  {
    var a, t :| PathIs(path, a, t);
    QuotedOneLine(t);
    hide Quote;
  }

  // ---- rows are read back ----

  lemma ReadsWarning(t: Text)
    ensures ReadRow([0x2d, 0x20] + Quote(t)) == Some(Warning(t))
  {
    hide Quote, TakeQuoted, Unquote;
    var line := [0x2d, 0x20] + Quote(t);
    TakesQuoted(t, []);
    assert line[2..] == Quote(t) + [];
  }

  lemma BarBehind(rest: Text)
    ensures BehindBar(Bar() + rest) == Some(rest) && Bar() + rest != []
  {
    assert (Bar() + rest)[3..] == rest;
  }

  lemma ReadsStem(s: Skill, rest: Text)
    ensures ReadRow([0x2d, 0x20] + Quote(s.name) + Bar() + rest) == ReadSkill(s.name, Some(rest))
  {
    hide Quote, TakeQuoted, Unquote, ReadSkill, Bar, BehindBar;
    var line := [0x2d, 0x20] + Quote(s.name) + Bar() + rest;
    assert line == [0x2d, 0x20] + (Quote(s.name) + (Bar() + rest));
    assert line[2..] == Quote(s.name) + (Bar() + rest);
    TakesQuoted(s.name, Bar() + rest);
    BarBehind(rest);
  }

  lemma ReadsExplicit(s: Skill)
    requires PathShape(s.path)
    ensures ReadRow(Stem(s)) == Some(Explicit(s.name, s.path))
  {
    hide Quote, TakePath, PathShape, ReadRow, Bar;
    ReadsStem(s, s.path);
    TakesPath(s.path, []);
    assert s.path + [] == s.path;
  }

  lemma ReadsAutomatic(s: Skill, value: Text)
    requires PathShape(s.path)
    ensures ReadRow(Stem(s) + Bar() + Quote(value)) == Some(Automatic(s.name, s.path, value))
  {
    hide Quote, TakePath, PathShape, ReadRow, Bar, TakeQuoted, Unquote, BehindBar;
    var rest := s.path + (Bar() + Quote(value));
    ReadsStem(s, rest);
    assert Stem(s) + Bar() + Quote(value) == [0x2d, 0x20] + Quote(s.name) + Bar() + rest;
    TakesPath(s.path, Bar() + Quote(value));
    BarBehind(Quote(value));
    TakesQuoted(value, []);
    assert Quote(value) + [] == Quote(value);
  }

  // ---- lines are found again ----

  lemma {:induction false} SplitLine(t: Text)
    requires OneLine(t)
    ensures Split(t) == [t]
  {
    if t != [] {
      SplitLine(t[1..]);
      assert [t[0]] + t[1..] == t;
    }
  }

  lemma SplitFirst(c: Point, rest: Text)
    ensures Split([c] + rest) == if c == Newline then [[]] + Split(rest) else [[c] + Split(rest)[0]] + Split(rest)[1..]
  {
    assert ([c] + rest)[1..] == rest;
  }

  lemma {:induction false} SplitConcat(a: Text, b: Text)
    ensures Split(a + [Newline] + b) == Split(a) + Split(b)
  {
    hide Split;
    if a == [] {
      SplitFirst(Newline, b);
      assert a + [Newline] + b == [Newline] + b;
      SplitNothing();
    } else {
      var rest := a[1..];
      assert a == [a[0]] + rest;
      assert a + [Newline] + b == [a[0]] + (rest + [Newline] + b);
      SplitConcat(rest, b);
      SplitFirst(a[0], rest);
      SplitFirst(a[0], rest + [Newline] + b);
      assert (Split(rest) + Split(b))[1..] == Split(rest)[1..] + Split(b);
    }
  }

  lemma SplitNothing()
    ensures Split([]) == [[]]
  {
  }

  lemma {:induction false} ReadConcat(w: Wording, a: seq<Text>, b: seq<Text>)
    ensures ReadLines(w, a + b) == ReadLines(w, a) + ReadLines(w, b)
  {
    if b == [] {
      assert a + b == a && ReadLines(w, b) == [];
    } else {
      assert (a + b)[..|a + b| - 1] == a + b[..|b| - 1];
      ReadConcat(w, a, b[..|b| - 1]);
    }
  }

  /** The texts of these lines, read one after the other. */
  function ReadEach(w: Wording, lines: seq<Text>): seq<Item> {
    if lines == [] then [] else ReadEach(w, lines[..|lines| - 1]) + ReadText(w, lines[|lines| - 1])
  }

  lemma {:induction false} EachConcat(w: Wording, a: seq<Text>, b: seq<Text>)
    ensures ReadEach(w, a + b) == ReadEach(w, a) + ReadEach(w, b)
  {
    if b == [] {
      assert a + b == a;
    } else {
      assert (a + b)[..|a + b| - 1] == a + b[..|b| - 1];
      EachConcat(w, a, b[..|b| - 1]);
    }
  }

  /** A joined text is read as its parts are. */
  lemma {:induction false} JoinReads(w: Wording, lines: seq<Text>)
    requires lines != []
    ensures ReadText(w, Join(lines)) == ReadEach(w, lines)
  {
    var n := |lines| - 1;
    hide ReadLine, Split;
    if n == 0 {
      assert ReadEach(w, lines[..0]) == [];
    } else {
      JoinReads(w, lines[..n]);
      SplitConcat(Join(lines[..n]), lines[n]);
      ReadConcat(w, Split(Join(lines[..n])), Split(lines[n]));
    }
  }

  lemma OneReads(w: Wording, line: Text)
    requires OneLine(line)
    ensures ReadText(w, line) == if ReadLine(w, line).Some? then [ReadLine(w, line).value] else []
  {
    hide ReadLine;
    SplitLine(line);
    assert ReadLines(w, [line][..0]) == [];
  }

  lemma EachOne(w: Wording, line: Text)
    ensures ReadEach(w, [line]) == ReadText(w, line)
  {
    assert ReadEach(w, [line][..0]) == [];
  }

  // ---- the wording ----

  /** The three headings are single lines, different, and none looks like a row or an alias. */
  predicate Sober(w: Wording) {
    && Sentence(w.automatic) && Sentence(w.explicit) && Sentence(w.warnings)
    && w.automatic != w.explicit && w.automatic != w.warnings && w.explicit != w.warnings
  }

  predicate Sentence(t: Text) {
    OneLine(t) && t != [] && t[0] != 0x2d && t[0] != 0x72
  }

  /** No line of the text is taken for a heading or a row. */
  predicate Quiet(w: Wording, t: Text) {
    ReadText(w, t) == []
  }

  lemma HeadingReads(w: Wording, heading: Text)
    requires Sober(w) && (heading == w.automatic || heading == w.explicit || heading == w.warnings)
    ensures ReadEach(w, [heading]) == [Heading(heading)]
  {
    EachOne(w, heading);
    OneReads(w, heading);
  }

  lemma RowReads(w: Wording, line: Text, item: Item)
    requires Sober(w) && OneLine(line) && line != [] && line[0] == 0x2d && ReadRow(line) == Some(item)
    ensures ReadEach(w, [line]) == [item]
  {
    hide ReadRow;
    EachOne(w, line);
    OneReads(w, line);
  }

  lemma StemLine(s: Skill)
    requires PathShape(s.path)
    ensures OneLine(Stem(s)) && Stem(s) != [] && Stem(s)[0] == 0x2d
  {
    QuotedOneLine(s.name);
    PathOneLine(s.path);
    hide Quote, PathShape;
  }

  ghost predicate PathsShaped(skills: seq<Skill>) {
    forall i :: 0 <= i < |skills| ==> PathShape(skills[i].path)
  }

  // ---- the sections ----

  lemma {:induction false} AutomaticLast(skills: seq<Skill>, values: seq<Text>)
    requires |skills| == |values| && skills != []
    ensures var n := |skills| - 1;
      AutomaticItems(skills, values) == AutomaticItems(skills[..n], values[..n])
        + (if skills[n].implicit then [Automatic(skills[n].name, skills[n].path, values[n])] else [])
  {
    var n := |skills| - 1;
    if n > 0 {
      assert skills[..n][1..] == skills[1..][..n - 1] && values[..n][1..] == values[1..][..n - 1];
      AutomaticLast(skills[1..], values[1..]);
    }
  }

  lemma {:induction false} ExplicitLast(skills: seq<Skill>)
    requires skills != []
    ensures var n := |skills| - 1;
      ExplicitItems(skills) == ExplicitItems(skills[..n])
        + (if skills[n].implicit then [] else [Explicit(skills[n].name, skills[n].path)])
  {
    var n := |skills| - 1;
    if n > 0 {
      assert skills[..n][1..] == skills[1..][..n - 1];
      ExplicitLast(skills[1..]);
    }
  }

  lemma {:induction false} WarningLast(warnings: seq<Text>)
    requires warnings != []
    ensures var n := |warnings| - 1; WarningItems(warnings) == WarningItems(warnings[..n]) + [Warning(warnings[n])]
  {
    var n := |warnings| - 1;
    if n > 0 {
      assert warnings[..n][1..] == warnings[1..][..n - 1];
      WarningLast(warnings[1..]);
    }
  }

  lemma AutomaticRowReads(w: Wording, s: Skill, value: Text)
    requires Sober(w) && PathShape(s.path)
    ensures ReadEach(w, [Stem(s) + Bar() + Quote(value)]) == [Automatic(s.name, s.path, value)]
  {
    ReadsAutomatic(s, value);
    StemLine(s);
    QuotedOneLine(value);
    hide Stem, Quote, ReadRow, Sober, PathShape, ReadEach;
    assert OneLine(Stem(s) + Bar() + Quote(value));
    RowReads(w, Stem(s) + Bar() + Quote(value), Automatic(s.name, s.path, value));
  }

  lemma ExplicitRowReads(w: Wording, s: Skill)
    requires Sober(w) && PathShape(s.path)
    ensures ReadEach(w, [Stem(s)]) == [Explicit(s.name, s.path)]
  {
    ReadsExplicit(s);
    StemLine(s);
    hide Stem, ReadRow, Sober, PathShape, ReadEach;
    RowReads(w, Stem(s), Explicit(s.name, s.path));
  }

  lemma {:induction false} AutomaticRead(w: Wording, skills: seq<Skill>, values: seq<Text>)
    requires Sober(w) && PathsShaped(skills) && |values| == |skills|
    ensures ReadEach(w, AutomaticRows(skills, values)) == AutomaticItems(skills, values)
  {
    hide ReadEach, Stem, Quote, Bar, PathShape, Sober;
    if skills == [] {
      NothingRead(w);
    } else {
      var n := |skills| - 1;
      AutomaticRead(w, skills[..n], values[..n]);
      AutomaticLast(skills, values);
      hide AutomaticItems;
      if skills[n].implicit {
        AutomaticRowReads(w, skills[n], values[n]);
        EachConcat(w, AutomaticRows(skills[..n], values[..n]), [Stem(skills[n]) + Bar() + Quote(values[n])]);
      } else {
        assert AutomaticRows(skills, values) == AutomaticRows(skills[..n], values[..n]);
      }
    }
  }

  lemma {:induction false} ExplicitRead(w: Wording, skills: seq<Skill>)
    requires Sober(w) && PathsShaped(skills)
    ensures ReadEach(w, ExplicitRows(skills)) == ExplicitItems(skills)
  {
    hide ReadEach, Stem, PathShape, Sober;
    if skills == [] {
      NothingRead(w);
    } else {
      var n := |skills| - 1;
      ExplicitRead(w, skills[..n]);
      ExplicitLast(skills);
      hide ExplicitItems;
      if skills[n].implicit {
        assert ExplicitRows(skills) == ExplicitRows(skills[..n]);
      } else {
        ExplicitRowReads(w, skills[n]);
        EachConcat(w, ExplicitRows(skills[..n]), [Stem(skills[n])]);
      }
    }
  }

  lemma {:induction false} WarningRead(w: Wording, warnings: seq<Text>)
    requires Sober(w)
    ensures ReadEach(w, WarningRows(warnings)) == WarningItems(warnings)
  {
    if warnings != [] {
      var n := |warnings| - 1;
      var row := [0x2d, 0x20] + Quote(warnings[n]);
      WarningRead(w, warnings[..n]);
      WarningLast(warnings);
      ReadsWarning(warnings[n]);
      QuotedOneLine(warnings[n]);
      hide Quote, ReadRow, Sober;
      RowReads(w, row, Warning(warnings[n]));
      hide ReadEach;
      EachConcat(w, WarningRows(warnings[..n]), [row]);
    }
  }

  lemma {:induction false} SomeAutomatic(skills: seq<Skill>, values: seq<Text>)
    requires |skills| == |values|
    ensures AutomaticItems(skills, values) != [] <==> HasPolicy(skills, true)
  {
    if skills != [] {
      SomeAutomatic(skills[1..], values[1..]);
      PolicyFirst(skills, true);
    }
  }

  lemma {:induction false} SomeExplicit(skills: seq<Skill>)
    ensures ExplicitItems(skills) != [] <==> HasPolicy(skills, false)
  {
    if skills != [] {
      SomeExplicit(skills[1..]);
      PolicyFirst(skills, false);
    }
  }

  lemma PolicyFirst(skills: seq<Skill>, implicit: bool)
    requires skills != []
    ensures HasPolicy(skills, implicit) <==> skills[0].implicit == implicit || HasPolicy(skills[1..], implicit)
  {
    if HasPolicy(skills[1..], implicit) {
      var i :| 0 <= i < |skills[1..]| && skills[1..][i].implicit == implicit;
      assert skills[i + 1].implicit == implicit;
    }
    if HasPolicy(skills, implicit) && skills[0].implicit != implicit {
      var i :| 0 <= i < |skills| && skills[i].implicit == implicit;
      assert skills[1..][i - 1].implicit == implicit;
    }
  }

  // ---- the catalog as a whole ----

  /** What stands around the rows is taken for nothing else. */
  predicate QuietAround(c: Catalog, note: Option<Text>) {
    && Quiet(c.wording, c.wording.header) && Quiet(c.wording, c.wording.empty)
    && (note.Some? ==> Quiet(c.wording, note.value))
    && forall i :: 0 <= i < |c.pathLines| ==> Quiet(c.wording, c.pathLines[i])
  }

  lemma {:induction false} QuietLines(w: Wording, lines: seq<Text>)
    requires forall i :: 0 <= i < |lines| ==> Quiet(w, lines[i])
    ensures ReadEach(w, lines) == []
  {
    hide ReadText;
    if lines != [] {
      QuietLines(w, lines[..|lines| - 1]);
    }
  }

  /** The part of the front that no reader takes for anything. */
  function Opening(c: Catalog, note: Option<Text>): (r: seq<Text>)
    ensures r != []
  {
    [c.wording.header] + (if note.Some? then [note.value] else []) + c.pathLines
    + (if c.skills == [] then [c.wording.empty] else [])
  }

  lemma OpeningQuiet(c: Catalog, note: Option<Text>)
    requires QuietAround(c, note)
    ensures ReadEach(c.wording, Opening(c, note)) == []
  {
    hide Quiet;
    QuietLines(c.wording, Opening(c, note));
  }

  lemma AutomaticSection(c: Catalog, values: seq<Text>)
    requires Sober(c.wording) && PathsShaped(c.skills) && |values| == |c.skills|
    ensures ReadEach(c.wording, (if HasPolicy(c.skills, true) then [c.wording.automatic] else []) + AutomaticRows(c.skills, values))
         == Section(c.wording.automatic, AutomaticItems(c.skills, values))
  {
    SomeAutomatic(c.skills, values);
    AutomaticRead(c.wording, c.skills, values);
    HeadingReads(c.wording, c.wording.automatic);
    hide ReadEach, HasPolicy, AutomaticRows, AutomaticItems, Sober, PathsShaped;
    if HasPolicy(c.skills, true) {
      EachConcat(c.wording, [c.wording.automatic], AutomaticRows(c.skills, values));
    } else {
      assert [] + AutomaticRows(c.skills, values) == AutomaticRows(c.skills, values);
    }
  }

  lemma ExplicitSection(c: Catalog)
    requires Sober(c.wording) && PathsShaped(c.skills)
    ensures ReadEach(c.wording, if HasPolicy(c.skills, false) then [c.wording.explicit] + ExplicitRows(c.skills) else [])
         == Section(c.wording.explicit, ExplicitItems(c.skills))
  {
    SomeExplicit(c.skills);
    ExplicitRead(c.wording, c.skills);
    HeadingReads(c.wording, c.wording.explicit);
    NothingRead(c.wording);
    hide ReadEach, HasPolicy, ExplicitRows, ExplicitItems, Sober, PathsShaped;
    EachConcat(c.wording, [c.wording.explicit], ExplicitRows(c.skills));
  }

  lemma NothingRead(w: Wording)
    ensures ReadEach(w, []) == []
  {
  }

  lemma WarningSection(c: Catalog)
    requires Sober(c.wording)
    ensures ReadEach(c.wording, if c.warnings != [] then [c.wording.warnings] + WarningRows(c.warnings) else [])
         == Section(c.wording.warnings, WarningItems(c.warnings))
  {
    WarningRead(c.wording, c.warnings);
    HeadingReads(c.wording, c.wording.warnings);
    NothingRead(c.wording);
    hide ReadEach, WarningRows, WarningItems, Sober;
    EachConcat(c.wording, [c.wording.warnings], WarningRows(c.warnings));
  }

  /** A reader of a catalog gets back, in order, every automatic skill with its name, shown path and
      description, every explicit skill with its name and shown path, and every warning, each section
      under its heading, and nothing else. */
  lemma CatalogReadsBack(c: Catalog, values: seq<Text>, note: Option<Text>)
    requires Sober(c.wording) && PathsShaped(c.skills) && QuietAround(c, note) && |values| == |c.skills|
    ensures ReadText(c.wording, Rows(c, values, note)) == Contents(c, values)
  {
    hide *;
    var w := c.wording;
    var a, b := AutomaticPart(c, values), ExplicitPart(c);
    LinesParts(c, values, note);
    RowsIs(c, values, note);
    JoinReads(w, Lines(c, values, note));
    EachConcat(w, Opening(c, note) + a, b + WarningPart(c));
    EachConcat(w, Opening(c, note), a);
    EachConcat(w, b, WarningPart(c));
    OpeningQuiet(c, note);
    AutomaticSection(c, values);
    ExplicitSection(c);
    WarningSection(c);
    PartsAre(c, values);
    ContentsIs(c, values);
    var x := Section(w.automatic, AutomaticItems(c.skills, values));
    assert [] + x == x;
    assert x + (Section(w.explicit, ExplicitItems(c.skills)) + Section(w.warnings, WarningItems(c.warnings)))
        == x + Section(w.explicit, ExplicitItems(c.skills)) + Section(w.warnings, WarningItems(c.warnings));
  }

  function AutomaticPart(c: Catalog, values: seq<Text>): seq<Text>
    requires |values| == |c.skills|
  {
    (if HasPolicy(c.skills, true) then [c.wording.automatic] else []) + AutomaticRows(c.skills, values)
  }

  function ExplicitPart(c: Catalog): seq<Text> {
    if HasPolicy(c.skills, false) then [c.wording.explicit] + ExplicitRows(c.skills) else []
  }

  function WarningPart(c: Catalog): seq<Text> {
    if c.warnings != [] then [c.wording.warnings] + WarningRows(c.warnings) else []
  }

  lemma PartsAre(c: Catalog, values: seq<Text>)
    requires |values| == |c.skills|
    ensures AutomaticPart(c, values) == (if HasPolicy(c.skills, true) then [c.wording.automatic] else []) + AutomaticRows(c.skills, values)
    ensures ExplicitPart(c) == if HasPolicy(c.skills, false) then [c.wording.explicit] + ExplicitRows(c.skills) else []
    ensures WarningPart(c) == if c.warnings != [] then [c.wording.warnings] + WarningRows(c.warnings) else []
  {
    hide HasPolicy, AutomaticRows, ExplicitRows, WarningRows;
  }

  lemma LinesParts(c: Catalog, values: seq<Text>, note: Option<Text>)
    requires |values| == |c.skills|
    ensures Lines(c, values, note) == Opening(c, note) + AutomaticPart(c, values) + (ExplicitPart(c) + WarningPart(c))
  {
    hide HasPolicy, AutomaticRows, ExplicitRows, WarningRows;
  }

  lemma RowsIs(c: Catalog, values: seq<Text>, note: Option<Text>)
    requires |values| == |c.skills|
    ensures Rows(c, values, note) == Join(Lines(c, values, note)) && Lines(c, values, note) != []
  {
  }

  lemma ContentsIs(c: Catalog, values: seq<Text>)
    requires |values| == |c.skills|
    ensures Contents(c, values) ==
      Section(c.wording.automatic, AutomaticItems(c.skills, values)) + Section(c.wording.explicit, ExplicitItems(c.skills))
      + Section(c.wording.warnings, WarningItems(c.warnings))
  {
  }

  // ---- with the paths of the catalog ----

  lemma AliasPlain(k: nat)
    ensures QuoteMark !in P.AliasName(k) && OneLine(P.AliasName(k))
  {
    hide J.Decimal;
  }

  lemma ShownShape(path: Text, roots: seq<Text>, entry: P.Entry)
    ensures PathShape(P.Shown(path, roots, entry))
  {
    hide Quote, P.AliasName;
    if entry.Aliased? && entry.root < |roots| && |roots[entry.root]| <= |path| {
      var k, suffix := entry.root, path[|roots[entry.root]|..];
      AliasPlain(k);
      var a := [0x40] + P.AliasName(k) + [0x20, 0x2b, 0x20];
      assert P.AliasEntry(k, suffix) == a + Quote(suffix);
      assert PathIs(P.AliasEntry(k, suffix), a, suffix);
    } else {
      assert [] + Quote(path) == Quote(path);
      assert PathIs(Quote(path), [], path);
    }
  }

  lemma PlanShapes(paths: seq<Text>, ranked: seq<Text>, help: Text)
    ensures var r := P.PathPlan(paths, ranked, help);
      |r.paths| == |paths| && forall i :: 0 <= i < |paths| ==> PathShape(r.paths[i])
  {
    P.PathPlanLossless(paths, ranked, help);
    P.PathPlanIs(paths, ranked, help);
    P.OriginalsAreWhole(paths);
    var plan := P.Greedy(paths, P.NoAliases(paths), ranked);
    P.GreedySound(paths, P.NoAliases(paths), ranked);
    hide P.Greedy, P.Joined, P.Shown, PathShape, Quote;
    forall i | 0 <= i < |paths| ensures PathShape(P.PathPlan(paths, ranked, help).paths[i]) {
      ShownShape(paths[i], plan.roots, plan.entries[i]);
      ShownShape(paths[i], [], P.Whole);
    }
  }

  /** The line of an alias is no row and no heading. */
  lemma RootLineQuiet(w: Wording, k: nat, prefix: Text)
    requires Sober(w)
    ensures Quiet(w, P.RootLine(k, prefix))
  {
    AliasPlain(k);
    QuotedOneLine(prefix);
    hide Quote, P.AliasName;
    var line := P.RootLine(k, prefix);
    assert OneLine(line) && line[0] == 0x72;
    OneReads(w, line);
  }

  lemma PlanQuiet(w: Wording, paths: seq<Text>, ranked: seq<Text>, help: Text)
    requires Sober(w) && Quiet(w, help)
    ensures var r := P.PathPlan(paths, ranked, help); forall i :: 0 <= i < |r.lines| ==> Quiet(w, r.lines[i])
  {
    hide P.Greedy, P.Joined, Quiet, Sober, Quote, P.RootLine;
    var plan := P.Greedy(paths, P.NoAliases(paths), ranked);
    P.OriginalsAreWhole(paths);
    P.GreedySound(paths, P.NoAliases(paths), ranked);
    forall k | 0 <= k < |plan.roots| ensures Quiet(w, P.RootLines(plan.roots)[k]) {
      RootLineQuiet(w, k, plan.roots[k]);
    }
  }

  /** The catalog shows these paths, through aliases where that is shorter. */
  predicate Shows(c: Catalog, paths: seq<Text>, ranked: seq<Text>, help: Text) {
    && |c.skills| == |paths| && c.pathLines == P.PathPlan(paths, ranked, help).lines
    && |P.PathPlan(paths, ranked, help).paths| == |paths|
    && forall i :: 0 <= i < |paths| ==> c.skills[i].path == P.PathPlan(paths, ranked, help).paths[i]
  }

  /** The path that an item stands for, once the aliases of the catalog are expanded. */
  function Expanded(lines: seq<Text>, item: Item): Item {
    match item
    case Automatic(name, path, value) => Automatic(name, ExpandedPath(lines, path), value)
    case Explicit(name, path) => Explicit(name, ExpandedPath(lines, path))
    case _ => item
  }

  function ExpandedPath(lines: seq<Text>, path: Text): Text {
    var full := P.Expand(lines, path);
    if full.Some? then full.value else path
  }

  function ExpandedAll(lines: seq<Text>, items: seq<Item>): (r: seq<Item>)
    ensures |r| == |items|
  {
    seq(|items|, i requires 0 <= i < |items| => Expanded(lines, items[i]))
  }

  /** The skills with their real paths. */
  function Real(skills: seq<Skill>, paths: seq<Text>): (r: seq<Skill>)
    requires |skills| == |paths|
    ensures |r| == |skills|
  {
    seq(|skills|, i requires 0 <= i < |skills| => skills[i].(path := paths[i]))
  }

  lemma ExpandConcat(lines: seq<Text>, a: seq<Item>, b: seq<Item>)
    ensures ExpandedAll(lines, a + b) == ExpandedAll(lines, a) + ExpandedAll(lines, b)
  {
  }

  lemma ExpandOne(lines: seq<Text>, item: Item, rest: seq<Item>)
    ensures ExpandedAll(lines, [item] + rest) == [Expanded(lines, item)] + ExpandedAll(lines, rest)
  {
  }

  lemma ExpandNone(lines: seq<Text>)
    ensures ExpandedAll(lines, []) == []
  {
  }

  lemma RealRest(skills: seq<Skill>, paths: seq<Text>)
    requires |skills| == |paths| && skills != []
    ensures Real(skills, paths)[1..] == Real(skills[1..], paths[1..])
    ensures Real(skills, paths)[0] == skills[0].(path := paths[0])
  {
  }

  lemma {:induction false} AutomaticExpands(lines: seq<Text>, skills: seq<Skill>, values: seq<Text>, paths: seq<Text>)
    requires |skills| == |values| == |paths|
    requires forall i :: 0 <= i < |skills| ==> P.Expand(lines, skills[i].path) == Some(paths[i])
    ensures ExpandedAll(lines, AutomaticItems(skills, values)) == AutomaticItems(Real(skills, paths), values)
  {
    hide P.Expand, ExpandedAll, Real;
    if skills == [] {
      ExpandNone(lines);
    } else {
      AutomaticExpands(lines, skills[1..], values[1..], paths[1..]);
      RealRest(skills, paths);
      if skills[0].implicit {
        ExpandOne(lines, Automatic(skills[0].name, skills[0].path, values[0]), AutomaticItems(skills[1..], values[1..]));
      }
    }
  }

  lemma {:induction false} ExplicitExpands(lines: seq<Text>, skills: seq<Skill>, paths: seq<Text>)
    requires |skills| == |paths|
    requires forall i :: 0 <= i < |skills| ==> P.Expand(lines, skills[i].path) == Some(paths[i])
    ensures ExpandedAll(lines, ExplicitItems(skills)) == ExplicitItems(Real(skills, paths))
  {
    hide P.Expand, ExpandedAll, Real;
    if skills == [] {
      ExpandNone(lines);
    } else {
      ExplicitExpands(lines, skills[1..], paths[1..]);
      RealRest(skills, paths);
      if !skills[0].implicit {
        ExpandOne(lines, Explicit(skills[0].name, skills[0].path), ExplicitItems(skills[1..]));
      }
    }
  }

  lemma {:induction false} WarningsExpand(lines: seq<Text>, warnings: seq<Text>)
    ensures ExpandedAll(lines, WarningItems(warnings)) == WarningItems(warnings)
  {
    if warnings != [] {
      WarningsExpand(lines, warnings[1..]);
      ExpandConcat(lines, [Warning(warnings[0])], WarningItems(warnings[1..]));
    }
  }

  lemma SectionExpands(lines: seq<Text>, heading: Text, items: seq<Item>)
    ensures ExpandedAll(lines, Section(heading, items)) == Section(heading, ExpandedAll(lines, items))
  {
    if items != [] { ExpandConcat(lines, [Heading(heading)], items); }
  }

  /** What the plan of the paths gives the reader. */
  lemma ShowsParts(c: Catalog, paths: seq<Text>, ranked: seq<Text>, help: Text)
    requires Shows(c, paths, ranked, help) && Sober(c.wording) && Quiet(c.wording, help)
    ensures PathsShaped(c.skills) && |c.skills| == |paths|
    ensures forall i :: 0 <= i < |c.pathLines| ==> Quiet(c.wording, c.pathLines[i])
    ensures forall i :: 0 <= i < |c.skills| ==> P.Expand(c.pathLines, c.skills[i].path) == Some(paths[i])
  {
    hide P.PathPlan, P.Expand, P.Greedy, P.Joined, P.NoAliases, P.Originals, PathShape, Quiet, Sober;
    PlanShapes(paths, ranked, help);
    PlanQuiet(c.wording, paths, ranked, help);
    P.PathPlanLossless(paths, ranked, help);
  }

  lemma RealContents(c: Catalog, values: seq<Text>, paths: seq<Text>)
    requires |values| == |c.skills| == |paths|
    ensures Contents(c.(skills := Real(c.skills, paths)), values) ==
      Section(c.wording.automatic, AutomaticItems(Real(c.skills, paths), values))
      + Section(c.wording.explicit, ExplicitItems(Real(c.skills, paths))) + Section(c.wording.warnings, WarningItems(c.warnings))
  {
    hide Real, AutomaticItems, ExplicitItems, WarningItems, Section;
  }

  lemma Around(c: Catalog, note: Option<Text>)
    requires Quiet(c.wording, c.wording.header) && Quiet(c.wording, c.wording.empty)
    requires forall i :: 0 <= i < |c.pathLines| ==> Quiet(c.wording, c.pathLines[i])
    requires note.Some? ==> Quiet(c.wording, note.value)
    ensures QuietAround(c, note)
  {
    hide Quiet;
  }

  /** Reading a catalog and expanding its aliases gives back every skill with its real path. */
  lemma CatalogTells(c: Catalog, values: seq<Text>, note: Option<Text>, paths: seq<Text>, ranked: seq<Text>, help: Text)
    requires Shows(c, paths, ranked, help) && |values| == |c.skills| && Sober(c.wording)
    requires Quiet(c.wording, c.wording.header) && Quiet(c.wording, c.wording.empty) && Quiet(c.wording, help)
    requires note.Some? ==> Quiet(c.wording, note.value)
    ensures ExpandedAll(c.pathLines, ReadText(c.wording, Rows(c, values, note)))
         == Contents(c.(skills := Real(c.skills, paths)), values)
  {
    hide *;
    ShowsParts(c, paths, ranked, help);
    Around(c, note);
    CatalogReadsBack(c, values, note);
    ContentsIs(c, values);
    RealContents(c, values, paths);
    var lines, w := c.pathLines, c.wording;
    AutomaticExpands(lines, c.skills, values, paths);
    ExplicitExpands(lines, c.skills, paths);
    WarningsExpand(lines, c.warnings);
    var x, y, z := AutomaticItems(c.skills, values), ExplicitItems(c.skills), WarningItems(c.warnings);
    SectionExpands(lines, w.automatic, x);
    SectionExpands(lines, w.explicit, y);
    SectionExpands(lines, w.warnings, z);
    ExpandConcat(lines, Section(w.automatic, x) + Section(w.explicit, y), Section(w.warnings, z));
    ExpandConcat(lines, Section(w.automatic, x), Section(w.explicit, y));
  }
}
