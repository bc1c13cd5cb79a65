/** The titles that an agent gives: the words of its text, as many whole characters as fit. */
module NotesTitles {
  import opened Jsons
  import opened NotesResponses
  import opened NotesStates
  import opened NotesLaws

  /** The stretches of a text between white space. */
  function Words(t: Text): (ws: seq<Text>)
    ensures t != [] && !Space(t[0]) ==> ws != []
  {
    if t == [] then []
    else if Space(t[0]) then Words(t[1..])
    else if |t| == 1 || Space(t[1]) then [[t[0]]] + Words(t[1..])
    else Longer(t[0], Words(t[1..]))
  }

  function Longer(u: Unit, ws: seq<Text>): seq<Text>
    requires ws != []
  {
    [[u] + ws[0]] + ws[1..]
  }

  function Joined(ws: seq<Text>): Text {
    if ws == [] then [] else if |ws| == 1 then ws[0] else ws[0] + [0x20] + Joined(ws[1..])
  }

  lemma JoinedLonger(u: Unit, ws: seq<Text>)
    requires ws != []
    ensures Joined(Longer(u, ws)) == [u] + Joined(ws)
  {
    assert Longer(u, ws)[1..] == ws[1..];
  }

  lemma JoinedMore(w: Text, ws: seq<Text>)
    requires ws != []
    ensures Joined([w] + ws) == w + [0x20] + Joined(ws)
  {
    assert ([w] + ws)[1..] == ws;
  }

  function Blanks(blank: bool): Text {
    if blank then [0x20] else []
  }

  predicate StartsBlank(t: Text) {
    t != [] && Space(t[0])
  }

  predicate EndsBlank(t: Text) {
    t != [] && Space(t[|t| - 1])
  }

  /** `c` is `j` with a blank where the text starts or ends with white space; without words it is blank. */
  predicate Shape(t: Text, words: bool, j: Text, c: Text) {
    if words then c == Blanks(StartsBlank(t)) + j + Blanks(EndsBlank(t)) && Tight(j)
    else c == Blanks(t != []) && Blank(t)
  }

  /** The words of a text with single blanks between them, and where it starts or ends with one. */
  predicate Spaced(t: Text, collapsed: Text) {
    Shape(t, Words(t) != [], Joined(Words(t)), collapsed)
  }

  predicate Tight(t: Text) {
    t != [] && !StartsBlank(t) && !EndsBlank(t)
  }

  lemma {:induction false} CollapseSpaces(t: Text)
    ensures Spaced(t, Collapse(t))
  {
    if t != [] {
      CollapseSpaces(t[1..]);
      if Space(t[0]) {
        SpaceFirst(t);
      } else if |t| == 1 {
        assert t[1..] == [] && t == [t[0]];
      } else if Space(t[1]) {
        WordEnds(t);
      } else {
        WordGoesOn(t);
      }
    }
  }

  lemma SpaceFirst(t: Text)
    requires t != [] && Space(t[0]) && Spaced(t[1..], Collapse(t[1..]))
    ensures Spaced(t, Collapse(t))
  {
    assert Words(t) == Words(t[1..]);
    assert Collapse(t) == if StartsBlank(t[1..]) then Collapse(t[1..]) else [0x20] + Collapse(t[1..]);
    ShapeBlank(t, Words(t) != [], Joined(Words(t)), Collapse(t[1..]));
    hide Words, Collapse, Joined, Space, Shape;
  }

  lemma ShapeBlank(t: Text, words: bool, j: Text, c: Text)
    requires t != [] && Space(t[0]) && Shape(t[1..], words, j, c) && (words ==> |t| > 1)
    ensures Shape(t, words, j, if StartsBlank(t[1..]) then c else [0x20] + c)
  {
    hide Space;
    if |t| > 1 { assert EndsBlank(t) == EndsBlank(t[1..]); }
    if Blank(t[1..]) { BlankLonger(t); }
    var b := Blanks(EndsBlank(t));
    if words && !StartsBlank(t[1..]) { assert c == j + b && [0x20] + c == [0x20] + j + b; }
  }

  lemma ShapeLonger(t: Text, j: Text, c: Text)
    requires |t| > 1 && !Space(t[0]) && !StartsBlank(t[1..]) && Shape(t[1..], true, j, c)
    ensures Shape(t, true, [t[0]] + j, [t[0]] + c)
  {
    hide Space;
    assert EndsBlank(t) == EndsBlank(t[1..]);
    var b := Blanks(EndsBlank(t));
    assert c == j + b && [t[0]] + c == ([t[0]] + j) + b;
  }

  lemma BlankLonger(t: Text)
    requires t != [] && Space(t[0]) && Blank(t[1..])
    ensures Blank(t)
  {
    hide Space;
    forall k | 0 <= k < |t| ensures Space(t[k]) {
      if k > 0 { assert t[k] == t[1..][k - 1]; }
    }
  }

  lemma WordEnds(t: Text)
    requires |t| > 1 && !Space(t[0]) && Space(t[1]) && Spaced(t[1..], Collapse(t[1..]))
    ensures Spaced(t, Collapse(t))
  {
    hide Space;
    assert Words(t) == [[t[0]]] + Words(t[1..]) && Collapse(t) == [t[0]] + Collapse(t[1..]);
    assert EndsBlank(t) == EndsBlank(t[1..]) && StartsBlank(t[1..]);
    if Words(t[1..]) != [] {
      JoinedMore([t[0]], Words(t[1..]));
    } else {
      assert t[1..][|t| - 2] == t[|t| - 1];
      assert Joined([[t[0]]]) == [t[0]];
    }
    hide Words, Collapse, Joined, Blank;
    if Words(t[1..]) == [] { assert [[t[0]]] + Words(t[1..]) == [[t[0]]]; }
  }

  lemma WordGoesOn(t: Text)
    requires |t| > 1 && !Space(t[0]) && !Space(t[1]) && Spaced(t[1..], Collapse(t[1..]))
    ensures Spaced(t, Collapse(t))
  {
    assert Words(t) == Longer(t[0], Words(t[1..])) && Collapse(t) == [t[0]] + Collapse(t[1..]);
    JoinedLonger(t[0], Words(t[1..]));
    ShapeLonger(t, Joined(Words(t[1..])), Collapse(t[1..]));
    hide Words, Collapse, Joined, Space, Shape;
  }

  /** The title without the white space around it is its words with single blanks between them. */
  lemma TrimmedWords(t: Text)
    ensures Trim(Collapse(t)) == Joined(Words(t))
  {
    CollapseSpaces(t);
    var c, j := Collapse(t), Joined(Words(t));
    if Words(t) == [] {
      assert j == [] && c[..0] == [];
      if c != [] { assert c[1..] == []; }
      hide Collapse, Words, Joined;
    } else {
      hide Collapse, Words, Joined;
      BlanksTrim(StartsBlank(t), j, EndsBlank(t));
    }
  }

  lemma BlanksTrim(front: bool, j: Text, back: bool)
    requires Tight(j)
    ensures Trim(Blanks(front) + j + Blanks(back)) == j
  {
    hide TrimStart, TrimEnd, Space;
    var t := j + Blanks(back);
    assert Blanks(front) + j + Blanks(back) == Blanks(front) + t;
    assert t[0] == j[0];
    StartBlank(front, t);
    EndBlank(j, back);
  }

  lemma StartBlank(front: bool, t: Text)
    requires t != [] && !Space(t[0])
    ensures TrimStart(Blanks(front) + t) == t
  {
    var b := Blanks(front) + t;
    assert Space(0x20);
    hide Space;
    if front { assert b[0] == 0x20 && b[1..] == t; } else { assert b == t; }
  }

  lemma EndBlank(t: Text, back: bool)
    requires t != [] && !Space(t[|t| - 1])
    ensures TrimEnd(t + Blanks(back)) == t
  {
    var b := t + Blanks(back);
    assert Space(0x20);
    hide Space;
    if back { assert b[|b| - 1] == 0x20 && b[..|b| - 1] == t; } else { assert b == t; }
  }

  /** A place between two characters of the text. */
  predicate Boundary(t: Text, n: nat)
    decreases |t|
  {
    n == 0 || (t != [] && n >= Lead(t) && Boundary(t[Lead(t)..], n - Lead(t)))
  }

  /** The longest beginning of whole characters within 256 bytes. */
  predicate LongestName(full: Text, name: Text) {
    && name <= full && Boundary(full, |name|) && Utf8(name) <= 256
    && (name == full || Utf8(name + full[|name|..][..Lead(full[|name|..])]) > 256)
  }

  lemma {:induction false} BoundaryNext(t: Text, n: nat)
    requires Boundary(t, n) && n < |t|
    ensures Boundary(t, n + Lead(t[n..]))
    decreases |t|
  {
    if n > 0 {
      BoundaryNext(t[Lead(t)..], n - Lead(t));
      assert t[Lead(t)..][n - Lead(t)..] == t[n..];
    }
  }

  lemma {:induction false} CutIsLongest(full: Text, rest: Text, taken: Text)
    requires taken + rest == full && Boundary(full, |taken|) && Utf8(taken) <= 256
    ensures LongestName(full, TitleCut(rest, taken))
    decreases |rest|
  {
    hide Utf8, Lead, Boundary;
    assert full[|taken|..] == rest && full[..|taken|] == taken;
    if rest != [] && Utf8(taken + rest[..Lead(rest)]) <= 256 {
      BoundaryNext(full, |taken|);
      CutIsLongest(full, rest[Lead(rest)..], taken + rest[..Lead(rest)]);
    }
  }

  /** A title names a conversation without a name once: its words with single blanks between them,
      as many whole characters as fit. */
  lemma SetTitleExactly(s: Store, id: Text, title: Text, web: bool, now: int, max: nat) returns (i: nat, name: Text)
    ensures LongestName(Joined(Words(title)), name)
    ensures var t := Observe(s, id, web, now, max); var (r, done) := SetTitle(s, id, title, web, now, max);
      if id == [] || !web then r == s && !done
      else if !Known(t, id) then r == t && !done
      else
        && i < |t.conversations| && t.conversations[i].id == id
        && var c := t.conversations[i]; var d := c.(name := name, titled := true, touched := now);
        if c.name == [] && !c.titled && name != [] && !Overflows(t, i, d, max) then
          done && r.conversations == t.conversations[i := d] && r.births == t.births
          && r.bytes == t.bytes + ConversationBytes(d) - ConversationBytes(c)
        else r == t && !done
  {
    hide *;
    name := TitleIs(title);
    var t := Observe(s, id, web, now, max);
    SetTitleIs(s, id, title, web, now, max);
    KnownIs(t, id);
    i := 0;
    if Known(t, id) {
      i := Find(t.conversations, id).value;
      TitleCosts(t.conversations[i], name, now);
      OverflowsBy(t, i, t.conversations[i].(name := name, titled := true, touched := now), 2 * |name|, max);
    }
  }

  lemma TitleIs(title: Text) returns (name: Text)
    ensures name == TitleCut(Trim(Collapse(title)), []) && LongestName(Joined(Words(title)), name)
  {
    name := TitleCut(Trim(Collapse(title)), []);
    TrimmedWords(title);
    EmptyBytes([]);
    CutIsLongest(Trim(Collapse(title)), Trim(Collapse(title)), []);
    hide TitleCut, Trim, Collapse, Words, Joined, LongestName;
  }

  lemma SetTitleIs(s: Store, id: Text, title: Text, web: bool, now: int, max: nat)
    ensures var t := Observe(s, id, web, now, max); var found := Find(t.conversations, id);
      var name := TitleCut(Trim(Collapse(title)), []);
      SetTitle(s, id, title, web, now, max) ==
        if id == [] || !web then (s, false)
        else if found.None? then (t, false)
        else
          var c := t.conversations[found.value];
          if c.name != [] || c.titled || name == [] || t.bytes + 2 * |name| > max then (t, false)
          else
            (t.(conversations := t.conversations[found.value := c.(name := name, titled := true, touched := now)],
                bytes := t.bytes + 2 * |name|), true)
  {
    hide Observe, TitleCut, Trim, Collapse;
  }

  lemma TitleCosts(c: Conversation, name: Text, now: int)
    ensures c.name == [] ==> ConversationBytes(c.(name := name, titled := true, touched := now)) == ConversationBytes(c) + 2 * |name|
  {
    hide Sum;
  }

  lemma OverflowsBy(t: Store, i: nat, d: Conversation, delta: int, max: nat)
    requires i < |t.conversations|
    ensures ConversationBytes(d) == ConversationBytes(t.conversations[i]) + delta ==> (Overflows(t, i, d, max) <==> t.bytes + delta > max)
  {
    hide ConversationBytes;
  }
}
