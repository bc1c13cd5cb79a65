/** Names of downstream tools in code: plain names tell server and tool apart again, and no hashed
    name looks like a plain one. Texts are code points; the hash is any function. */
module CodeNames {

  type Text = seq<nat>

  const Underscore: nat := 0x5f
  const MAX_CODE_NAME_LENGTH: nat := 128
  const CODE_NAME_HASH_LENGTH: nat := 12

  /** A letter, a digit or an underscore. */
  predicate Plain(c: nat) {
    Digit(c) || 0x41 <= c <= 0x5a || 0x61 <= c <= 0x7a || c == Underscore
  }

  predicate Digit(c: nat) {
    0x30 <= c <= 0x39
  }

  /** `sanitizeCodeName` */
  function Sanitize(t: Text): (r: Text)
    ensures t != [] ==> |r| == |t|
    ensures forall i :: 0 <= i < |r| ==> Plain(r[i])
  {
    if t == [] then [Underscore]
    else seq(|t|, i requires 0 <= i < |t| => if Plain(t[i]) then t[i] else Underscore)
  }

  /** `mcp__` */
  function Prefix(): (t: Text)
    ensures |t| == 5
  {
    [0x6d, 0x63, 0x70, Underscore, Underscore]
  }

  /** `mcp_h__` */
  function HashedPrefix(): (t: Text)
    ensures |t| == 7
  {
    [0x6d, 0x63, 0x70, Underscore, 0x68, Underscore, Underscore]
  }

  function Pair(): Text {
    [Underscore, Underscore]
  }

  function Base(server: Text, tool: Text): Text {
    Prefix() + server + Pair() + tool
  }

  /** Two underscores stand somewhere in the text. */
  predicate HasPair(t: Text) {
    exists i :: 0 <= i && i + 1 < |t| && t[i] == Underscore && t[i + 1] == Underscore
  }

  predicate Unambiguous(server: Text, tool: Text) {
    && !HasPair(server) && !HasPair(tool)
    && !(server != [] && server[|server| - 1] == Underscore)
    && !(tool != [] && tool[0] == Underscore)
    && Sanitize(Base(server, tool)) == Base(server, tool)
    && |Base(server, tool)| <= MAX_CODE_NAME_LENGTH
  }

  function Min(a: nat, b: nat): nat {
    if a <= b then a else b
  }

  /** The middle of a hashed name: what fits of the sanitized names. */
  function Middle(server: Text, tool: Text): Text {
    var s := Sanitize(Base(server, tool));
    s[Min(5, |s|)..Min(5 + (MAX_CODE_NAME_LENGTH - 7 - 1 - CODE_NAME_HASH_LENGTH), |s|)]
  }

  /** `createDownstreamCodeName`; `hash` gives the hexadecimal digest of server and tool. */
  function CodeName(server: Text, tool: Text, hash: (Text, Text) -> Text): Text {
    if Unambiguous(server, tool) then Sanitize(Base(server, tool))
    else HashedPrefix() + Middle(server, tool) + [Underscore] + Digest(hash, server, tool)
  }

  function Digest(hash: (Text, Text) -> Text, server: Text, tool: Text): (r: Text)
    ensures |r| <= CODE_NAME_HASH_LENGTH
  {
    hash(server, tool)[..Min(CODE_NAME_HASH_LENGTH, |hash(server, tool)|)]
  }

  /** Where the first pair of underscores begins; the length when there is none. */
  function FirstPair(t: Text): (i: nat)
    ensures i <= |t|
  {
    if |t| < 2 then |t|
    else if t[0] == Underscore && t[1] == Underscore then 0
    else 1 + FirstPair(t[1..])
  }

  lemma PairBehind(t: Text)
    requires t != []
    ensures HasPair(t[1..]) ==> HasPair(t)
  {
    if HasPair(t[1..]) {
      var i :| 0 <= i && i + 1 < |t[1..]| && t[1..][i] == Underscore && t[1..][i + 1] == Underscore;
      assert t[i + 1] == Underscore && t[i + 1 + 1] == Underscore;
    }
  }

  lemma {:induction false} FirstPairEnds(server: Text, rest: Text)
    requires !HasPair(server) && !(server != [] && server[|server| - 1] == Underscore)
    ensures FirstPair(server + Pair() + rest) == |server|
  {
    var t := server + Pair() + rest;
    if server == [] {
      assert t[0] == Underscore && t[1] == Underscore;
    } else {
      assert t[0] == server[0];
      assert t[1..] == server[1..] + Pair() + rest;
      assert |server| > 1 ==> t[1] == server[1];
      PairBehind(server);
      FirstPairEnds(server[1..], rest);
    }
  }

  /** A plain name reads back: the first pair of underscores behind the prefix ends the server. */
  lemma PlainReadsBack(server: Text, tool: Text)
    requires Unambiguous(server, tool)
    ensures var rest := Sanitize(Base(server, tool))[5..];
      var i := FirstPair(rest);
      i + 2 <= |rest| && rest[..i] == server && rest[i + 2..] == tool
  {
    var rest := Base(server, tool)[5..];
    assert rest == server + Pair() + tool;
    FirstPairEnds(server, tool);
  }

  lemma PlainInjective(s1: Text, t1: Text, s2: Text, t2: Text, hash: (Text, Text) -> Text)
    requires Unambiguous(s1, t1) && Unambiguous(s2, t2) && CodeName(s1, t1, hash) == CodeName(s2, t2, hash)
    ensures s1 == s2 && t1 == t2
  {
    PlainReadsBack(s1, t1);
    PlainReadsBack(s2, t2);
  }

  lemma PlainNotHashed(s1: Text, t1: Text, s2: Text, t2: Text, hash: (Text, Text) -> Text)
    requires Unambiguous(s1, t1) && !Unambiguous(s2, t2)
    ensures CodeName(s1, t1, hash) != CodeName(s2, t2, hash)
  {
    assert CodeName(s1, t1, hash)[4] == Underscore;
    assert CodeName(s2, t2, hash)[4] == 0x68;
  }

  lemma HashedEnds(server: Text, tool: Text, hash: (Text, Text) -> Text)
    requires !Unambiguous(server, tool)
    ensures var n := CodeName(server, tool, hash); var d := Digest(hash, server, tool);
      |d| <= |n| && n[|n| - |d|..] == d
  {
    hide Unambiguous, Middle, HashedPrefix;
  }

  /** No two tools share a name unless their digests, cut to twelve characters, are equal. */
  lemma NamesDistinct(s1: Text, t1: Text, s2: Text, t2: Text, hash: (Text, Text) -> Text)
    requires (s1, t1) != (s2, t2)
    requires |Digest(hash, s1, t1)| == |Digest(hash, s2, t2)| && Digest(hash, s1, t1) != Digest(hash, s2, t2)
    ensures CodeName(s1, t1, hash) != CodeName(s2, t2, hash)
  {
    hide Unambiguous, Digest, CodeName;
    if Unambiguous(s1, t1) && Unambiguous(s2, t2) {
      if CodeName(s1, t1, hash) == CodeName(s2, t2, hash) { PlainInjective(s1, t1, s2, t2, hash); }
    } else if Unambiguous(s1, t1) {
      PlainNotHashed(s1, t1, s2, t2, hash);
    } else if Unambiguous(s2, t2) {
      PlainNotHashed(s2, t2, s1, t1, hash);
    } else {
      HashedEnds(s1, t1, hash);
      HashedEnds(s2, t2, hash);
    }
  }

  /** Every name is a JavaScript identifier of at most 128 characters, when the digest is. */
  lemma NamesFit(server: Text, tool: Text, hash: (Text, Text) -> Text)
    requires forall i :: 0 <= i < |Digest(hash, server, tool)| ==> Plain(Digest(hash, server, tool)[i])
    ensures |CodeName(server, tool, hash)| <= MAX_CODE_NAME_LENGTH
    ensures forall i :: 0 <= i < |CodeName(server, tool, hash)| ==> Plain(CodeName(server, tool, hash)[i])
    ensures CodeName(server, tool, hash) != [] && !Digit(CodeName(server, tool, hash)[0])
  {
    if !Unambiguous(server, tool) {
      hide Unambiguous, Digest;
      var a, b, d := HashedPrefix(), Middle(server, tool), Digest(hash, server, tool);
      assert forall i :: 0 <= i < |a| ==> Plain(a[i]);
      assert forall i :: 0 <= i < |b| ==> Plain(b[i]);
      assert |b| <= 108;
      assert CodeName(server, tool, hash) == a + b + [Underscore] + d;
    }
  }

  // ---- when a name is plain ----

  /** The characters of JavaScript identifiers that a name may show: digits, letters, underscore. */
  predicate Word(c: nat) {
    48 <= c <= 57 || 65 <= c <= 90 || 97 <= c <= 122 || c == 95
  }

  lemma WordIsPlain(c: nat)
    ensures Word(c) <==> Plain(c)
  {
  }

  /** No other server and tool are written the same way. */
  ghost predicate OnlyReading(server: Text, tool: Text) {
    forall s: Text, t: Text :: Base(s, t) == Base(server, tool) ==> s == server && t == tool
  }

  lemma OtherReading(server: Text, tool: Text, s: Text, t: Text)
    requires s + Pair() + t == server + Pair() + tool && s != server
    ensures !OnlyReading(server, tool)
  {
    assert Base(s, t) == Prefix() + (s + Pair() + t);
    assert Base(server, tool) == Prefix() + (server + Pair() + tool);
  }

  /** A pair of underscores that is not the separating one separates another server and tool. */
  lemma PairMisreads(server: Text, tool: Text)
    requires HasPair(server) || HasPair(tool) || (server != [] && server[|server| - 1] == Underscore) || (tool != [] && tool[0] == Underscore)
    ensures !OnlyReading(server, tool)
  {
    var rest := server + Pair() + tool;
    var i: nat;
    if HasPair(server) {
      i :| i + 1 < |server| && server[i] == Underscore && server[i + 1] == Underscore;
    } else if HasPair(tool) {
      var j: nat :| j + 1 < |tool| && tool[j] == Underscore && tool[j + 1] == Underscore;
      i := |server| + 2 + j;
    } else if server != [] && server[|server| - 1] == Underscore {
      i := |server| - 1;
    } else {
      i := |server| + 1;
    }
    assert rest[i] == Underscore && rest[i + 1] == Underscore && i != |server|;
    assert rest[..i] + Pair() + rest[i + 2..] == rest;
    OtherReading(server, tool, rest[..i], rest[i + 2..]);
  }

  lemma OneReading(server: Text, tool: Text, s: Text, t: Text)
    requires !HasPair(server) && !(server != [] && server[|server| - 1] == Underscore)
    requires !HasPair(tool) && !(tool != [] && tool[0] == Underscore) && Base(s, t) == Base(server, tool)
    ensures s == server && t == tool
  {
    var rest := server + Pair() + tool;
    assert Base(server, tool)[5..] == rest;
    assert Base(s, t)[5..] == s + Pair() + t;
    assert rest == s + Pair() + t;
    assert rest[|s|] == Underscore && rest[|s| + 1] == Underscore;
    if |s| != |server| { PairsElsewhere(server, tool, |s|); }
    assert s == rest[..|s|] && t == rest[|s| + 2..];
  }

  /** A second pair of underscores lies in one of the names or touches the separator. */
  lemma PairsElsewhere(server: Text, tool: Text, i: nat)
    requires var rest := server + Pair() + tool; i + 1 < |rest| && rest[i] == Underscore && rest[i + 1] == Underscore
    requires i != |server|
    ensures HasPair(server) || HasPair(tool) || (server != [] && server[|server| - 1] == Underscore) || (tool != [] && tool[0] == Underscore)
  {
    var rest := server + Pair() + tool;
    if i + 1 < |server| {
      assert server[i] == Underscore && server[i + 1] == Underscore;
    } else if i + 1 == |server| {
      assert server[i] == Underscore;
    } else if i == |server| + 1 {
      assert tool[0] == rest[i + 1];
    } else {
      assert tool[i - |server| - 2] == Underscore && tool[i - |server| - 2 + 1] == Underscore;
    }
  }

  /** A tool gets its plain name exactly when that is an identifier of at most 128 characters that no
      other server and tool could have. */
  lemma PlainExactly(server: Text, tool: Text, hash: (Text, Text) -> Text)
    ensures CodeName(server, tool, hash) == Base(server, tool) <==>
      && OnlyReading(server, tool) && |Base(server, tool)| <= 128
      && forall i :: 0 <= i < |Base(server, tool)| ==> Word(Base(server, tool)[i])
    ensures Base(server, tool) == [109, 99, 112, 95, 95] + server + [95, 95] + tool
  {
    var b := Base(server, tool);
    forall i | 0 <= i < |b| ensures Word(b[i]) <==> Plain(b[i]) { WordIsPlain(b[i]); }
    assert Sanitize(b) == b <==> forall i :: 0 <= i < |b| ==> Plain(b[i]) by { SanitizeSame(b); }
    if HasPair(server) || HasPair(tool) || (server != [] && server[|server| - 1] == Underscore) || (tool != [] && tool[0] == Underscore) {
      PairMisreads(server, tool);
    } else {
      forall s: Text, t: Text | Base(s, t) == b ensures s == server && t == tool { OneReading(server, tool, s, t); }
    }
    if !Unambiguous(server, tool) && CodeName(server, tool, hash) == b { HashedMisreads(server, tool, hash); }
  }

  lemma SanitizeSame(b: Text)
    requires b != []
    ensures Sanitize(b) == b <==> forall i :: 0 <= i < |b| ==> Plain(b[i])
  {
    hide Plain;
    if forall i :: 0 <= i < |b| ==> Plain(b[i]) {
      assert forall i :: 0 <= i < |b| ==> Sanitize(b)[i] == b[i];
    }
  }

  /** A hashed name is never the plain one. */
  lemma HashedMisreads(server: Text, tool: Text, hash: (Text, Text) -> Text)
    requires !Unambiguous(server, tool)
    ensures CodeName(server, tool, hash) != Base(server, tool)
  {
    assert CodeName(server, tool, hash)[4] == 0x68;
    assert Base(server, tool)[4] == Underscore;
  }

  /** How a character is shown in a hashed name. */
  function Shown(c: nat): nat {
    if Word(c) then c else 95
  }

  /** Any other name has the marked prefix, as much of both names as 128 characters leave room for,
      with an underscore for what an identifier cannot hold, and twelve characters of the digest. */
  lemma HashedExactly(server: Text, tool: Text, hash: (Text, Text) -> Text)
    requires CodeName(server, tool, hash) != Base(server, tool)
    ensures var n, rest, d := CodeName(server, tool, hash), server + [95, 95] + tool, hash(server, tool);
      var kept := if |rest| <= 108 then |rest| else 108;
      var cut := if |d| <= 12 then |d| else 12;
      && |n| == 7 + kept + 1 + cut
      && n[..7] == [109, 99, 112, 95, 104, 95, 95]
      && (forall i :: 0 <= i < kept ==> n[7 + i] == Shown(rest[i]))
      && n[7 + kept] == 95 && n[8 + kept..] == d[..cut]
  {
    var n, rest := CodeName(server, tool, hash), server + [95, 95] + tool;
    var b := Base(server, tool);
    assert b == Prefix() + rest;
    var m := Middle(server, tool);
    var kept := if |rest| <= 108 then |rest| else 108;
    assert |b| == 5 + |rest| && |m| == kept;
    forall i | 0 <= i < kept ensures m[i] == Shown(rest[i]) {
      assert m[i] == Sanitize(b)[5 + i];
      assert b[5 + i] == rest[i];
      WordIsPlain(rest[i]);
    }
    assert !Unambiguous(server, tool);
    hide Unambiguous, Middle, Shown;
  }
}
