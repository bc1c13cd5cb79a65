/** UTF-8 byte strings as section 4 of RFC 3629 defines them, and the cut points that the
    broker's byte loops look for: a byte index is a boundary when no character spans it. */
module Utf8 {

  type byte = x: int | 0 <= x < 256

  /** `(byte & 0xc0) === 0x80` in the program. */
  predicate Continuation(b: byte) {
    0x80 <= b < 0xC0
  }

  /** The second byte of a multi-byte character; the exceptions exclude overlong forms,
      surrogates and values above U+10FFFF. */
  predicate SecondByte(lead: byte, b: byte) {
    && Continuation(b)
    && (lead == 0xE0 ==> 0xA0 <= b)
    && (lead == 0xED ==> b <= 0x9F)
    && (lead == 0xF0 ==> 0x90 <= b)
    && (lead == 0xF4 ==> b <= 0x8F)
  }

  /** Bytes of the first character of `s`, or 0 when `s` does not start with one. */
  function CharLength(s: seq<byte>): (n: nat)
    ensures n <= 4 && n <= |s|
    ensures forall k :: 1 <= k < n ==> Continuation(s[k])
    ensures n > 0 ==> !Continuation(s[0])
  {
    if s == [] then 0
    else if s[0] <= 0x7F then 1
    else if 0xC2 <= s[0] <= 0xDF && |s| >= 2 && Continuation(s[1]) then 2
    else if 0xE0 <= s[0] <= 0xEF && |s| >= 3 && SecondByte(s[0], s[1]) && Continuation(s[2]) then 3
    else if 0xF0 <= s[0] <= 0xF4 && |s| >= 4 && SecondByte(s[0], s[1]) && Continuation(s[2]) && Continuation(s[3]) then 4
    else 0
  }

  predicate WellFormed(s: seq<byte>) {
    s == [] || (CharLength(s) > 0 && WellFormed(s[CharLength(s)..]))
  }

  predicate Boundary(s: seq<byte>, i: nat)
    requires i <= |s|
  {
    i == |s| || !Continuation(s[i])
  }

  /** Where `while (i && i < s.length && continuation(s[i])) i--` stops. */
  function FloorCut(s: seq<byte>, i: nat): (j: nat)
    requires i <= |s|
    ensures j <= i
    ensures j == 0 || Boundary(s, j)
    ensures forall k :: j < k <= i ==> k < |s| && Continuation(s[k])
    ensures i == |s| ==> j == i
  {
    if i > 0 && i < |s| && Continuation(s[i]) then FloorCut(s, i - 1) else i
  }

  /** Where `while (i < s.length && continuation(s[i])) i++` stops. */
  function CeilCut(s: seq<byte>, i: nat): (j: nat)
    requires i <= |s|
    ensures i <= j <= |s|
    ensures Boundary(s, j)
    ensures forall k :: i <= k < j ==> Continuation(s[k])
    decreases |s| - i
  {
    if i < |s| && Continuation(s[i]) then CeilCut(s, i + 1) else i
  }

  /** Only the first character's own bytes decide its length. */
  lemma CharLengthPrefix(s: seq<byte>, t: seq<byte>)
    requires 0 < CharLength(s) <= |t| && CharLength(s) <= |s|
    requires forall k :: 0 <= k < CharLength(s) ==> s[k] == t[k]
    ensures CharLength(t) == CharLength(s)
  {
  }

  /** A well-formed string stays well formed when it is cut at a boundary. */
  lemma {:induction false} SplitAtBoundary(s: seq<byte>, i: nat)
    requires WellFormed(s) && i <= |s| && Boundary(s, i)
    ensures WellFormed(s[..i]) && WellFormed(s[i..])
    decreases |s|
  {
    hide CharLength;
    if i == 0 {
      assert s[0..] == s;
    } else {
      var n := CharLength(s);
      assert n <= i;
      var rest := s[n..];
      SplitAtBoundary(rest, i - n);
      assert rest[i - n..] == s[i..];
      assert s[..i][n..] == rest[..i - n];
      CharLengthPrefix(s, s[..i]);
    }
  }

  lemma {:induction false} Concat(s: seq<byte>, t: seq<byte>)
    requires WellFormed(s) && WellFormed(t)
    ensures WellFormed(s + t)
    decreases |s|
  {
    hide CharLength;
    if s == [] {
      assert s + t == t;
    } else {
      var n := CharLength(s);
      CharLengthPrefix(s, s + t);
      assert (s + t)[n..] == s[n..] + t;
      Concat(s[n..], t);
    }
  }

  /** No character has four continuation bytes, so four in a row cannot occur. */
  lemma {:induction false} NoLongRun(s: seq<byte>, i: nat)
    requires WellFormed(s) && i + 3 < |s|
    ensures exists k :: i <= k <= i + 3 && !Continuation(s[k])
    decreases |s|
  {
    var n := CharLength(s);
    if i < n && n < |s| {
      assert CharLength(s[n..]) > 0;
      assert s[n..][0] == s[n];
      assert !Continuation(s[n]);
    } else if i >= n {
      NoLongRun(s[n..], i - n);
      var k :| i - n <= k <= i - n + 3 && !Continuation(s[n..][k]);
      assert s[n..][k] == s[n + k];
      assert !Continuation(s[n + k]);
    }
  }

  /** A cut moves by at most three bytes, and cutting at four bytes or more keeps something. */
  lemma CutDistance(s: seq<byte>, i: nat)
    requires WellFormed(s) && i <= |s|
    ensures i - FloorCut(s, i) <= 3
    ensures CeilCut(s, i) - i <= 3
    ensures Boundary(s, FloorCut(s, i))
    ensures (i >= 4 || i == |s|) && i > 0 ==> FloorCut(s, i) > 0
  {
    var f, c := FloorCut(s, i), CeilCut(s, i);
    if s != [] {
      assert !Continuation(s[0]);
    }
    if c - i > 3 {
      NoLongRun(s, i);
    }
    if i - f > 3 {
      NoLongRun(s, i - 3);
    }
  }

  /** Both halves of a floor or ceiling cut of well-formed text are well formed. */
  lemma CutsWellFormed(s: seq<byte>, i: nat)
    requires WellFormed(s) && i <= |s|
    ensures WellFormed(s[..FloorCut(s, i)]) && WellFormed(s[FloorCut(s, i)..])
    ensures WellFormed(s[..CeilCut(s, i)]) && WellFormed(s[CeilCut(s, i)..])
  {
    CutDistance(s, i);
    SplitAtBoundary(s, FloorCut(s, i));
    SplitAtBoundary(s, CeilCut(s, i));
  }

  /** The longest prefix of at most `maximum` bytes that the floor loop keeps. */
  function Front(s: seq<byte>, maximum: nat): (f: seq<byte>)
    ensures f <= s && |f| <= maximum
  {
    s[..FloorCut(s, if maximum < |s| then maximum else |s|)]
  }
}
