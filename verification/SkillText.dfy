/** Texts as code points, and the JSON strings that the skill catalog shows. A lone surrogate is a
    code point of its own. */
module SkillTexts {

  datatype Option<+T> = None | Some(value: T)

  type Point = c: nat | c < 0x110000

  type Text = seq<Point>

  predicate Surrogate(c: Point) {
    0xd800 <= c < 0xe000
  }

  /** Characters that would break a line or turn its direction. */
  predicate Control(c: Point) {
    c == 0x2028 || c == 0x2029 || 0x202a <= c <= 0x202e || 0x2066 <= c <= 0x2069
  }

  function HexDigit(d: nat): (c: Point)
    requires d < 16
    ensures 0x30 <= c <= 0x39 || 0x61 <= c <= 0x66
  {
    if d < 10 then 0x30 + d else 0x61 + d - 10
  }

  function HexValue(c: Point): (d: Option<nat>)
    ensures d.Some? ==> d.value < 16
  {
    if 0x30 <= c <= 0x39 then Some(c - 0x30)
    else if 0x61 <= c <= 0x66 then Some(c - 0x61 + 10)
    else if 0x41 <= c <= 0x46 then Some(c - 0x41 + 10)
    else None
  }

  /** `\u` and four hexadecimal digits. */
  function UnicodeEscape(c: Point): (t: Text)
    requires c < 0x10000
    ensures |t| == 6
  {
    [0x5c, 0x75, HexDigit(c / 16 / 16 / 16), HexDigit(c / 16 / 16 % 16), HexDigit(c / 16 % 16), HexDigit(c % 16)]
  }

  /** One code point inside a quoted text: as `JSON.stringify` writes it, then the controls. */
  function Escape(c: Point): (t: Text)
    ensures t != []
  {
    if c == 0x22 then [0x5c, 0x22]
    else if c == 0x5c then [0x5c, 0x5c]
    else if c == 8 then [0x5c, 0x62]
    else if c == 9 then [0x5c, 0x74]
    else if c == 10 then [0x5c, 0x6e]
    else if c == 12 then [0x5c, 0x66]
    else if c == 13 then [0x5c, 0x72]
    else if c < 0x20 || Surrogate(c) || Control(c) then UnicodeEscape(c)
    else [c]
  }

  function EscapeAll(t: Text): Text {
    if t == [] then [] else Escape(t[0]) + EscapeAll(t[1..])
  }

  /** `quote` */
  function Quote(t: Text): (q: Text)
    ensures |q| >= 2 && q[0] == 0x22
  {
    [0x22] + EscapeAll(t) + [0x22]
  }

  // ---- reading JSON strings back (section 7 of RFC 8259) ----

  /** The code point that a two-character escape stands for. */
  function Simple(c: Point): Option<Point> {
    if c == 0x22 || c == 0x5c || c == 0x2f then Some(c)
    else if c == 0x62 then Some(8)
    else if c == 0x74 then Some(9)
    else if c == 0x6e then Some(10)
    else if c == 0x66 then Some(12)
    else if c == 0x72 then Some(13)
    else None
  }

  function Hex4(t: Text): (c: Option<Point>)
    ensures c.Some? ==> |t| >= 4
  {
    if |t| < 4 then None
    else
      var a, b, c, d := HexValue(t[0]), HexValue(t[1]), HexValue(t[2]), HexValue(t[3]);
      if a.None? || b.None? || c.None? || d.None? then None
      else Some(0x1000 * a.value + 0x100 * b.value + 16 * c.value + d.value)
  }

  /** What follows an opening quotation mark, up to the closing one at the very end. */
  function Unescape(t: Text): Option<Text>
    decreases |t|
  {
    if t == [] then None
    else if t[0] == 0x22 then (if |t| == 1 then Some([]) else None)
    else if t[0] < 0x20 then None
    else if t[0] != 0x5c then Prepend(t[0], Unescape(t[1..]))
    else if |t| == 1 then None
    else if t[1] == 0x75 then
      var c := Hex4(t[2..]);
      if c.None? then None else Prepend(c.value, Unescape(t[6..]))
    else
      var c := Simple(t[1]);
      if c.None? then None else Prepend(c.value, Unescape(t[2..]))
  }

  function Prepend(c: Point, rest: Option<Text>): Option<Text> {
    if rest.None? then None else Some([c] + rest.value)
  }

  function Unquote(q: Text): Option<Text> {
    if q == [] || q[0] != 0x22 then None else Unescape(q[1..])
  }

  lemma HexDigits(d: nat)
    requires d < 16
    ensures HexValue(HexDigit(d)) == Some(d)
  {
  }

  lemma HexRoundTrip(c: Point, rest: Text)
    requires c < 0x10000
    ensures Hex4((UnicodeEscape(c) + rest)[2..]) == Some(c)
  {
    var t := (UnicodeEscape(c) + rest)[2..];
    var x, y := c / 16, c / 16 / 16;
    HexDigits(y / 16);
    HexDigits(y % 16);
    HexDigits(x % 16);
    HexDigits(c % 16);
    assert t[..4] == [HexDigit(y / 16), HexDigit(y % 16), HexDigit(x % 16), HexDigit(c % 16)];
    hide HexDigit, HexValue;
    assert t[0] == t[..4][0] && t[1] == t[..4][1] && t[2] == t[..4][2] && t[3] == t[..4][3];
    assert c == 16 * x + c % 16 && x == 16 * y + x % 16 && y == 16 * (y / 16) + y % 16;
  }

  lemma UnescapeOne(c: Point, rest: Text)
    ensures Unescape(Escape(c) + rest) == Prepend(c, Unescape(rest))
  {
    var e := Escape(c);
    var t := e + rest;
    if |e| == 6 {
      HexRoundTrip(c, rest);
      assert t[6..] == rest;
    } else if |e| == 2 {
      assert t[2..] == rest;
    } else {
      assert t[1..] == rest;
    }
  }

  lemma {:induction false} UnescapeAll(t: Text)
    ensures Unescape(EscapeAll(t) + [0x22]) == Some(t)
  {
    if t == [] {
      assert EscapeAll(t) + [0x22] == [0x22];
    } else {
      var rest := EscapeAll(t[1..]) + [0x22];
      assert EscapeAll(t) + [0x22] == Escape(t[0]) + rest;
      UnescapeAll(t[1..]);
      UnescapeOne(t[0], rest);
      assert [t[0]] + t[1..] == t;
    }
  }

  /** A quoted text reads back as itself. */
  lemma QuoteRoundTrip(t: Text)
    ensures Unquote(Quote(t)) == Some(t)
  {
    assert Quote(t)[1..] == EscapeAll(t) + [0x22];
    UnescapeAll(t);
  }

  // ---- sizes ----

  datatype Metric = Chars | Bytes

  function PointSize(c: Point, m: Metric): nat {
    if m == Chars then 1
    else if c < 0x80 then 1 else if c < 0x800 then 2 else if c < 0x10000 then 3 else 4
  }

  /** `characterCount` or `Buffer.byteLength`. */
  function Size(t: Text, m: Metric): nat {
    if t == [] then 0 else PointSize(t[0], m) + Size(t[1..], m)
  }

  lemma {:induction false} SizeConcat(a: Text, b: Text, m: Metric)
    ensures Size(a + b, m) == Size(a, m) + Size(b, m)
  {
    if a == [] {
      assert a + b == b;
    } else {
      assert (a + b)[1..] == a[1..] + b;
      SizeConcat(a[1..], b, m);
    }
  }

  lemma {:induction false} EscapeConcat(a: Text, b: Text)
    ensures EscapeAll(a + b) == EscapeAll(a) + EscapeAll(b)
  {
    if a == [] {
      assert a + b == b;
    } else {
      assert (a + b)[1..] == a[1..] + b;
      EscapeConcat(a[1..], b);
    }
  }

  /** Quoting two parts together saves one pair of quotation marks. */
  lemma QuoteConcat(a: Text, b: Text, m: Metric)
    ensures Size(Quote(a + b), m) + 2 == Size(Quote(a), m) + Size(Quote(b), m)
  {
    EscapeConcat(a, b);
    QuoteSize(a, m);
    QuoteSize(b, m);
    QuoteSize(a + b, m);
    SizeConcat(EscapeAll(a), EscapeAll(b), m);
  }

  lemma QuoteSize(t: Text, m: Metric)
    ensures Size(Quote(t), m) == Size(EscapeAll(t), m) + 2
  {
    hide EscapeAll;
    SizeConcat([0x22], EscapeAll(t), m);
    SizeConcat([0x22] + EscapeAll(t), [0x22], m);
    assert Size([0x22], m) == 1;
  }

  lemma {:induction false} CharsAreLength(t: Text)
    ensures Size(t, Chars) == |t|
  {
    if t != [] { CharsAreLength(t[1..]); }
  }
}
