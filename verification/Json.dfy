/** JavaScript strings and the size of their JSON. A text is a sequence of UTF-16 code units, so a
    surrogate may stand alone; `Buffer.byteLength` and `JSON.stringify` then have exact sizes. */
module Jsons {

  datatype Option<+T> = None | Some(value: T)

  type Unit = u: nat | u < 0x10000

  type Text = seq<Unit>

  predicate High(u: Unit) {
    0xd800 <= u < 0xdc00
  }

  predicate Low(u: Unit) {
    0xdc00 <= u < 0xe000
  }

  /** How many units the first code point takes. */
  function Lead(t: Text): (n: nat)
    requires t != []
    ensures 1 <= n <= 2 && n <= |t|
  {
    if |t| > 1 && High(t[0]) && Low(t[1]) then 2 else 1
  }

  /** `Buffer.byteLength`: a lone surrogate becomes U+FFFD, which has three bytes. */
  function PointBytes(u: Unit, pair: bool): nat {
    if pair then 4 else if u < 0x80 then 1 else if u < 0x800 then 2 else 3
  }

  function Utf8(t: Text): nat {
    if t == [] then 0 else PointBytes(t[0], Lead(t) == 2) + Utf8(t[Lead(t)..])
  }

  datatype Metric = Bytes | Units

  /** One code point inside a JSON string (section 7 of RFC 8259): quotes, backslashes and controls
      are escaped, and so is a lone surrogate. */
  function EscapedPoint(u: Unit, pair: bool, m: Metric): nat {
    if pair then (if m == Bytes then 4 else 2)
    else if u == 0x22 || u == 0x5c || u == 8 || u == 9 || u == 10 || u == 12 || u == 13 then 2
    else if u < 0x20 || High(u) || Low(u) then 6
    else if m == Bytes then PointBytes(u, false) else 1
  }

  function Escaped(t: Text, m: Metric): nat {
    if t == [] then 0 else EscapedPoint(t[0], Lead(t) == 2, m) + Escaped(t[Lead(t)..], m)
  }

  function Quoted(t: Text, m: Metric): nat {
    2 + Escaped(t, m)
  }

  datatype Field = Field(name: Text, value: Json)

  /** `Raw` stands for a number, a literal or any other value of a known ASCII size. */
  datatype Json =
    | Raw(size: nat)
    | Str(text: Text)
    | Arr(items: seq<Json>)
    | Obj(fields: seq<Field>)

  /** The length of `JSON.stringify`, in bytes or in code units. */
  function Size(j: Json, m: Metric): nat
    decreases j, 1, 0
  {
    match j
    case Raw(size) => size
    case Str(text) => Quoted(text, m)
    case Arr(items) => 2 + Commas(|items|) + Items(j, |items|, m)
    case Obj(fields) => 2 + Commas(|fields|) + Fields(j, |fields|, m)
  }

  function Commas(n: nat): nat {
    if n == 0 then 0 else n - 1
  }

  function Items(j: Json, n: nat, m: Metric): nat
    requires j.Arr? && n <= |j.items|
    decreases j, 0, n
  {
    if n == 0 then 0 else Items(j, n - 1, m) + Size(j.items[n - 1], m)
  }

  function Fields(j: Json, n: nat, m: Metric): nat
    requires j.Obj? && n <= |j.fields|
    decreases j, 0, n
  {
    if n == 0 then 0
    else Fields(j, n - 1, m) + Quoted(j.fields[n - 1].name, m) + 1 + Size(j.fields[n - 1].value, m)
  }

  lemma {:induction false} ItemsPrefix(a: seq<Json>, b: seq<Json>, n: nat, m: Metric)
    requires n <= |a| && n <= |b| && a[..n] == b[..n]
    ensures Items(Arr(a), n, m) == Items(Arr(b), n, m)
  {
    if n > 0 {
      assert a[n - 1] == a[..n][n - 1] == b[..n][n - 1] == b[n - 1];
      assert a[..n - 1] == a[..n][..n - 1] == b[..n][..n - 1] == b[..n - 1];
      ItemsPrefix(a, b, n - 1, m);
    }
  }

  /** One more item costs itself and, unless it is the first, a comma. */
  lemma ArrAppend(items: seq<Json>, x: Json, m: Metric)
    ensures Size(Arr(items + [x]), m) == Size(Arr(items), m) + Size(x, m) + (if items == [] then 0 else 1)
  {
    var more := items + [x];
    assert more[..|items|] == items[..|items|];
    ItemsPrefix(more, items, |items|, m);
    assert Items(Arr(more), |more|, m) == Items(Arr(more), |items|, m) + Size(x, m);
  }

  lemma {:induction false} FieldsPrefix(a: seq<Field>, b: seq<Field>, n: nat, m: Metric)
    requires n <= |a| && n <= |b| && a[..n] == b[..n]
    ensures Fields(Obj(a), n, m) == Fields(Obj(b), n, m)
  {
    if n > 0 {
      assert a[n - 1] == a[..n][n - 1] == b[..n][n - 1] == b[n - 1];
      assert a[..n - 1] == a[..n][..n - 1] == b[..n][..n - 1] == b[..n - 1];
      FieldsPrefix(a, b, n - 1, m);
    }
  }

  /** Replacing the value of the last field changes the size by the difference of the values. */
  lemma LastField(fields: seq<Field>, name: Text, x: Json, y: Json, m: Metric)
    ensures Size(Obj(fields + [Field(name, x)]), m) + Size(y, m) == Size(Obj(fields + [Field(name, y)]), m) + Size(x, m)
  {
    var a, b := fields + [Field(name, x)], fields + [Field(name, y)];
    assert a[..|fields|] == b[..|fields|];
    FieldsPrefix(a, b, |fields|, m);
  }

  // ---- texts ----

  /** Where the second text does not complete a surrogate pair, UTF-8 sizes add up. */
  lemma {:induction false} Utf8Concat(a: Text, b: Text)
    requires a == [] || b == [] || !High(a[|a| - 1]) || !Low(b[0])
    ensures Utf8(a + b) == Utf8(a) + Utf8(b)
  {
    if a == [] {
      assert a + b == b;
    } else if |a| == 1 {
      assert Lead(a + b) == 1 && (a + b)[1..] == b && a[1..] == [];
      assert Utf8(a) == PointBytes(a[0], false) + Utf8(a[1..]);
      assert (a + b)[0] == a[0];
    } else {
      var n := Lead(a);
      assert Lead(a + b) == n && (a + b)[0] == a[0] && (a + b)[n..] == a[n..] + b;
      Utf8Concat(a[n..], b);
    }
  }

  function Ascii(s: string): (t: Text)
    ensures |t| == |s|
    ensures forall i :: 0 <= i < |s| ==> t[i] == (if s[i] as int < 0x80 then s[i] as int else 0xfffd)
  {
    seq(|s|, i requires 0 <= i < |s| => if s[i] as int < 0x80 then s[i] as int else 0xfffd)
  }

  /** JavaScript white space, as `trim` and `\s` understand it. */
  predicate Space(u: Unit) {
    9 <= u <= 13 || u == 0x20 || u == 0xa0 || u == 0x1680 || 0x2000 <= u <= 0x200a
    || u == 0x2028 || u == 0x2029 || u == 0x202f || u == 0x205f || u == 0x3000 || u == 0xfeff
  }

  function TrimStart(t: Text): (r: Text)
    ensures |r| <= |t|
    ensures r == [] || !Space(r[0])
  {
    if t != [] && Space(t[0]) then TrimStart(t[1..]) else t
  }

  function TrimEnd(t: Text): (r: Text)
    ensures |r| <= |t|
    ensures r == [] || !Space(r[|r| - 1])
    ensures t != [] && !Space(t[0]) ==> r != [] && r[0] == t[0]
  {
    if t != [] && Space(t[|t| - 1]) then TrimEnd(t[..|t| - 1]) else t
  }

  function Trim(t: Text): Text {
    TrimEnd(TrimStart(t))
  }

  /** `replace(/\s+/g, " ")` */
  function Collapse(t: Text): Text {
    if t == [] then []
    else if !Space(t[0]) then [t[0]] + Collapse(t[1..])
    else if |t| > 1 && Space(t[1]) then Collapse(t[1..])
    else [0x20] + Collapse(t[1..])
  }

  // ---- numbers ----

  function Decimal(n: nat): (t: Text)
    ensures |t| == Digits(n) && forall i :: 0 <= i < |t| ==> 0x30 <= t[i] <= 0x39
  {
    if n < 10 then [0x30 + n] else Decimal(n / 10) + [0x30 + n % 10]
  }

  function Digits(n: nat): (d: nat)
    ensures d >= 1
  {
    if n < 10 then 1 else 1 + Digits(n / 10)
  }

  /** The number that a decimal text spells. */
  function Spelled(t: seq<nat>): int {
    if t == [] then 0 else 10 * Spelled(t[..|t| - 1]) + t[|t| - 1] - 0x30
  }

  lemma {:induction false} DecimalSpelled(n: nat)
    ensures Spelled(Decimal(n)) == n
  {
    if n >= 10 {
      DecimalSpelled(n / 10);
      assert Decimal(n)[..|Decimal(n)| - 1] == Decimal(n / 10);
    } else {
      assert Decimal(n)[..0] == [];
    }
  }
}
