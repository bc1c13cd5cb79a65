/** `JSON.stringify` itself: the sizes of module Jsons are the lengths of this text. A raw value is
    shown by as many digits as it has characters. */
module JsonTexts {
  import opened Jsons

  function HexUnit(d: nat): Unit
    requires d < 16
  {
    if d < 10 then 0x30 + d else 0x61 + d - 10
  }

  /** A backslash, `u` and four hexadecimal digits. */
  function UnicodeEscape(u: Unit): (t: Text)
    ensures |t| == 6
  {
    [0x5c, 0x75, HexUnit(u / 16 / 16 / 16), HexUnit(u / 16 / 16 % 16), HexUnit(u / 16 % 16), HexUnit(u % 16)]
  }

  function EscapeUnit(u: Unit): Text {
    if u == 0x22 then [0x5c, 0x22]
    else if u == 0x5c then [0x5c, 0x5c]
    else if u == 8 then [0x5c, 0x62]
    else if u == 9 then [0x5c, 0x74]
    else if u == 10 then [0x5c, 0x6e]
    else if u == 12 then [0x5c, 0x66]
    else if u == 13 then [0x5c, 0x72]
    else if u < 0x20 || High(u) || Low(u) then UnicodeEscape(u)
    else [u]
  }

  function Escape(t: Text): Text {
    if t == [] then []
    else (if Lead(t) == 2 then t[..2] else EscapeUnit(t[0])) + Escape(t[Lead(t)..])
  }

  function QuoteText(t: Text): Text {
    [0x22] + Escape(t) + [0x22]
  }

  function Stringify(j: Json): Text
    decreases j, 1, 0
  {
    match j
    case Raw(size) => seq(size, _ => 0x30)
    case Str(text) => QuoteText(text)
    case Arr(items) => [0x5b] + ItemsText(j, |items|) + [0x5d]
    case Obj(fields) => [0x7b] + FieldsText(j, |fields|) + [0x7d]
  }

  function ItemsText(j: Json, n: nat): Text
    requires j.Arr? && n <= |j.items|
    decreases j, 0, n
  {
    if n == 0 then [] else ItemsText(j, n - 1) + (if n == 1 then [] else [0x2c]) + Stringify(j.items[n - 1])
  }

  function FieldsText(j: Json, n: nat): Text
    requires j.Obj? && n <= |j.fields|
    decreases j, 0, n
  {
    if n == 0 then []
    else
      FieldsText(j, n - 1) + (if n == 1 then [] else [0x2c])
      + QuoteText(j.fields[n - 1].name) + [0x3a] + Stringify(j.fields[n - 1].value)
  }

  // ---- measuring ----

  function Measure(t: Text, m: Metric): nat {
    if m == Bytes then Utf8(t) else |t|
  }

  /** No unit is a lone surrogate, so texts can be joined anywhere. */
  predicate Paired(t: Text) {
    t == [] || (!Low(t[0]) && (Lead(t) == 2 || !High(t[0])) && Paired(t[Lead(t)..]))
  }

  lemma {:induction false} PairedConcat(a: Text, b: Text)
    requires Paired(a) && Paired(b)
    ensures Paired(a + b)
    ensures forall m :: Measure(a + b, m) == Measure(a, m) + Measure(b, m)
    decreases |a|
  {
    if a == [] {
      assert a + b == b;
    } else {
      var n := Lead(a);
      assert Lead(a + b) == n && (a + b)[0] == a[0] && (a + b)[n..] == a[n..] + b;
      PairedConcat(a[n..], b);
      assert Measure(a[n..] + b, Bytes) == Measure(a[n..], Bytes) + Measure(b, Bytes);
    }
  }

  lemma AsciiUnits(t: Text)
    requires forall i :: 0 <= i < |t| ==> t[i] < 0x80
    ensures Paired(t)
    ensures forall m :: Measure(t, m) == |t|
  {
    if t != [] {
      assert Lead(t) == 1;
      AsciiUnits(t[1..]);
      assert Measure(t[1..], Bytes) == |t| - 1;
    }
  }

  lemma EscapedUnit(t: Text)
    requires t != []
    ensures var e := if Lead(t) == 2 then t[..2] else EscapeUnit(t[0]);
      Paired(e) && forall m :: Measure(e, m) == EscapedPoint(t[0], Lead(t) == 2, m)
  {
    var e := if Lead(t) == 2 then t[..2] else EscapeUnit(t[0]);
    if Lead(t) == 2 {
      assert Lead(e) == 2 && e[2..] == [];
      assert Utf8(e) == 4;
    } else if |e| == 1 {
      assert Lead(e) == 1 && e[1..] == [];
      assert Utf8(e) == PointBytes(e[0], false) + Utf8(e[1..]);
    } else {
      AsciiUnits(e);
    }
  }

  lemma {:induction false} EscapeMeasure(t: Text)
    ensures Paired(Escape(t))
    ensures forall m :: Measure(Escape(t), m) == Escaped(t, m)
    decreases |t|
  {
    hide EscapeUnit, EscapedPoint, Measure;
    if t != [] {
      EscapedUnit(t);
      EscapeMeasure(t[Lead(t)..]);
      PairedConcat(if Lead(t) == 2 then t[..2] else EscapeUnit(t[0]), Escape(t[Lead(t)..]));
    } else {
      AsciiUnits(Escape(t));
    }
  }

  lemma OneUnit(u: Unit)
    requires u < 0x80
    ensures Paired([u]) && forall m :: Measure([u], m) == 1
  {
    AsciiUnits([u]);
  }

  lemma QuoteMeasure(t: Text)
    ensures Paired(QuoteText(t))
    ensures forall m :: Measure(QuoteText(t), m) == Quoted(t, m)
  {
    hide Measure, Escape, Paired;
    EscapeMeasure(t);
    OneUnit(0x22);
    PairedConcat([0x22], Escape(t));
    PairedConcat([0x22] + Escape(t), [0x22]);
  }

  /** The sizes that the notes store and its responses count are those of the real JSON text. */
  lemma {:induction false} SizeIsLength(j: Json)
    ensures Paired(Stringify(j))
    ensures forall m :: Measure(Stringify(j), m) == Size(j, m)
    decreases j, 1, 0
  {
    hide Measure, Paired, QuoteText, Quoted;
    match j
    case Raw(size) => AsciiUnits(seq(size, _ => 0x30));
    case Str(text) => QuoteMeasure(text);
    case Arr(items) =>
      ItemsMeasure(j, |items|);
      Bracketed(0x5b, ItemsText(j, |items|), 0x5d);
    case Obj(fields) =>
      FieldsMeasure(j, |fields|);
      Bracketed(0x7b, FieldsText(j, |fields|), 0x7d);
  }

  lemma Bracketed(a: Unit, t: Text, b: Unit)
    requires a < 0x80 && b < 0x80 && Paired(t)
    ensures Paired([a] + t + [b]) && forall m :: Measure([a] + t + [b], m) == Measure(t, m) + 2
  {
    hide Measure, Paired;
    OneUnit(a);
    OneUnit(b);
    PairedConcat([a], t);
    PairedConcat([a] + t, [b]);
  }

  lemma Comma(t: Text, first: bool)
    requires Paired(t)
    ensures var s := if first then [] else [0x2c];
      Paired(t + s) && forall m :: Measure(t + s, m) == Measure(t, m) + (if first then 0 else 1)
  {
    hide Measure, Paired;
    if first {
      assert t + [] == t;
    } else {
      OneUnit(0x2c);
      PairedConcat(t, [0x2c]);
    }
  }

  lemma {:induction false} ItemsMeasure(j: Json, n: nat)
    requires j.Arr? && n <= |j.items|
    ensures Paired(ItemsText(j, n))
    ensures forall m :: Measure(ItemsText(j, n), m) == Commas(n) + Items(j, n, m)
    decreases j, 0, n
  {
    if n == 0 {
      AsciiUnits([]);
    } else {
      hide Measure, Paired;
      ItemsMeasure(j, n - 1);
      SizeIsLength(j.items[n - 1]);
      Comma(ItemsText(j, n - 1), n == 1);
      PairedConcat(ItemsText(j, n - 1) + (if n == 1 then [] else [0x2c]), Stringify(j.items[n - 1]));
    }
  }

  lemma {:induction false} FieldsMeasure(j: Json, n: nat)
    requires j.Obj? && n <= |j.fields|
    ensures Paired(FieldsText(j, n))
    ensures forall m :: Measure(FieldsText(j, n), m) == Commas(n) + Fields(j, n, m)
    decreases j, 0, n
  {
    if n == 0 {
      AsciiUnits([]);
    } else {
      hide *;
      var f := j.fields[n - 1];
      FieldsMeasure(j, n - 1);
      SizeIsLength(f.value);
      QuoteMeasure(f.name);
      OneUnit(0x3a);
      var a := FieldsText(j, n - 1) + (if n == 1 then [] else [0x2c]);
      Comma(FieldsText(j, n - 1), n == 1);
      PairedConcat(a, QuoteText(f.name));
      PairedConcat(a + QuoteText(f.name), [0x3a]);
      PairedConcat(a + QuoteText(f.name) + [0x3a], Stringify(f.value));
      FieldsStep(j, n);
    }
  }

  lemma FieldsStep(j: Json, n: nat)
    requires j.Obj? && 0 < n <= |j.fields|
    ensures FieldsText(j, n) == FieldsText(j, n - 1) + (if n == 1 then [] else [0x2c])
      + QuoteText(j.fields[n - 1].name) + [0x3a] + Stringify(j.fields[n - 1].value)
    ensures forall m :: Fields(j, n, m) == Fields(j, n - 1, m) + Quoted(j.fields[n - 1].name, m) + 1 + Size(j.fields[n - 1].value, m)
    ensures Commas(n) == Commas(n - 1) + (if n == 1 then 0 else 1)
  {
    hide QuoteText, Quoted, Stringify, Size;
  }
}
