/** Shortening audit text: whole code points from both ends around a marker that prints how many
    were left out. */
module AuditTexts {
  import opened Jsons

  // ---- code points ----

  /** How many units the last code point takes. */
  function Trail(t: Text): (n: nat)
    requires t != []
    ensures 1 <= n <= 2 && n <= |t|
  {
    if |t| > 1 && High(t[|t| - 2]) && Low(t[|t| - 1]) then 2 else 1
  }

  function Points(t: Text): nat {
    if t == [] then 0 else 1 + Points(t[Lead(t)..])
  }

  /** Where the first `k` code points end, scanning forward. */
  function Forward(t: Text, k: nat): (i: nat)
    ensures i <= |t|
  {
    if t == [] || k == 0 then 0 else Lead(t) + Forward(t[Lead(t)..], k - 1)
  }

  /** Where the last `k` code points begin, scanning backward. */
  function Backward(t: Text, k: nat): (i: nat)
    ensures i <= |t|
    decreases |t|
  {
    if t == [] || k == 0 then |t| else Backward(t[..|t| - Trail(t)], k - 1)
  }

  /** No surrogate pair stands across the end of `a` and the start of `b`. */
  predicate Clean(a: Text, b: Text) {
    a == [] || b == [] || !High(a[|a| - 1]) || !Low(b[0])
  }

  lemma {:induction false} PointsConcat(a: Text, b: Text)
    requires Clean(a, b)
    ensures Points(a + b) == Points(a) + Points(b)
    ensures Forward(a + b, Points(a)) == |a|
    decreases |a|
  {
    if a == [] {
      assert a + b == b;
    } else {
      var n := Lead(a);
      assert Lead(a + b) == n && (a + b)[n..] == a[n..] + b;
      PointsConcat(a[n..], b);
    }
  }

  /** The forward and the backward scan find the same boundaries. */
  lemma {:induction false} ScansAgree(t: Text, k: nat)
    requires k <= Points(t)
    ensures Forward(t, k) == Backward(t, Points(t) - k)
    decreases |t|
  {
    hide *;
    if t == [] {
      NoPoints(t);
    } else {
      var n := |t| - Trail(t);
      var a, b := t[..n], t[n..];
      assert t == a + b;
      LastPoint(t);
      BackwardLast(t, Points(t) - k);
      if k <= Points(a) {
        ScansAgree(a, k);
        ForwardPrefix(a, b, k);
      } else {
        ForwardAll(t);
      }
    }
  }

  lemma NoPoints(t: Text)
    requires t == []
    ensures Points(t) == 0 && Forward(t, 0) == 0 && Backward(t, 0) == 0
  {
  }

  lemma BackwardLast(t: Text, k: nat)
    requires t != []
    ensures Backward(t, 0) == |t|
    ensures k > 0 ==> Backward(t, k) == Backward(t[..|t| - Trail(t)], k - 1)
  {
  }

  lemma OnePoint(t: Text)
    requires t != [] && Lead(t) == |t|
    ensures Points(t) == 1
  {
    assert t[|t|..] == [];
  }

  lemma LastPoint(t: Text)
    requires t != []
    ensures var n := |t| - Trail(t); Clean(t[..n], t[n..]) && Points(t[n..]) == 1 && Points(t) == Points(t[..n]) + 1
  {
    hide Points, Forward;
    var n := |t| - Trail(t);
    assert t == t[..n] + t[n..];
    OnePoint(t[n..]);
    PointsConcat(t[..n], t[n..]);
  }

  lemma {:induction false} ForwardPrefix(a: Text, b: Text, k: nat)
    requires Clean(a, b) && k <= Points(a)
    ensures Forward(a + b, k) == Forward(a, k)
    decreases |a|
  {
    if a != [] && k > 0 {
      var n := Lead(a);
      assert Lead(a + b) == n && (a + b)[n..] == a[n..] + b;
      ForwardPrefix(a[n..], b, k - 1);
    }
  }

  lemma {:induction false} ForwardAll(t: Text)
    ensures Forward(t, Points(t)) == |t|
  {
    if t != [] { ForwardAll(t[Lead(t)..]); }
  }

  function TakeStart(t: Text, k: nat): Text {
    t[..Forward(t, k)]
  }

  function TakeEnd(t: Text, k: nat): Text {
    t[Backward(t, k)..]
  }

  lemma {:induction false} ForwardSplit(t: Text, k: nat)
    requires k <= Points(t)
    ensures var i := Forward(t, k); Clean(t[..i], t[i..]) && Points(t[..i]) == k
  {
    if t != [] && k > 0 {
      var n := Lead(t);
      var rest := t[n..];
      ForwardSplit(rest, k - 1);
      var i, j := Forward(t, k), Forward(rest, k - 1);
      assert i == n + j && t[..i] == t[..n] + rest[..j] && t[i..] == rest[j..];
      assert Lead(t[..i]) == n && t[..i][n..] == rest[..j];
    }
  }

  /** Cutting after `k` code points and before the rest loses nothing, and each part has as many
      code points as it was asked for. */
  lemma StartAndEnd(t: Text, k: nat)
    requires k <= Points(t)
    ensures TakeStart(t, k) + TakeEnd(t, Points(t) - k) == t
    ensures Points(TakeStart(t, k)) == k && Points(TakeEnd(t, k)) == k
  {
    hide *;
    var l := Points(t) - k;
    ScansAgree(t, k);
    ForwardSplit(t, k);
    ScansAgree(t, l);
    ForwardSplit(t, l);
    Takes(t, k);
    Takes(t, l);
    var i, j := Forward(t, k), Forward(t, l);
    PointsConcat(t[..j], t[j..]);
    assert t[..j] + t[j..] == t && t[..i] + t[i..] == t;
  }

  lemma Takes(t: Text, k: nat)
    ensures TakeStart(t, k) == t[..Forward(t, k)] && TakeEnd(t, k) == t[Backward(t, k)..]
  {
  }

  // ---- the marker ----

  predicate Plain(t: Text) {
    forall i :: 0 <= i < |t| ==> !High(t[i]) && !Low(t[i])
  }

  function MarkerStart(): (t: Text)
    ensures |t| == 17 && Plain(t) && t[0] == 10
  {
    [10, 0x2026] + Ascii("[audit omitted ")
  }

  function MarkerEnd(): (t: Text)
    ensures |t| == 14 && Plain(t) && t[13] == 10
  {
    Ascii(" characters]") + [0x2026, 10]
  }

  /** `auditOmissionMarker` */
  function Marker(omitted: nat): (t: Text)
    ensures |t| == 31 + Digits(omitted) && Plain(t) && t[0] == 10 && t[|t| - 1] == 10
  {
    MarkerStart() + Decimal(omitted) + MarkerEnd()
  }

  function OmittedText(): (t: Text)
    ensures |t| == 22 && Plain(t)
  {
    [0x2026] + Ascii("[audit omitted text]") + [0x2026]
  }

  lemma {:induction false} PlainPoints(t: Text)
    requires Plain(t)
    ensures Points(t) == |t|
  {
    if t != [] { PlainPoints(t[1..]); }
  }

  /** Different counts give different markers. */
  lemma MarkerInjective(a: nat, b: nat)
    requires Marker(a) == Marker(b)
    ensures a == b
  {
    assert Marker(a)[17..|Marker(a)| - 14] == Decimal(a);
    assert Marker(b)[17..|Marker(b)| - 14] == Decimal(b);
    DecimalSpelled(a);
    DecimalSpelled(b);
  }

  // ---- the fixpoint ----

  function Available(maximum: nat, marker: nat): nat {
    if maximum > marker then maximum - marker else 0
  }

  /** The count that a marker for `k` calls for. */
  function Revised(length: nat, maximum: nat, k: nat): nat
    requires length > maximum
  {
    length - Available(maximum, 31 + Digits(k))
  }

  function Power(d: nat): (p: nat)
    ensures p >= 1
  {
    if d == 0 then 1 else 10 * Power(d - 1)
  }

  lemma {:induction false} DigitsRange(n: nat)
    ensures n < Power(Digits(n))
    ensures n > 0 ==> Power(Digits(n) - 1) <= n
  {
    if n >= 10 { DigitsRange(n / 10); }
  }

  lemma {:induction false} DigitsFrom(n: nat, d: nat)
    requires d >= 1 && n < Power(d) && (d == 1 || Power(d - 1) <= n)
    ensures Digits(n) == d
  {
    if d > 1 {
      assert Power(d - 1) >= 10 * Power(d - 2);
      DigitsFrom(n / 10, d - 1);
    }
  }

  lemma {:induction false} PowerGrows(d: nat)
    requires d >= 1
    ensures 9 * Power(d) > 33 + d
  {
    if d > 1 { PowerGrows(d - 1); }
  }

  lemma {:induction false} DigitsMonotone(a: nat, b: nat)
    requires a <= b
    ensures Digits(a) <= Digits(b)
  {
    if b >= 10 && a >= 10 { DigitsMonotone(a / 10, b / 10); }
  }

  /** Adding the marker's own length adds at most one digit. */
  lemma OneMoreDigit(k: nat, more: nat)
    requires more <= 32 + Digits(k)
    ensures Digits(k) <= Digits(k + more) <= Digits(k) + 1
  {
    var d := Digits(k);
    DigitsRange(k);
    PowerGrows(d);
    DigitsMonotone(k, k + more);
    assert k + more < Power(d + 1);
    if k + more >= Power(d) { DigitsFrom(k + more, d + 1); } else if k > 0 { DigitsFrom(k + more, d); } else if d == 1 {
      DigitsFrom(more, 1);
    }
  }

  /** The count after one, two and three rounds, starting from the characters that are too many. */
  function Round(length: nat, maximum: nat, n: nat): nat
    requires length > maximum
  {
    if n == 0 then length - maximum else Revised(length, maximum, Round(length, maximum, n - 1))
  }

  /** Two rounds reach a count whose marker asks for itself. */
  lemma Settles(length: nat, maximum: nat)
    requires length > maximum
    ensures Round(length, maximum, 3) == Round(length, maximum, 2)
  {
    var k0 := length - maximum;
    var d := Digits(k0);
    var k1 := Revised(length, maximum, k0);
    var k2 := Revised(length, maximum, k1);
    assert Round(length, maximum, 1) == k1 && Round(length, maximum, 2) == k2;
    hide Digits;
    if maximum >= 31 + d {
      assert k1 == k0 + 31 + d;
      OneMoreDigit(k0, 31 + d);
      OneMoreDigit(k0, 32 + d);
      if maximum >= 31 + Digits(k1) {
        assert k2 == k0 + 31 + Digits(k1);
        DigitsMonotone(k1, k2);
      } else {
        assert k1 == length && k2 == length;
      }
    } else {
      assert k1 == length;
      DigitsMonotone(k0, length);
      assert k2 == length;
    }
  }

  /** Stopping at the first round that changes nothing gives the same count as all three. */
  lemma {:induction false} StaysSettled(length: nat, maximum: nat, n: nat, m: nat)
    requires length > maximum && n <= m && Round(length, maximum, n + 1) == Round(length, maximum, n)
    ensures Round(length, maximum, m) == Round(length, maximum, n)
  {
    if n < m { StaysSettled(length, maximum, n, m - 1); }
  }

  // ---- the shortened text ----

  datatype Snapshot = Snapshot(text: Text, truncated: bool)

  /** A maximum that is not a safe integer counts as 0, and so does a negative one. */
  function Limit(maximum: Option<int>): nat {
    if maximum.Some? && maximum.value > 0 then maximum.value else 0
  }

  /** `Math.ceil(available * 0.6)` */
  function HeadShare(available: nat): (h: nat)
    ensures h <= available && 3 * available <= 5 * h < 3 * available + 5
  {
    (3 * available + 4) / 5
  }

  function Truncated(t: Text, maximum: nat): Snapshot {
    if Points(t) <= maximum then Snapshot(t, false)
    else
      var k := Round(Points(t), maximum, 2);
      if |Marker(k)| > maximum then Snapshot(TakeStart(OmittedText(), maximum), true)
      else
        var available := maximum - |Marker(k)|;
        var head := HeadShare(available);
        Snapshot(TakeStart(t, head) + Marker(k) + TakeEnd(t, available - head), true)
  }

  /** The marker is printed for the characters that were really left out, and with it the text has
      exactly `maximum` code points; a text that fits is unchanged; without room for a marker the
      result is at most `maximum` long. */
  lemma TruncatedExact(t: Text, maximum: nat)
    ensures var r := Truncated(t, maximum);
      && r.truncated == (Points(t) > maximum)
      && (!r.truncated ==> r.text == t)
      && Points(r.text) <= Points(t)
      && (r.truncated ==> Points(r.text) <= maximum)
    ensures Points(t) > maximum && |Marker(Round(Points(t), maximum, 2))| <= maximum ==>
      var k := Round(Points(t), maximum, 2);
      var kept := maximum - |Marker(k)|;
      && k == Points(t) - kept
      && Truncated(t, maximum).text == TakeStart(t, HeadShare(kept)) + Marker(k) + TakeEnd(t, kept - HeadShare(kept))
      && Points(Truncated(t, maximum).text) == maximum
  {
    hide *;
    TruncatedCases(t, maximum);
    if Points(t) > maximum {
      var k := Round(Points(t), maximum, 2);
      Settles(Points(t), maximum);
      RevisedMarker(Points(t), maximum);
      if |Marker(k)| <= maximum {
        Assembled(t, k, maximum - |Marker(k)|);
      } else {
        PlainPoints(OmittedText());
        ShortStart(OmittedText(), maximum);
      }
    }
  }

  lemma RevisedMarker(length: nat, maximum: nat)
    requires length > maximum && Round(length, maximum, 3) == Round(length, maximum, 2)
    ensures var k := Round(length, maximum, 2); k == length - Available(maximum, |Marker(k)|)
    ensures forall n :: Available(maximum, n) == if maximum > n then maximum - n else 0
  {
    assert Round(length, maximum, 3) == Revised(length, maximum, Round(length, maximum, 2));
  }

  lemma TruncatedCases(t: Text, maximum: nat)
    ensures Points(t) <= maximum ==> Truncated(t, maximum) == Snapshot(t, false)
    ensures Points(t) > maximum ==>
      var k := Round(Points(t), maximum, 2);
      Truncated(t, maximum) == Snapshot(
        if |Marker(k)| > maximum then TakeStart(OmittedText(), maximum)
        else TakeStart(t, HeadShare(maximum - |Marker(k)|)) + Marker(k) + TakeEnd(t, maximum - |Marker(k)| - HeadShare(maximum - |Marker(k)|)),
        true)
  {
    hide Round, Points, Marker, TakeStart, TakeEnd;
  }

  lemma Assembled(t: Text, k: nat, kept: nat)
    requires kept <= Points(t)
    ensures Points(TakeStart(t, HeadShare(kept)) + Marker(k) + TakeEnd(t, kept - HeadShare(kept))) == kept + |Marker(k)|
  {
    hide *;
    var head := HeadShare(kept);
    StartAndEnd(t, head);
    StartAndEnd(t, kept - head);
    PlainPoints(Marker(k));
    var a, b, c := TakeStart(t, head), Marker(k), TakeEnd(t, kept - head);
    LineFeedClean(a, b);
    PointsConcat(a, b);
    LineFeedClean(a + b, c);
    PointsConcat(a + b, c);
  }

  lemma LineFeedClean(a: Text, b: Text)
    requires (b != [] && b[0] == 10) || (a != [] && a[|a| - 1] == 10)
    ensures Clean(a, b)
  {
  }

  lemma ShortStart(t: Text, k: nat)
    ensures Points(TakeStart(t, k)) <= k
  {
    if k <= Points(t) { StartAndEnd(t, k); } else { AtMost(t, k); }
  }

  lemma {:induction false} AtMost(t: Text, k: nat)
    requires k >= Points(t)
    ensures Forward(t, k) == |t|
    ensures Points(TakeStart(t, k)) == Points(t)
  {
    if t != [] { AtMost(t[Lead(t)..], k - 1); }
    assert t[..|t|] == t;
  }

  // ---- the loops ----

  method CodePointLength(t: Text) returns (n: nat)
    ensures n == Points(t)
  {
    var i := 0;
    n := 0;
    assert t[0..] == t;
    while i < |t|
      invariant 0 <= i <= |t| && n + Points(t[i..]) == Points(t)
    {
      assert t[i..][Lead(t[i..])..] == t[i + Lead(t[i..])..];
      if High(t[i]) && i + 1 < |t| && Low(t[i + 1]) {
        i := i + 1;
      }
      i, n := i + 1, n + 1;
    }
  }

  method ScanStart(t: Text, count: nat) returns (r: Text)
    ensures r == TakeStart(t, count)
  {
    var i, seen := 0, 0;
    assert t[0..] == t;
    while i < |t| && seen < count
      invariant 0 <= i <= |t| && seen <= count
      invariant i + Forward(t[i..], count - seen) == Forward(t, count)
    {
      assert t[i..][Lead(t[i..])..] == t[i + Lead(t[i..])..];
      var current := t[i];
      i := i + 1;
      if High(current) && i < |t| && Low(t[i]) {
        i := i + 1;
      }
      seen := seen + 1;
    }
    r := t[..i];
  }

  method ScanEnd(t: Text, count: nat) returns (r: Text)
    ensures r == TakeEnd(t, count)
  {
    var i, seen := |t|, 0;
    assert t[..|t|] == t;
    while i > 0 && seen < count
      invariant 0 <= i <= |t| && seen <= count
      invariant (if i == 0 || seen == count then i else Backward(t[..i], count - seen)) == Backward(t, count)
      decreases i
    {
      assert t[..i][..i - Trail(t[..i])] == t[..i - Trail(t[..i])];
      i := i - 1;
      var current := t[i];
      if Low(current) && i > 0 && High(t[i - 1]) {
        i := i - 1;
      }
      seen := seen + 1;
    }
    r := t[i..];
  }

  /** `truncateAuditText`: at most three rounds settle the marker. */
  method TruncateAuditText(t: Text, maximum: Option<int>) returns (r: Snapshot)
    ensures r == Truncated(t, Limit(maximum))
  {
    hide Points, Marker, Round, Forward, Backward;
    var limit := Limit(maximum);
    PointsAtMost(t);
    if |t| <= limit { return Snapshot(t, false); }
    var length := CodePointLength(t);
    if length <= limit { return Snapshot(t, false); }
    var k := SettleMarker(length, limit);
    if |Marker(k)| > limit {
      var short := ScanStart(OmittedText(), limit);
      return Snapshot(short, true);
    }
    var available := limit - |Marker(k)|;
    var head := HeadShare(available);
    var a := ScanStart(t, head);
    var b := ScanEnd(t, available - head);
    r := Snapshot(a + Marker(k) + b, true);
  }

  method SettleMarker(length: nat, maximum: nat) returns (k: nat)
    requires length > maximum
    ensures k == Round(length, maximum, 2)
  {
    k := length - maximum;
    var attempt := 0;
    Settles(length, maximum);
    while attempt < 3
      invariant 0 <= attempt <= 3 && k == Round(length, maximum, attempt)
    {
      var next := length - Available(maximum, |Marker(k)|);
      assert next == Round(length, maximum, attempt + 1);
      if next == k {
        StaysSettled(length, maximum, attempt, 3);
        break;
      }
      k := next;
      attempt := attempt + 1;
    }
  }

  lemma {:induction false} PointsAtMost(t: Text)
    ensures Points(t) <= |t|
  {
    if t != [] { PointsAtMost(t[Lead(t)..]); }
  }
}
