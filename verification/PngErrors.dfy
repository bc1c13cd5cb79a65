/** What the CRC of the icon's chunks is good for: it tells apart messages that differ in up to four
    bytes in a row. */
module PngErrors {
  import opened PngCrcs

  // ---- the generator ----

  lemma OneBit(n: nat, k: nat)
    requires k > 0
    ensures Bits(n, k) == [n % 2 == 1] + Bits(n / 2, k - 1)
  {
  }

  function One(b: bool): nat {
    if b then 1 else 0
  }

  /** Four bits at a time. */
  lemma Nibble(n: nat, k: nat, m: nat, a: bool, b: bool, c: bool, d: bool)
    requires k >= 4 && n == 16 * m + 8 * One(d) + 4 * One(c) + 2 * One(b) + One(a)
    ensures Bits(n, k) == [a, b, c, d] + Bits(m, k - 4)
  {
    hide Bits;
    OneBit(n, k);
    OneBit(8 * m + 4 * One(d) + 2 * One(c) + One(b), k - 1);
    OneBit(4 * m + 2 * One(d) + One(c), k - 2);
    OneBit(2 * m + One(d), k - 3);
  }

  lemma Zeros(k: nat)
    requires k == 0
    ensures Bits(0, k) == []
  {
  }

  lemma PolynomialIs()
    ensures Polynomial() == Bits(0xedb88320, 32)
  {
    hide Bits;
  }

  lemma PolynomialBits()
    ensures Polynomial() ==
      [false, false, false, false] + ([false, true, false, false] + ([true, true, false, false] + ([false, false, false, true]
      + ([false, false, false, true] + ([true, true, false, true] + ([true, false, true, true] + [false, true, true, true]))))))
  {
    hide Bits, Polynomial;
    PolynomialIs();
    Nibble(0xedb88320, 32, 0xedb8832, false, false, false, false);
    Nibble(0xedb8832, 28, 0xedb883, false, true, false, false);
    Nibble(0xedb883, 24, 0xedb88, true, true, false, false);
    Nibble(0xedb88, 20, 0xedb8, false, false, false, true);
    Nibble(0xedb8, 16, 0xedb, false, false, false, true);
    Nibble(0xedb, 12, 0xed, true, true, false, true);
    Nibble(0xed, 8, 0xe, true, false, true, true);
    Nibble(0xe, 4, 0, false, true, true, true);
    Zeros(0);
    assert [false, true, true, true] + [] == [false, true, true, true];
  }

  /** The exponents of the generator, below its first term of degree 32 (section 5.5 of the W3C PNG
      specification). */
  const Exponents: set<nat> := {26, 23, 22, 16, 12, 11, 10, 8, 7, 5, 4, 2, 1, 0}

  /** Bit 31 stands for the constant term, bit 0 for degree 31. */
  lemma Generator(i: nat)
    requires i < 32
    ensures Polynomial()[i] <==> 31 - i in Exponents
  {
    PolynomialBits();
    hide Polynomial;
  }

  // ---- nothing is lost on the way ----

  /** The last bit of a register after a round tells whether the generator was added. */
  lemma RoundInjective(v: Word, w: Word)
    requires Round(v) == Round(w)
    ensures v == w
  {
    hide Round, Polynomial;
    Generator(31);
    RoundAt(v, 31);
    RoundAt(w, 31);
    forall i | 0 < i < 32 ensures v[i] == w[i] {
      RoundAt(v, i - 1);
      RoundAt(w, i - 1);
    }
    assert forall i :: 0 <= i < 32 ==> v[i] == w[i];
  }

  lemma {:induction false} RoundsInjective(v: Word, w: Word, n: nat)
    requires Rounds(v, n) == Rounds(w, n)
    ensures v == w
    decreases n
  {
    if n > 0 {
      RoundsInjective(Round(v), Round(w), n - 1);
      RoundInjective(v, w);
    }
  }

  lemma XorInjective(a: Word, b: Word, c: Word)
    requires Xor(a, c) == Xor(b, c) || Xor(c, a) == Xor(c, b)
    ensures a == b
  {
    forall i | 0 <= i < 32 ensures a[i] == b[i] {
      assert Xor(a, c)[i] == (a[i] != c[i]) && Xor(b, c)[i] == (b[i] != c[i]);
      assert Xor(c, a)[i] == (c[i] != a[i]) && Xor(c, b)[i] == (c[i] != b[i]);
    }
    hide Xor;
  }

  lemma FeedsInjective(c: Word, d: Word, bits: seq<bool>)
    requires |bits| <= 32 && FeedBits(c, bits) == FeedBits(d, bits)
    ensures c == d
  {
    FeedIsRounds(c, bits);
    FeedIsRounds(d, bits);
    hide FeedBits, Rounds, Xor, Pad;
    RoundsInjective(Xor(c, Pad(bits)), Xor(d, Pad(bits)), |bits|);
    XorInjective(c, d, Pad(bits));
  }

  /** From one register, different bits lead to different registers. */
  lemma BitsTold(c: Word, a: seq<bool>, b: seq<bool>)
    requires |a| == |b| <= 32 && FeedBits(c, a) == FeedBits(c, b)
    ensures a == b
  {
    FeedIsRounds(c, a);
    FeedIsRounds(c, b);
    RoundsInjective(Xor(c, Pad(a)), Xor(c, Pad(b)), |a|);
    XorInjective(Pad(a), Pad(b), c);
    hide FeedBits, Rounds, Xor;
    assert forall i :: 0 <= i < |a| ==> a[i] == Pad(a)[i] && b[i] == Pad(b)[i];
  }

  lemma {:induction false} SuffixInjective(c: Word, d: Word, bytes: seq<byte>)
    requires Register(c, bytes) == Register(d, bytes)
    ensures c == d
    decreases |bytes|
  {
    if bytes != [] {
      hide FeedBits, Bits;
      SuffixInjective(FeedBits(c, Bits(bytes[0], 8)), FeedBits(d, Bits(bytes[0], 8)), bytes[1..]);
      FeedsInjective(c, d, Bits(bytes[0], 8));
    }
  }

  // ---- bytes ----

  function Stream(bytes: seq<byte>): (r: seq<bool>)
    ensures |r| == 8 * |bytes|
  {
    if bytes == [] then [] else Bits(bytes[0], 8) + Stream(bytes[1..])
  }

  lemma {:induction false} FeedConcat(c: Word, a: seq<bool>, b: seq<bool>)
    ensures FeedBits(c, a + b) == FeedBits(FeedBits(c, a), b)
    decreases |a|
  {
    hide FeedBit;
    if a == [] {
      assert a + b == b;
    } else {
      assert (a + b)[1..] == a[1..] + b;
      FeedConcat(FeedBit(c, a[0]), a[1..], b);
    }
  }

  /** The register after a message has taken in the bits of its bytes, each from the lowest on. */
  lemma {:induction false} RegisterIsStream(c: Word, bytes: seq<byte>)
    ensures Register(c, bytes) == FeedBits(c, Stream(bytes))
    decreases |bytes|
  {
    if bytes != [] {
      hide Bits;
      RegisterIsStream(FeedBits(c, Bits(bytes[0], 8)), bytes[1..]);
      FeedConcat(c, Bits(bytes[0], 8), Stream(bytes[1..]));
    }
  }

  lemma {:induction false} BitsInjective(m: nat, n: nat, k: nat)
    requires Bits(m, k) == Bits(n, k) && m < Power(k) && n < Power(k)
    ensures m == n
    decreases k
  {
    if k > 0 {
      OneBit(m, k);
      OneBit(n, k);
      assert Bits(m, k)[0] == Bits(n, k)[0] && Bits(m, k)[1..] == Bits(n, k)[1..];
      BitsInjective(m / 2, n / 2, k - 1);
    }
  }

  lemma {:induction false} StreamInjective(a: seq<byte>, b: seq<byte>)
    requires |a| == |b| && Stream(a) == Stream(b)
    ensures a == b
  {
    if a != [] {
      hide Bits;
      assert Stream(a)[..8] == Bits(a[0], 8) && Stream(b)[..8] == Bits(b[0], 8);
      assert Stream(a)[8..] == Stream(a[1..]) && Stream(b)[8..] == Stream(b[1..]);
      assert Power(8) == 256;
      BitsInjective(a[0], b[0], 8);
      StreamInjective(a[1..], b[1..]);
    }
  }

  lemma {:induction false} RegisterConcat(c: Word, a: seq<byte>, b: seq<byte>)
    ensures Register(c, a + b) == Register(Register(c, a), b)
    decreases |a|
  {
    hide FeedBits, Bits;
    if a == [] {
      assert a + b == b;
    } else {
      assert (a + b)[1..] == a[1..] + b;
      RegisterConcat(FeedBits(c, Bits(a[0], 8)), a[1..], b);
    }
  }

  /** Two messages that differ only in up to four bytes in a row have different CRCs. */
  lemma BurstsAreFound(front: seq<byte>, a: seq<byte>, b: seq<byte>, back: seq<byte>)
    requires |a| == |b| <= 4
    ensures Crc(front + a + back) == Crc(front + b + back) <==> a == b
  {
    hide Register, Ones, FeedBits, Xor, Stream;
    if Crc(front + a + back) == Crc(front + b + back) {
      var c := Register(Ones(), front);
      XorInjective(Register(Ones(), front + a + back), Register(Ones(), front + b + back), Ones());
      RegisterConcat(Ones(), front + a, back);
      RegisterConcat(Ones(), front + b, back);
      SuffixInjective(Register(Ones(), front + a), Register(Ones(), front + b), back);
      RegisterConcat(Ones(), front, a);
      RegisterConcat(Ones(), front, b);
      RegisterIsStream(c, a);
      RegisterIsStream(c, b);
      BitsTold(c, Stream(a), Stream(b));
      StreamInjective(a, b);
    }
  }
}
