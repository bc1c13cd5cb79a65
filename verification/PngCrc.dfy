/** The table-driven CRC of the brand icon's PNG against the bit-by-bit one (section 5.5 of the W3C
    PNG specification). A register is its 32 bits, the least significant first. */
module PngCrcs {

  type byte = b: nat | b < 256

  type Word = w: seq<bool> | |w| == 32 witness seq(32, _ => false)

  /** The low `k` bits of a number. */
  function Bits(n: nat, k: nat): (r: seq<bool>)
    ensures |r| == k
  {
    if k == 0 then [] else [n % 2 == 1] + Bits(n / 2, k - 1)
  }

  function Value(bits: seq<bool>): nat {
    if bits == [] then 0 else (if bits[0] then 1 else 0) + 2 * Value(bits[1..])
  }

  function Polynomial(): Word {
    Bits(0xedb88320, 32)
  }

  function Ones(): Word {
    seq(32, _ => true)
  }

  function Xor(a: Word, b: Word): (r: Word)
    ensures forall i :: 0 <= i < 32 ==> r[i] == (a[i] != b[i])
  {
    seq(32, i requires 0 <= i < 32 => a[i] != b[i])
  }

  /** A shift to the right by `n` bits. */
  function Shift(w: Word, n: nat): (r: Word)
    requires n <= 32
    ensures forall i :: 0 <= i < 32 ==> r[i] == (i + n < 32 && w[i + n])
  {
    seq(32, i requires 0 <= i < 32 => i + n < 32 && w[i + n])
  }

  /** A short number as a register. */
  function Pad(bits: seq<bool>): (r: Word)
    requires |bits| <= 32
    ensures forall i :: 0 <= i < 32 ==> r[i] == (i < |bits| && bits[i])
  {
    seq(32, i requires 0 <= i < 32 => i < |bits| && bits[i])
  }

  // ---- bit by bit ----

  /** One bit of the message enters. */
  function FeedBit(c: Word, bit: bool): Word {
    if c[0] != bit then Xor(Polynomial(), Shift(c, 1)) else Shift(c, 1)
  }

  function FeedBits(c: Word, bits: seq<bool>): Word
    decreases |bits|
  {
    if bits == [] then c else FeedBits(FeedBit(c, bits[0]), bits[1..])
  }

  function Register(c: Word, bytes: seq<byte>): Word
    decreases |bytes|
  {
    if bytes == [] then c else Register(FeedBits(c, Bits(bytes[0], 8)), bytes[1..])
  }

  /** The register starts with ones and is complemented at the end. */
  function Crc(bytes: seq<byte>): Word {
    Xor(Register(Ones(), bytes), Ones())
  }

  // ---- by table ----

  /** One round of the loop that fills the table. */
  function Round(v: Word): Word {
    if v[0] then Xor(Polynomial(), Shift(v, 1)) else Shift(v, 1)
  }

  function Rounds(v: Word, n: nat): Word
    decreases n
  {
    if n == 0 then v else Rounds(Round(v), n - 1)
  }

  function Entry(index: nat): Word {
    Rounds(Pad(Bits(index, 8)), 8)
  }

  predicate IsTable(table: seq<Word>) {
    |table| == 256 && forall i :: 0 <= i < 256 ==> table[i] == Entry(i)
  }

  /** `(value ^ byte) & 255` */
  function Index(c: Word, b: byte): (i: nat)
    ensures i < 256
  {
    var low := Xor(c, Pad(Bits(b, 8)))[..8];
    ValueBound(low);
    Value(low)
  }

  function TableStep(c: Word, b: byte): Word {
    Xor(Entry(Index(c, b)), Shift(c, 8))
  }

  lemma {:induction false} ValueBound(bits: seq<bool>)
    ensures |bits| == 8 ==> Value(bits) < 256
    ensures Value(bits) < Power(|bits|)
  {
    if bits != [] { ValueBound(bits[1..]); }
    assert Power(8) == 256;
  }

  function Power(k: nat): nat {
    if k == 0 then 1 else 2 * Power(k - 1)
  }

  lemma {:induction false} BitsOfValue(bits: seq<bool>)
    ensures Bits(Value(bits), |bits|) == bits
  {
    if bits != [] { BitsOfValue(bits[1..]); }
  }

  // ---- both are the same ----

  lemma RoundAt(v: Word, i: nat)
    requires i < 32
    ensures Round(v)[i] == ((v[0] && Polynomial()[i]) != (i < 31 && v[i + 1]))
  {
    hide Polynomial;
  }

  lemma FeedAt(c: Word, bit: bool, i: nat)
    requires i < 32
    ensures FeedBit(c, bit)[i] == (((c[0] != bit) && Polynomial()[i]) != (i < 31 && c[i + 1]))
  {
    hide Polynomial;
  }

  lemma RoundLinear(x: Word, y: Word)
    ensures Round(Xor(x, y)) == Xor(Round(x), Round(y))
  {
    hide Round, Polynomial;
    forall i | 0 <= i < 32 ensures Round(Xor(x, y))[i] == Xor(Round(x), Round(y))[i] {
      RoundAt(x, i);
      RoundAt(y, i);
      RoundAt(Xor(x, y), i);
    }
  }

  lemma {:induction false} RoundsLinear(x: Word, y: Word, n: nat)
    ensures Rounds(Xor(x, y), n) == Xor(Rounds(x, n), Rounds(y, n))
    decreases n
  {
    hide Round, Xor;
    if n > 0 {
      RoundLinear(x, y);
      RoundsLinear(Round(x), Round(y), n - 1);
    }
  }

  /** A round on the register with the message added does what feeding its first bit does. */
  lemma FeedIsRound(c: Word, bits: seq<bool>)
    requires 0 < |bits| <= 32
    ensures Round(Xor(c, Pad(bits))) == Xor(FeedBit(c, bits[0]), Pad(bits[1..]))
  {
    hide Round, FeedBit, Polynomial, Xor, Pad;
    forall i | 0 <= i < 32 ensures Round(Xor(c, Pad(bits)))[i] == Xor(FeedBit(c, bits[0]), Pad(bits[1..]))[i] {
      FeedIsRoundAt(c, bits, i);
    }
  }

  lemma FeedIsRoundAt(c: Word, bits: seq<bool>, i: nat)
    requires 0 < |bits| <= 32 && i < 32
    ensures Round(Xor(c, Pad(bits)))[i] == Xor(FeedBit(c, bits[0]), Pad(bits[1..]))[i]
  {
    hide Round, FeedBit, Polynomial, Xor, Pad;
    RoundAt(Xor(c, Pad(bits)), i);
    FeedAt(c, bits[0], i);
    assert i + 1 < |bits| ==> bits[1..][i] == bits[i + 1];
  }

  lemma {:induction false} FeedIsRounds(c: Word, bits: seq<bool>)
    requires |bits| <= 32
    ensures FeedBits(c, bits) == Rounds(Xor(c, Pad(bits)), |bits|)
    decreases |bits|
  {
    hide Round, FeedBit, Xor, Pad;
    if bits == [] {
      XorNothing(c);
    } else {
      FeedIsRound(c, bits);
      FeedIsRounds(FeedBit(c, bits[0]), bits[1..]);
    }
  }

  lemma XorNothing(c: Word)
    ensures Xor(c, Pad([])) == c
  {
  }

  /** Rounds on a register whose low bits are clear only shift it. */
  lemma {:induction false} RoundsShift(w: Word, n: nat)
    requires n <= 32 && forall i :: 0 <= i < n ==> !w[i]
    ensures Rounds(w, n) == Shift(w, n)
    decreases n
  {
    if n == 0 {
      assert Shift(w, 0) == w;
    } else {
      assert Round(w) == Shift(w, 1);
      RoundsShift(Shift(w, 1), n - 1);
      assert Shift(Shift(w, 1), n - 1) == Shift(w, n);
    }
  }

  /** The low eight bits, and the others in their places. */
  function HighPart(v: Word): (r: Word)
    ensures forall i :: 0 <= i < 32 ==> r[i] == (i >= 8 && v[i])
  {
    seq(32, i requires 0 <= i < 32 => i >= 8 && v[i])
  }

  lemma SplitLow(v: Word)
    ensures v == Xor(Pad(v[..8]), HighPart(v))
  {
  }

  lemma HighIsShifted(c: Word, bits: seq<bool>)
    requires |bits| == 8
    ensures Shift(HighPart(Xor(c, Pad(bits))), 8) == Shift(c, 8)
  {
  }

  lemma EntryOfIndex(c: Word, b: byte)
    ensures Entry(Index(c, b)) == Rounds(Pad(Xor(c, Pad(Bits(b, 8)))[..8]), 8)
  {
    var low := Xor(c, Pad(Bits(b, 8)))[..8];
    BitsOfValue(low);
    hide Rounds, Bits, Value;
  }

  /** A table lookup does eight bits at once. */
  lemma TableStepIsEightBits(c: Word, b: byte)
    ensures TableStep(c, b) == FeedBits(c, Bits(b, 8))
  {
    hide *;
    var v := Xor(c, Pad(Bits(b, 8)));
    FeedIsRounds(c, Bits(b, 8));
    EntryOfIndex(c, b);
    SplitLow(v);
    RoundsLinear(Pad(v[..8]), HighPart(v), 8);
    RoundsShift(HighPart(v), 8);
    HighIsShifted(c, Bits(b, 8));
    TableStepIs(c, b);
  }

  lemma TableStepIs(c: Word, b: byte)
    ensures TableStep(c, b) == Xor(Entry(Index(c, b)), Shift(c, 8))
  {
    hide Entry, Index;
  }

  // ---- the loops ----

  method FillTable() returns (table: seq<Word>)
    ensures IsTable(table)
  {
    hide Bits, Pad, Round;
    table := [];
    var index := 0;
    while index < 256
      invariant index == |table| <= 256 && forall i :: 0 <= i < index ==> table[i] == Entry(i)
    {
      var value := Pad(Bits(index, 8));
      var bit := 0;
      while bit < 8
        invariant 0 <= bit <= 8 && Rounds(value, 8 - bit) == Entry(index)
      {
        value := Round(value);
        bit := bit + 1;
      }
      table := table + [value];
      index := index + 1;
    }
  }

  /** `crc32`, whose result is the bit-by-bit CRC of the bytes. */
  method Crc32(table: seq<Word>, bytes: seq<byte>) returns (r: Word)
    requires IsTable(table)
    ensures r == Crc(bytes)
  {
    hide Entry, Xor, Shift, FeedBits, Bits, Index, Ones;
    var value: Word := Ones();
    var left := bytes;
    while left != []
      invariant Register(value, left) == Register(Ones(), bytes)
      decreases |left|
    {
      var b := left[0];
      TableStepIsEightBits(value, b);
      value := Xor(table[Index(value, b)], Shift(value, 8));
      left := left[1..];
    }
    r := Xor(value, Ones());
  }
}

/** Chunks: a length, a type, the data and a CRC over type and data (section 5.3). */
module PngChunks {
  import opened PngCrcs

  datatype Option<+T> = None | Some(value: T)

  /** A four-letter type and the data. */
  datatype Chunk = Chunk(name: seq<byte>, data: seq<byte>) {
    predicate Valid() {
      |name| == 4 && |data| < 0x1_0000_0000
    }
  }

  function BigEndian(n: nat): (r: seq<byte>)
    requires n < 0x1_0000_0000
    ensures |r| == 4
  {
    [n / 0x100_0000, n / 0x1_0000 % 0x100, n / 0x100 % 0x100, n % 0x100]
  }

  function ReadBigEndian(b: seq<byte>): nat
    requires |b| == 4
  {
    var w: nat, x: nat, y: nat, z: nat := b[0], b[1], b[2], b[3];
    0x100_0000 * w + 0x1_0000 * x + 0x100 * y + z
  }

  /** The CRC's four bytes, most significant first. */
  function CrcBytes(bytes: seq<byte>): (r: seq<byte>)
    ensures |r| == 4
  {
    var w := Crc(bytes);
    [ByteOf(w, 24), ByteOf(w, 16), ByteOf(w, 8), ByteOf(w, 0)]
  }

  function ByteOf(w: Word, i: nat): byte
    requires i + 8 <= 32
  {
    ValueBound(w[i..i + 8]);
    Value(w[i..i + 8])
  }

  /** `chunk` */
  function Encode(c: Chunk): seq<byte>
    requires c.Valid()
  {
    BigEndian(|c.data|) + c.name + c.data + CrcBytes(c.name + c.data)
  }

  function EncodeAll(chunks: seq<Chunk>): seq<byte>
    requires forall i :: 0 <= i < |chunks| ==> chunks[i].Valid()
  {
    if chunks == [] then [] else Encode(chunks[0]) + EncodeAll(chunks[1..])
  }

  /** Reads chunk after chunk; a cut or damaged one makes the whole stream unreadable. */
  function ReadAll(bytes: seq<byte>): Option<seq<Chunk>>
    decreases |bytes|
  {
    if bytes == [] then Some([])
    else if |bytes| < 12 then None
    else
      var n := ReadBigEndian(bytes[..4]);
      if |bytes| < 12 + n then None
      else if bytes[8 + n..12 + n] != CrcBytes(bytes[4..8 + n]) then None
      else
        var rest := ReadAll(bytes[12 + n..]);
        if rest.None? then None else Some([Chunk(bytes[4..8], bytes[8..8 + n])] + rest.value)
  }

  lemma BigEndianRoundTrip(n: nat)
    requires n < 0x1_0000_0000
    ensures ReadBigEndian(BigEndian(n)) == n
  {
    var a, b := n / 0x100, n / 0x100 / 0x100;
    assert n / 0x1_0000 == b && n / 0x100_0000 == b / 0x100;
  }

  lemma ReadFirst(c: Chunk, rest: seq<byte>)
    requires c.Valid()
    ensures ReadAll(Encode(c) + rest) == (if ReadAll(rest).None? then None else Some([c] + ReadAll(rest).value))
  {
    hide *;
    Slices(c, rest);
    BigEndianRoundTrip(|c.data|);
    ReadStep(Encode(c) + rest, |c.data|);
    assert Chunk(c.name, c.data) == c;
  }

  lemma Slices(c: Chunk, rest: seq<byte>)
    requires c.Valid()
    ensures var n := |c.data|; var all := Encode(c) + rest;
      && n < 0x1_0000_0000 && |all| >= 12 + n && all[..4] == BigEndian(n)
      && all[4..8] == c.name && all[8..8 + n] == c.data && all[4..8 + n] == c.name + c.data
      && all[8 + n..12 + n] == CrcBytes(c.name + c.data) && all[12 + n..] == rest
  {
    hide BigEndian, CrcBytes;
  }

  lemma ReadStep(bytes: seq<byte>, n: nat)
    requires |bytes| >= 12 + n && ReadBigEndian(bytes[..4]) == n && bytes[8 + n..12 + n] == CrcBytes(bytes[4..8 + n])
    ensures var rest := ReadAll(bytes[12 + n..]);
      ReadAll(bytes) == (if rest.None? then None else Some([Chunk(bytes[4..8], bytes[8..8 + n])] + rest.value))
  {
    hide ReadBigEndian, CrcBytes;
  }

  /** The framing loses nothing: the chunks of a stream are read back in order. */
  lemma {:induction false} ChunksRoundTrip(chunks: seq<Chunk>)
    requires forall i :: 0 <= i < |chunks| ==> chunks[i].Valid()
    ensures ReadAll(EncodeAll(chunks)) == Some(chunks)
  {
    hide *;
    if chunks == [] {
      NothingRead(chunks);
    } else {
      ChunksRoundTrip(chunks[1..]);
      ReadFirst(chunks[0], EncodeAll(chunks[1..]));
      EncodeFirst(chunks);
      assert [chunks[0]] + chunks[1..] == chunks;
    }
  }

  lemma NothingRead(chunks: seq<Chunk>)
    requires chunks == []
    ensures ReadAll(EncodeAll(chunks)) == Some(chunks)
  {
  }

  lemma EncodeFirst(chunks: seq<Chunk>)
    requires chunks != [] && forall i :: 0 <= i < |chunks| ==> chunks[i].Valid()
    ensures EncodeAll(chunks) == Encode(chunks[0]) + EncodeAll(chunks[1..])
  {
    hide Encode;
  }

  // ---- the buffer ----

  /** Writes bytes into a buffer at an offset. */
  method Put(out: array<byte>, at: nat, bytes: seq<byte>)
    requires at + |bytes| <= out.Length
    modifies out
    ensures out[..] == old(out[..at]) + bytes + old(out[at + |bytes|..])
  {
    var i := 0;
    while i < |bytes|
      invariant 0 <= i <= |bytes|
      invariant out[..] == old(out[..at]) + bytes[..i] + old(out[at + i..])
    {
      out[at + i] := bytes[i];
      i := i + 1;
      assert bytes[..i] == bytes[..i - 1] + [bytes[i - 1]];
    }
    assert bytes[..i] == bytes;
  }

  /** `chunk`: four writes fill the buffer. */
  method WriteChunk(c: Chunk) returns (out: array<byte>)
    requires c.Valid()
    ensures fresh(out) && out[..] == Encode(c)
  {
    hide BigEndian, CrcBytes;
    var n := |c.data|;
    out := new byte[12 + n](_ => 0);
    Put(out, 0, BigEndian(n));
    assert out[..4] == BigEndian(n);
    Put(out, 4, c.name);
    assert out[..8] == BigEndian(n) + c.name;
    Put(out, 8, c.data);
    assert out[..8 + n] == BigEndian(n) + c.name + c.data;
    assert out[4..8 + n] == c.name + c.data;
    Put(out, 8 + n, CrcBytes(out[4..8 + n]));
  }
}
