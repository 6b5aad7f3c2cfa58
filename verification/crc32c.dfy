/**
 * CRC32C (Castagnoli), the checksum of section 12.1 of RFC 3720, in its reflected form: polynomial
 * 0x82F63B78, initial value and final XOR all ones. The table-driven loop is proved to compute
 * the bit-serial definition, and any two messages that differ only inside a window of 32
 * consecutive bits are proved to have different checksums.
 *
 * A machine word is its 32 bits, least significant first.
 */
module Crc32c {
  import opened Bytes

  type Word = w: seq<bool> | |w| == 32 witness Repeat(false, 32)

  function Repeat(bit: bool, k: nat): (b: seq<bool>)
    ensures |b| == k
    ensures forall i :: 0 <= i < k ==> b[i] == bit
  {
    if k == 0 then [] else [bit] + Repeat(bit, k - 1)
  }

  const ONES: Word := Repeat(true, 32)

  /** 0x82F63B78: bit 31 is the constant term, so it is set. */
  const POLY: Word := [
    false, false, false, true, true, true, true, false,
    true, true, false, true, true, true, false, false,
    false, true, true, false, true, true, true, true,
    false, true, false, false, false, false, false, true]

  function Unit(bit: bool): nat {
    if bit then 1 else 0
  }

  /** The low `k` bits of `n`. */
  function BitsOf(n: nat, k: nat): (b: seq<bool>)
    ensures |b| == k
  {
    if k == 0 then [] else [n % 2 == 1] + BitsOf(n / 2, k - 1)
  }

  function NatOf(b: seq<bool>): nat {
    if b == [] then 0 else Unit(b[0]) + 2 * NatOf(b[1..])
  }

  function Pow2(k: nat): (r: nat)
    ensures r >= 1
  {
    if k == 0 then 1 else 2 * Pow2(k - 1)
  }

  lemma {:induction false} NatOfBits(n: nat, k: nat)
    requires n < Pow2(k)
    ensures NatOf(BitsOf(n, k)) == n
  {
    if k > 0 {
      NatOfBits(n / 2, k - 1);
      assert BitsOf(n, k)[1..] == BitsOf(n / 2, k - 1);
    }
  }

  lemma {:induction false} BitsOfNat(b: seq<bool>)
    ensures NatOf(b) < Pow2(|b|)
    ensures BitsOf(NatOf(b), |b|) == b
  {
    if b != [] {
      BitsOfNat(b[1..]);
      assert b == [b[0]] + b[1..];
    }
  }

  /** The polynomial is the constant the table is built from, its low bit first. */
  lemma PolyIs()
    ensures POLY == BitsOf(0x82F63B78, 32)
  {
    hide NatOf, BitsOf, Digit;
    PolyLow();
    PolyHigh();
    EightDigits(POLY);
    BitsOfNat(POLY);
  }

  lemma PolyLow()
    ensures Digit(POLY, 0) == 0x8 && Digit(POLY, 4) == 0x7 && Digit(POLY, 8) == 0xB && Digit(POLY, 12) == 0x3
  {
  }

  lemma PolyHigh()
    ensures Digit(POLY, 16) == 0x6 && Digit(POLY, 20) == 0xF && Digit(POLY, 24) == 0x2 && Digit(POLY, 28) == 0x8
  {
  }

  /** Four bits as a hexadecimal digit. */
  function Digit(b: seq<bool>, i: nat): nat
    requires i + 4 <= |b|
  {
    Unit(b[i]) + 2 * Unit(b[i + 1]) + 4 * Unit(b[i + 2]) + 8 * Unit(b[i + 3])
  }

  /** A word by its hexadecimal digits. */
  lemma EightDigits(b: Word)
    ensures NatOf(b) == Digit(b, 0) + 0x10 * Digit(b, 4) + 0x100 * Digit(b, 8) + 0x1000 * Digit(b, 12)
      + 0x1_0000 * Digit(b, 16) + 0x10_0000 * Digit(b, 20) + 0x100_0000 * Digit(b, 24) + 0x1000_0000 * Digit(b, 28)
  {
    hide NatOf, Digit;
    Nibble(b, 28, 0);
    Nibble(b, 24, NatOf(b[28..]));
    Nibble(b, 20, NatOf(b[24..]));
    Nibble(b, 16, NatOf(b[20..]));
    Nibble(b, 12, NatOf(b[16..]));
    Nibble(b, 8, NatOf(b[12..]));
    Nibble(b, 4, NatOf(b[8..]));
    Nibble(b, 0, NatOf(b[4..]));
    assert b[0..] == b;
  }

  /** The digit from bit `i` on, below the digits that are `rest`. */
  lemma Nibble(b: seq<bool>, i: nat, rest: nat)
    requires i + 4 <= |b| && (if i + 4 == |b| then rest == 0 else NatOf(b[i + 4..]) == rest)
    ensures NatOf(b[i..]) == Digit(b, i) + 16 * rest
  {
    assert b[i..][1..] == b[i + 1..] && b[i + 1..][1..] == b[i + 2..];
    assert b[i + 2..][1..] == b[i + 3..] && b[i + 3..][1..] == b[i + 4..];
    assert NatOf(b[i + 3..]) == Unit(b[i + 3]) + 2 * rest;
    assert NatOf(b[i + 2..]) == Unit(b[i + 2]) + 2 * NatOf(b[i + 3..]);
    assert NatOf(b[i + 1..]) == Unit(b[i + 1]) + 2 * NatOf(b[i + 2..]);
  }

  lemma ByteWidth()
    ensures Pow2(8) == 256
  {
    assert Pow2(4) == 16;
  }

  /** Eight bits as a byte. */
  function ByteOf(b: seq<bool>): byte
    requires |b| == 8
  {
    BitsOfNat(b);
    ByteWidth();
    NatOf(b)
  }

  function Xor(a: Word, b: Word): Word {
    seq(32, i requires 0 <= i < 32 => a[i] != b[i])
  }

  /** Up to 32 bits as the low bits of a word. */
  function Pad(b: seq<bool>): Word
    requires |b| <= 32
  {
    b + Repeat(false, 32 - |b|)
  }

  // ---------- reference: one bit at a time ----------

  /** One step of the division register. */
  function Shift(c: Word): Word {
    var moved: Word := c[1..] + [false];
    if c[0] then Xor(moved, POLY) else moved
  }

  /** The register after one more message bit. */
  function Feed(c: Word, bit: bool): Word {
    Shift(Xor(c, Pad([bit])))
  }

  function FeedAll(c: Word, bits: seq<bool>): Word
    decreases |bits|
  {
    if bits == [] then c else FeedAll(Feed(c, bits[0]), bits[1..])
  }

  /** The bits of a message, each byte least significant bit first. */
  function MessageBits(bytes: seq<byte>): (bits: seq<bool>)
    ensures |bits| == 8 * |bytes|
  {
    if bytes == [] then [] else BitsOf(bytes[0], 8) + MessageBits(bytes[1..])
  }

  /** The CRC by its definition: every bit of the message through the division register. */
  function Crc(bytes: seq<byte>): Word {
    Xor(FeedAll(ONES, MessageBits(bytes)), ONES)
  }

  lemma {:induction false} FeedAllJoin(c: Word, a: seq<bool>, b: seq<bool>)
    ensures FeedAll(c, a + b) == FeedAll(FeedAll(c, a), b)
    decreases |a|
  {
    if a == [] {
      assert a + b == b;
    } else {
      assert (a + b)[1..] == a[1..] + b;
      FeedAllJoin(Feed(c, a[0]), a[1..], b);
    }
  }

  lemma {:induction false} MessageBitsJoin(a: seq<byte>, b: seq<byte>)
    ensures MessageBits(a + b) == MessageBits(a) + MessageBits(b)
  {
    if a == [] {
      assert a + b == b;
    } else {
      assert (a + b)[1..] == a[1..] + b;
      MessageBitsJoin(a[1..], b);
    }
  }

  lemma {:induction false} MessageBitsOneToOne(a: seq<byte>, b: seq<byte>)
    requires |a| == |b| && MessageBits(a) == MessageBits(b)
    ensures a == b
  {
    if a != [] {
      ByteWidth();
      NatOfBits(a[0], 8);
      NatOfBits(b[0], 8);
      assert BitsOf(a[0], 8) == MessageBits(a)[..8] == MessageBits(b)[..8] == BitsOf(b[0], 8);
      assert MessageBits(a[1..]) == MessageBits(a)[8..] == MessageBits(b)[8..] == MessageBits(b[1..]);
      MessageBitsOneToOne(a[1..], b[1..]);
    }
  }

  // ---------- one byte at a time ----------

  function Shifts(c: Word, k: nat): Word
    decreases k
  {
    if k == 0 then c else Shifts(Shift(c), k - 1)
  }

  /** Feeding a few bits is adding them to the register and stepping it that often. */
  lemma {:induction false} FeedIsShift(c: Word, bits: seq<bool>)
    requires |bits| <= 32
    ensures FeedAll(c, bits) == Shifts(Xor(c, Pad(bits)), |bits|)
    decreases |bits|
  {
    if bits == [] {
      assert Xor(c, Pad([])) == c;
    } else {
      FeedIsShift(Feed(c, bits[0]), bits[1..]);
      assert Xor(Feed(c, bits[0]), Pad(bits[1..])) == Shift(Xor(c, Pad(bits)));
    }
  }

  lemma {:induction false} ShiftsLinear(c: Word, d: Word, k: nat)
    ensures Shifts(Xor(c, d), k) == Xor(Shifts(c, k), Shifts(d, k))
    decreases k
  {
    if k > 0 {
      assert Shift(Xor(c, d)) == Xor(Shift(c), Shift(d));
      ShiftsLinear(Shift(c), Shift(d), k - 1);
    }
  }

  /** A register whose low `k` bits are clear just moves down `k` places. */
  lemma {:induction false} MoveDown(c: Word, k: nat)
    requires k <= 32
    requires forall i :: 0 <= i < k ==> !c[i]
    ensures Shifts(c, k) == c[k..] + Repeat(false, k)
    decreases k
  {
    if k > 0 {
      MoveDown(Shift(c), k - 1);
      assert Shift(c)[k - 1..] + Repeat(false, k - 1) == c[k..] + Repeat(false, k);
    }
  }

  function LowByte(c: Word): byte {
    ByteOf(c[..8])
  }

  lemma LowAndHigh(x: Word)
    ensures x == Xor(Pad(x[..8]), Repeat(false, 8) + x[8..])
    ensures Shifts(Repeat(false, 8) + x[8..], 8) == x[8..] + Repeat(false, 8)
  {
    var high: Word := Repeat(false, 8) + x[8..];
    MoveDown(high, 8);
    assert high[8..] == x[8..];
  }

  /** The table index for byte `b` at register `c`. */
  function Index(c: Word, b: byte): byte {
    LowByte(Xor(c, Pad(BitsOf(b, 8))))
  }

  /** What the table holds for byte `i`: eight steps of the register. */
  function Entry(i: byte): Word {
    Shifts(Pad(BitsOf(i, 8)), 8)
  }

  /** The lookup: only the low byte needs a table, the rest of the register just moves down. */
  lemma Lookup(c: Word, b: byte)
    ensures FeedAll(c, BitsOf(b, 8)) == Xor(Entry(Index(c, b)), c[8..] + Repeat(false, 8))
  {
    hide FeedAll, Shifts;
    var x := Xor(c, Pad(BitsOf(b, 8)));
    FeedIsShift(c, BitsOf(b, 8));
    BitsOfNat(x[..8]);
    LowAndHigh(x);
    ShiftsLinear(Pad(x[..8]), Repeat(false, 8) + x[8..], 8);
    assert x[8..] == c[8..];
  }

  lemma EntryShifts(i: byte, c: Word)
    requires c == Pad(BitsOf(i, 8))
    ensures Shifts(c, 8) == Entry(i)
  {
  }

  lemma OneShift(c: Word, k: nat)
    requires k > 0
    ensures Shifts(c, k) == Shifts(Shift(c), k - 1)
  {
    hide Shift;
  }

  lemma NoShift(c: Word)
    ensures Shifts(c, 0) == c
  {
  }

  /** The lookup table, built a step at a time. */
  method BuildTable() returns (table: array<Word>)
    ensures fresh(table) && table.Length == 256
    ensures forall i: byte :: table[i] == Entry(i)
  {
    hide Shifts, Xor, Entry, Pad, BitsOf;
    table := new Word[256](_ => ONES);
    var i := 0;
    while i < 256
      invariant 0 <= i <= 256
      invariant forall j: byte :: j < i ==> table[j] == Entry(j)
    {
      var c: Word := Pad(BitsOf(i, 8));
      EntryShifts(i, c);
      var bit := 0;
      while bit < 8
        invariant 0 <= bit <= 8
        invariant Shifts(c, 8 - bit) == Entry(i)
        invariant forall j: byte :: j < i ==> table[j] == Entry(j)
      {
        var moved: Word := c[1..] + [false];
        OneShift(c, 8 - bit);
        c := if c[0] then Xor(moved, POLY) else moved;
        bit := bit + 1;
      }
      NoShift(c);
      table[i] := c;
      i := i + 1;
    }
  }

  /** The register after the first `i` bytes of a message. */
  function Register(bytes: seq<byte>, i: nat): Word
    requires i <= |bytes|
  {
    FeedAll(ONES, MessageBits(bytes[..i]))
  }

  lemma NextByte(bytes: seq<byte>, i: nat)
    requires i < |bytes|
    ensures Register(bytes, i + 1) == FeedAll(Register(bytes, i), BitsOf(bytes[i], 8))
  {
    assert bytes[..i + 1] == bytes[..i] + [bytes[i]];
    MessageBitsJoin(bytes[..i], [bytes[i]]);
    assert MessageBits([bytes[i]]) == BitsOf(bytes[i], 8) + [] == BitsOf(bytes[i], 8);
    FeedAllJoin(ONES, MessageBits(bytes[..i]), BitsOf(bytes[i], 8));
  }

  lemma NextByTable(bytes: seq<byte>, i: nat, c: Word)
    requires i < |bytes| && c == Register(bytes, i)
    ensures Register(bytes, i + 1) == Xor(Entry(Index(c, bytes[i])), c[8..] + Repeat(false, 8))
  {
    NextByte(bytes, i);
    Lookup(c, bytes[i]);
  }

  lemma FirstRegister(bytes: seq<byte>)
    ensures Register(bytes, 0) == ONES
  {
  }

  lemma LastByte(bytes: seq<byte>)
    ensures Crc(bytes) == Xor(Register(bytes, |bytes|), ONES)
  {
    assert bytes[..|bytes|] == bytes;
  }

  /** The table-driven checksum computes the bit-serial one. */
  method ByTable(bytes: seq<byte>) returns (crc: Word)
    ensures crc == Crc(bytes)
  {
    hide Crc, Register, Xor, Entry, Index, Repeat;
    var table := BuildTable();
    var c := ONES;
    var i := 0;
    FirstRegister(bytes);
    while i < |bytes|
      invariant 0 <= i <= |bytes|
      invariant forall j: byte :: table[j] == Entry(j)
      invariant c == Register(bytes, i)
    {
      NextByTable(bytes, i, c);
      c := Xor(table[Index(c, bytes[i])], c[8..] + Repeat(false, 8));
      i := i + 1;
    }
    LastByte(bytes);
    crc := Xor(c, ONES);
  }

  // ---------- what the checksum detects ----------

  /** The registers differ at bit `m` or above. */
  ghost predicate DifferFrom(c: Word, d: Word, m: nat) {
    exists i :: m <= i < 32 && c[i] != d[i]
  }

  /** What feeding a bit makes of the bits it moves down. */
  lemma FedBit(c: Word, p: bool, i: nat)
    requires 1 <= i < 32
    ensures Feed(c, p)[i - 1] == (c[i] != ((c[0] != p) && POLY[i - 1]))
  {
    var x := Xor(c, Pad([p]));
    var moved: Word := x[1..] + [false];
    assert x[i] == c[i] && moved[i - 1] == x[i];
  }

  /** Its top bit is set just where the bit that falls out is. */
  lemma FedTop(c: Word, p: bool)
    ensures Feed(c, p)[31] == (c[0] != p)
  {
    var x := Xor(c, Pad([p]));
    var moved: Word := x[1..] + [false];
    assert POLY[31] && !moved[31];
  }

  /** One fed bit lowers the top differing bit by at most one place, whatever the two bits are. */
  lemma DifferenceFalls(c: Word, d: Word, p: bool, q: bool, m: nat)
    requires m >= 1 && DifferFrom(c, d, m)
    ensures DifferFrom(Feed(c, p), Feed(d, q), m - 1)
  {
    var i :| m <= i < 32 && c[i] != d[i];
    hide Feed;
    if (c[0] != p) == (d[0] != q) {
      FedBit(c, p, i);
      FedBit(d, q, i);
      assert Feed(c, p)[i - 1] != Feed(d, q)[i - 1];
    } else {
      FedTop(c, p);
      FedTop(d, q);
      assert Feed(c, p)[31] != Feed(d, q)[31];
    }
  }

  lemma {:induction false} DifferenceLasts(c: Word, d: Word, x: seq<bool>, y: seq<bool>, m: nat)
    requires |x| == |y| <= m && DifferFrom(c, d, m)
    ensures DifferFrom(FeedAll(c, x), FeedAll(d, y), m - |x|)
    decreases |x|
  {
    if x != [] {
      DifferenceFalls(c, d, x[0], y[0], m);
      DifferenceLasts(Feed(c, x[0]), Feed(d, y[0]), x[1..], y[1..], m - 1);
    }
  }

  /** Different bursts of at most 32 bits leave registers that differ near the top. */
  lemma {:induction false} BurstShows(c: Word, x: seq<bool>, y: seq<bool>)
    requires |x| == |y| <= 32 && x != y
    ensures DifferFrom(FeedAll(c, x), FeedAll(c, y), 32 - |x|)
    decreases |x|
  {
    if x[0] == y[0] {
      assert x == [x[0]] + x[1..] && y == [y[0]] + y[1..];
      BurstShows(Feed(c, x[0]), x[1..], y[1..]);
    } else {
      assert POLY[31];
      assert Feed(c, x[0])[31] != Feed(c, y[0])[31];
      DifferenceLasts(Feed(c, x[0]), Feed(c, y[0]), x[1..], y[1..], 31);
    }
  }

  /** One step of the register loses nothing. */
  lemma FeedOneToOne(c: Word, d: Word, bit: bool)
    requires c != d
    ensures Feed(c, bit) != Feed(d, bit)
  {
    if c[0] != d[0] {
      assert POLY[31];
      assert Feed(c, bit)[31] != Feed(d, bit)[31];
    } else {
      var i :| 0 < i < 32 && c[i] != d[i];
      assert Feed(c, bit)[i - 1] != Feed(d, bit)[i - 1];
    }
  }

  lemma {:induction false} FeedAllOneToOne(c: Word, d: Word, bits: seq<bool>)
    requires c != d
    ensures FeedAll(c, bits) != FeedAll(d, bits)
    decreases |bits|
  {
    if bits != [] {
      FeedOneToOne(c, d, bits[0]);
      FeedAllOneToOne(Feed(c, bits[0]), Feed(d, bits[0]), bits[1..]);
    }
  }

  /** Messages alike but for one window of at most 32 bits have different checksums. */
  lemma BurstDetected(a: seq<bool>, x: seq<bool>, y: seq<bool>, b: seq<bool>)
    requires |x| == |y| <= 32 && x != y
    ensures FeedAll(ONES, a + x + b) != FeedAll(ONES, a + y + b)
  {
    hide FeedAll;
    var c := FeedAll(ONES, a);
    FeedAllJoin(ONES, a + x, b);
    FeedAllJoin(ONES, a + y, b);
    FeedAllJoin(ONES, a, x);
    FeedAllJoin(ONES, a, y);
    BurstShows(c, x, y);
    FeedAllOneToOne(FeedAll(c, x), FeedAll(c, y), b);
  }

  /** The same of bytes: any corruption inside four consecutive bytes changes the checksum. */
  lemma FourBytesDetected(a: seq<byte>, x: seq<byte>, y: seq<byte>, b: seq<byte>)
    requires |x| == |y| <= 4 && x != y
    ensures Crc(a + x + b) != Crc(a + y + b)
  {
    MessageBitsJoin(a + x, b);
    MessageBitsJoin(a + y, b);
    MessageBitsJoin(a, x);
    MessageBitsJoin(a, y);
    if MessageBits(x) == MessageBits(y) {
      MessageBitsOneToOne(x, y);
      assert false;
    }
    BurstDetected(MessageBits(a), MessageBits(x), MessageBits(y), MessageBits(b));
    XorOneToOne(FeedAll(ONES, MessageBits(a + x + b)), FeedAll(ONES, MessageBits(a + y + b)));
  }

  lemma XorOneToOne(c: Word, d: Word)
    requires c != d
    ensures Xor(c, ONES) != Xor(d, ONES)
  {
    var i :| 0 <= i < 32 && c[i] != d[i];
    assert Xor(c, ONES)[i] != Xor(d, ONES)[i];
  }
}
