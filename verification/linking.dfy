/**
 * How a segment names its neighbours: the identity in its header extension, and the body of the
 * `Roll` that ends it. Both are guarded by a CRC32C.
 */
module Linking {
  import opened Bytes
  import Crc32c
  import Layout

  /** The identity of one physical file, whatever its name. */
  type InstanceId = b: seq<byte> | |b| == 16 witness [0, 0, 0, 0, 0, 0, 0, 0, 0, 0, 0, 0, 0, 0, 0, 0]

  /** The initial file's predecessor: no file. */
  const NONE: InstanceId := [0, 0, 0, 0, 0, 0, 0, 0, 0, 0, 0, 0, 0, 0, 0, 0]

  datatype Error =
    | WrongLength | BadCrc | Reserved | ZeroInstance | HalfInitial | BadState
    | SequenceExhausted | IndexExhausted

  datatype Result<+T> = Ok(value: T) | Err(error: Error)

  /** Who a file is, and the file it follows. */
  datatype Identity = Identity(instance: InstanceId, predecessor: InstanceId, predecessorSequence: u64)
  {
    predicate Valid() {
      instance != NONE && (predecessor == NONE <==> predecessorSequence == U64_MAX)
    }

    function Bytes(): (b: seq<byte>)
      ensures |b| == 40
    {
      instance + predecessor + Le(predecessorSequence, 8)
    }
  }

  function Initial(instance: InstanceId): Identity {
    Identity(instance, NONE, U64_MAX)
  }

  function Successor(instance: InstanceId, predecessor: InstanceId, predecessorSequence: u64): Identity {
    Identity(instance, predecessor, predecessorSequence)
  }

  /** A word as four little-endian bytes. */
  function WordBytes(w: Crc32c.Word): (b: seq<byte>)
    ensures |b| == 4
  {
    [Crc32c.ByteOf(w[..8]), Crc32c.ByteOf(w[8..16]), Crc32c.ByteOf(w[16..24]), Crc32c.ByteOf(w[24..])]
  }

  /** The word that four little-endian bytes denote. */
  function BytesWord(b: seq<byte>): Crc32c.Word
    requires |b| == 4
  {
    Crc32c.MessageBits(b)
  }

  lemma FourBytes(b: seq<byte>)
    requires |b| == 4
    ensures Crc32c.MessageBits(b)
         == Crc32c.BitsOf(b[0], 8) + Crc32c.BitsOf(b[1], 8) + Crc32c.BitsOf(b[2], 8) + Crc32c.BitsOf(b[3], 8)
  {
    assert b[1..][1..] == b[2..] && b[2..][1..] == b[3..] && b[3..][1..] == [];
    assert Crc32c.MessageBits(b[3..]) == Crc32c.BitsOf(b[3], 8);
    assert Crc32c.MessageBits(b[2..]) == Crc32c.BitsOf(b[2], 8) + Crc32c.MessageBits(b[3..]);
    assert Crc32c.MessageBits(b[1..]) == Crc32c.BitsOf(b[1], 8) + Crc32c.MessageBits(b[2..]);
  }

  lemma BytesWordOfWordBytes(w: Crc32c.Word)
    ensures BytesWord(WordBytes(w)) == w
  {
    hide Crc32c.MessageBits, Crc32c.BitsOf, Crc32c.NatOf;
    Crc32c.BitsOfNat(w[..8]);
    Crc32c.BitsOfNat(w[8..16]);
    Crc32c.BitsOfNat(w[16..24]);
    Crc32c.BitsOfNat(w[24..]);
    FourBytes(WordBytes(w));
    assert w == w[..8] + w[8..16] + w[16..24] + w[24..];
  }

  lemma WordBytesOfBytesWord(b: seq<byte>)
    requires |b| == 4
    ensures WordBytes(BytesWord(b)) == b
  {
    BytesWordOfWordBytes(BytesWord(b));
    Crc32c.MessageBitsOneToOne(WordBytes(BytesWord(b)), b);
  }

  lemma U64RoundTrip(n: u64)
    ensures Nat(Le(n, 8)) == n
  {
    Widths();
    NatOfLe(n, 8);
  }

  lemma BytesRoundTrip(b: seq<byte>)
    requires |b| == 8
    ensures Nat(b) <= U64_MAX && Le(Nat(b), 8) == b
  {
    Widths();
    LeOfNat(b);
  }

  // ---------- the body of a Roll ----------

  datatype RollEdge = RollEdge(nextSequence: u64, nextInstance: InstanceId, nextBase: u64)
  {
    function Covered(): (b: seq<byte>)
      ensures |b| == 32
    {
      Le(nextSequence, 8) + nextInstance + Le(nextBase, 8)
    }

    function Encode(): (b: seq<byte>)
      ensures |b| == Layout.ROLL_PAYLOAD
    {
      Covered() + WordBytes(Crc32c.Crc(Covered())) + [0, 0, 0, 0]
    }

    /** Whether a Roll in segment `from`, instance `parent`, leads to a file with identity `next`. */
    predicate Names(from: u64, parent: InstanceId, next: Identity) {
      && nextInstance == next.instance
      && next.predecessor == parent
      && next.predecessorSequence == from
      && from < U64_MAX && nextSequence == from + 1
    }
  }

  /** What the Roll of a segment says of the file after it; numbers that would pass 2^64 are refused. */
  function After(sequence: u64, base: nat, count: nat, next: InstanceId): Result<RollEdge> {
    if sequence == U64_MAX then Err(SequenceExhausted)
    else if base + count > U64_MAX then Err(IndexExhausted)
    else Ok(RollEdge(sequence + 1, next, base + count))
  }

  function Decode(b: seq<byte>): Result<RollEdge> {
    if |b| != Layout.ROLL_PAYLOAD then Err(WrongLength)
    else if BytesWord(b[32..36]) != Crc32c.Crc(b[..32]) then Err(BadCrc)
    else if b[36..] != [0, 0, 0, 0] then Err(Reserved)
    else
      BytesRoundTrip(b[..8]);
      BytesRoundTrip(b[24..32]);
      var edge := RollEdge(Nat(b[..8]), b[8..24], Nat(b[24..32]));
      if edge.nextInstance == NONE then Err(ZeroInstance) else Ok(edge)
  }

  /** Which bytes of a Roll's body hold what. */
  lemma RollFields(e: RollEdge)
    ensures var b := e.Encode();
      && b[0..8] == Le(e.nextSequence, 8) && b[8..24] == e.nextInstance && b[24..32] == Le(e.nextBase, 8)
      && b[32..36] == WordBytes(Crc32c.Crc(b[0..32])) && b[36..40] == [0, 0, 0, 0]
  {
    hide Le, Crc32c.Crc, WordBytes;
    assert e.Encode()[0..32] == e.Covered();
  }

  lemma DecodeOfEncode(e: RollEdge)
    ensures Decode(e.Encode()) == if e.nextInstance == NONE then Err(ZeroInstance) else Ok(e)
  {
    hide Le, Nat, Crc32c.Crc, Crc32c.MessageBits;
    var b := e.Encode();
    var crc := WordBytes(Crc32c.Crc(e.Covered()));
    assert b[..32] == e.Covered();
    assert b[32..36] == crc;
    assert b[36..] == [0, 0, 0, 0];
    BytesWordOfWordBytes(Crc32c.Crc(e.Covered()));
    U64RoundTrip(e.nextSequence);
    U64RoundTrip(e.nextBase);
    assert b[..8] == Le(e.nextSequence, 8) && b[8..24] == e.nextInstance && b[24..32] == Le(e.nextBase, 8);
  }

  lemma CoveredOfDecode(b: seq<byte>)
    requires Decode(b).Ok?
    ensures Decode(b).value.Covered() == b[..32]
  {
    hide Le, Nat, Crc32c.Crc;
    BytesRoundTrip(b[..8]);
    BytesRoundTrip(b[24..32]);
    assert b[..32] == b[..8] + b[8..24] + b[24..32];
  }

  /** Every accepted body is the encoding of the edge it decodes to: no two bodies mean the same. */
  lemma EncodeOfDecode(b: seq<byte>)
    requires Decode(b).Ok?
    ensures Decode(b).value.Encode() == b
  {
    hide Le, Nat, Crc32c.Crc, Crc32c.MessageBits;
    CoveredOfDecode(b);
    WordBytesOfBytesWord(b[32..36]);
    assert b == b[..32] + b[32..36] + b[36..];
  }

  /** `c` is `b` with a corruption inside the four bytes from `i` on. */
  ghost predicate Corrupted(b: seq<byte>, c: seq<byte>, i: nat) {
    |b| == |c| && i + 4 <= |b| && c[..i] == b[..i] && c[i + 4..] == b[i + 4..] && b != c
  }

  /** Four covered bytes, or fewer at the end, cannot change with the checksum left alone. */
  lemma CoveredCorruption(b: seq<byte>, c: seq<byte>, i: nat, j: nat)
    requires i <= j <= |b| == |c| && j <= i + 4
    requires c[..i] == b[..i] && c[j..] == b[j..] && b != c
    ensures Crc32c.Crc(b) != Crc32c.Crc(c)
  {
    assert b == b[..i] + b[i..j] + b[j..];
    assert c == b[..i] + c[i..j] + b[j..];
    Crc32c.FourBytesDetected(b[..i], b[i..j], c[i..j], b[j..]);
  }

  /** Bit `i` of a word lies in byte `i / 8`. */
  lemma WordBit(x: seq<byte>, i: nat)
    requires |x| == 4 && i < 32
    ensures BytesWord(x)[i] == Crc32c.BitsOf(x[i / 8], 8)[i % 8]
  {
    hide Crc32c.BitsOf, Crc32c.MessageBits;
    FourBytes(x);
    Octet(Crc32c.BitsOf(x[0], 8), Crc32c.BitsOf(x[1], 8), Crc32c.BitsOf(x[2], 8), Crc32c.BitsOf(x[3], 8), i);
  }

  lemma Octet(p: seq<bool>, q: seq<bool>, r: seq<bool>, s: seq<bool>, i: nat)
    requires |p| == |q| == |r| == |s| == 8 && i < 32
    ensures (p + q + r + s)[i] == [p, q, r, s][i / 8][i % 8]
  {
  }

  lemma SameSuffix(b: seq<byte>, c: seq<byte>, i: nat, m: nat, n: nat)
    requires i <= m <= n <= |b| == |c| && b[i..] == c[i..]
    ensures b[m..n] == c[m..n]
    ensures b[..n][m..] == c[..n][m..]
  {
    forall k | m <= k < n
      ensures b[k] == c[k]
    {
      assert b[i..][k - i] == b[k] && c[i..][k - i] == c[k];
    }
  }

  lemma SamePrefix(b: seq<byte>, c: seq<byte>, i: nat, n: nat)
    requires n <= i <= |b| && i <= |c| && b[..i] == c[..i]
    ensures b[..n] == c[..n]
  {
    assert b[..n] == b[..i][..n];
  }

  /** Messages that part only in their last `k` bytes have checksums that part in their top `k` bytes. */
  lemma TopBytesShow(a: seq<byte>, p: seq<byte>, q: seq<byte>) returns (i: nat)
    requires |p| == |q| <= 4 && p != q
    ensures 32 - 8 * |p| <= i < 32
    ensures Crc32c.Crc(a + p)[i] != Crc32c.Crc(a + q)[i]
  {
    hide Crc32c.FeedAll, Crc32c.MessageBits;
    var r := Crc32c.FeedAll(Crc32c.ONES, Crc32c.MessageBits(a));
    var x, y := Crc32c.MessageBits(p), Crc32c.MessageBits(q);
    Crc32c.MessageBitsJoin(a, p);
    Crc32c.MessageBitsJoin(a, q);
    Crc32c.FeedAllJoin(Crc32c.ONES, Crc32c.MessageBits(a), x);
    Crc32c.FeedAllJoin(Crc32c.ONES, Crc32c.MessageBits(a), y);
    if x == y {
      Crc32c.MessageBitsOneToOne(p, q);
      assert false;
    }
    Crc32c.BurstShows(r, x, y);
    i :| 32 - 8 * |p| <= i < 32 && Crc32c.FeedAll(r, x)[i] != Crc32c.FeedAll(r, y)[i];
  }

  /** The checksum right after the data extends the guarded run: a corruption that spans the two shows too. */
  lemma StraddlingCorruption(a: seq<byte>, p: seq<byte>, q: seq<byte>, x: seq<byte>, y: seq<byte>)
    requires |p| == |q| <= 3 && p != q
    requires |x| == |y| == 4 && x[4 - |p|..] == y[4 - |p|..]
    requires BytesWord(x) == Crc32c.Crc(a + p)
    ensures BytesWord(y) != Crc32c.Crc(a + q)
  {
    var i := TopBytesShow(a, p, q);
    WordBit(x, i);
    WordBit(y, i);
    var j := i / 8;
    assert x[j] == x[4 - |p|..][j - (4 - |p|)] == y[j];
  }

  lemma DataCorruption(b: seq<byte>, c: seq<byte>, i: nat)
    requires |b| == |c| == Layout.ROLL_PAYLOAD && Corrupted(b, c, i) && b[..32] != c[..32]
    requires BytesWord(b[32..36]) == Crc32c.Crc(b[..32])
    ensures BytesWord(c[32..36]) != Crc32c.Crc(c[..32])
  {
    hide Crc32c.Crc, Crc32c.MessageBits;
    if i + 4 <= 32 {
      SameSuffix(b, c, i + 4, 32, 36);
      SameSuffix(b, c, i + 4, i + 4, 32);
      assert b[..32][..i] == b[..i] == c[..32][..i];
      CoveredCorruption(b[..32], c[..32], i, i + 4);
    } else {
      if i >= 32 {
        SamePrefix(b, c, i, 32);
        assert false;
      }
      assert b[..32] == b[..i] + b[i..32] && c[..32] == b[..i] + c[i..32];
      SameSuffix(b, c, i + 4, i + 4, 36);
      assert b[32..36][i - 28..] == b[i + 4..36];
      assert c[32..36][i - 28..] == c[i + 4..36];
      StraddlingCorruption(b[..i], b[i..32], c[i..32], b[32..36], c[32..36]);
    }
  }

  lemma SameData(b: seq<byte>, c: seq<byte>)
    requires Decode(b).Ok? && Decode(c).Ok? && b[..32] == c[..32]
    ensures b == c
  {
    hide Le, Nat, Crc32c.Crc, Crc32c.MessageBits;
    WordBytesOfBytesWord(b[32..36]);
    WordBytesOfBytesWord(c[32..36]);
    assert b == b[..32] + b[32..36] + b[36..] && c == c[..32] + c[32..36] + c[36..];
  }

  /** A `Roll` body corrupted anywhere within four consecutive bytes is refused. */
  lemma CorruptedRollRefused(b: seq<byte>, c: seq<byte>, i: nat)
    requires Decode(b).Ok? && Corrupted(b, c, i)
    ensures Decode(c).Err?
  {
    if b[..32] != c[..32] {
      DataCorruption(b, c, i);
    } else if Decode(c).Ok? {
      SameData(b, c);
      assert false;
    }
  }

  /** A `Roll` leads to one file: the instance, parent and sequence it names leave no choice. */
  lemma NamesOne(e: RollEdge, from: u64, parent: InstanceId, a: Identity, b: Identity)
    requires e.Names(from, parent, a) && e.Names(from, parent, b)
    ensures a == b
  {
  }

  // ---------- the header extension ----------

  const PREPARED: byte := 0
  const PUBLISHED: byte := 1
  const STATE: nat := 48

  /** The 64 bytes of a prepared file's extension. */
  function Extension(id: Identity): (b: seq<byte>)
    ensures |b| == 64
  {
    id.Bytes() + [0, 0, 0, 0, 0, 0, 0, 0] + [PREPARED] + [0, 0, 0] + WordBytes(Crc32c.Crc(id.Bytes()))
      + [0, 0, 0, 0, 0, 0, 0, 0]
  }

  /** The identity an extension states, if its immutable bytes are well formed. */
  function ReadIdentity(b: seq<byte>): Result<Identity>
    requires |b| == 64
  {
    BytesRoundTrip(b[32..40]);
    var id := Identity(b[..16], b[16..32], Nat(b[32..40]));
    if id.instance == NONE then Err(ZeroInstance)
    else if b[40..48] != [0, 0, 0, 0, 0, 0, 0, 0] || b[49..52] != [0, 0, 0] then Err(Reserved)
    else if b[56..] != [0, 0, 0, 0, 0, 0, 0, 0] then Err(Reserved)
    else if BytesWord(b[52..56]) != Crc32c.Crc(id.Bytes()) then Err(BadCrc)
    else if (id.predecessor == NONE) != (id.predecessorSequence == U64_MAX) then Err(HalfInitial)
    else Ok(id)
  }

  /** Whether the file is published. */
  function ReadState(b: seq<byte>): Result<bool>
    requires |b| == 64
  {
    if b[STATE] == PREPARED then Ok(false) else if b[STATE] == PUBLISHED then Ok(true) else Err(BadState)
  }

  lemma IdentityOfExtension(id: Identity, state: byte)
    ensures ReadIdentity(Extension(id)[STATE := state]).Ok? <==> id.Valid()
    ensures id.Valid() ==> ReadIdentity(Extension(id)[STATE := state]) == Ok(id)
  {
    hide Le, Nat, Crc32c.Crc, Crc32c.MessageBits;
    var b := Extension(id)[STATE := state];
    U64RoundTrip(id.predecessorSequence);
    BytesWordOfWordBytes(Crc32c.Crc(id.Bytes()));
    assert b[..16] == id.instance && b[16..32] == id.predecessor && b[32..40] == Le(id.predecessorSequence, 8);
    assert b[40..48] == [0, 0, 0, 0, 0, 0, 0, 0] && b[49..52] == [0, 0, 0] && b[56..] == [0, 0, 0, 0, 0, 0, 0, 0];
    assert b[52..56] == WordBytes(Crc32c.Crc(id.Bytes()));
  }

  lemma CoveredOfIdentity(b: seq<byte>)
    requires |b| == 64 && ReadIdentity(b).Ok?
    ensures ReadIdentity(b).value.Bytes() == b[..40]
  {
    hide Le, Nat, Crc32c.Crc, Crc32c.MessageBits;
    BytesRoundTrip(b[32..40]);
    assert b[..40] == b[..16] + b[16..32] + b[32..40];
  }

  lemma Parts(b: seq<byte>)
    requires |b| == 64
    ensures b == b[..40] + b[40..48] + [b[48]] + b[49..52] + b[52..56] + b[56..]
  {
  }

  lemma StateReplaced(b: seq<byte>, state: byte)
    requires |b| == 64
    ensures b[STATE := state] == b[..40] + b[40..48] + [state] + b[49..52] + b[52..56] + b[56..]
  {
  }

  /** Every accepted extension is the one its identity writes, but for the state byte. */
  lemma ExtensionOfIdentity(b: seq<byte>)
    requires |b| == 64 && ReadIdentity(b).Ok?
    ensures ReadIdentity(b).value.Valid()
    ensures Extension(ReadIdentity(b).value)[STATE := b[STATE]] == b
  {
    var id := ReadIdentity(b).value;
    CoveredOfIdentity(b);
    WordBytesOfBytesWord(b[52..56]);
    Parts(b);
    ExtensionParts(id);
    StateReplaced(Extension(id), b[STATE]);
  }

  lemma ExtensionParts(id: Identity)
    ensures var e := Extension(id);
      && e[..40] == id.Bytes() && e[40..48] == [0, 0, 0, 0, 0, 0, 0, 0] && e[49..52] == [0, 0, 0]
      && e[52..56] == WordBytes(Crc32c.Crc(id.Bytes())) && e[56..] == [0, 0, 0, 0, 0, 0, 0, 0]
  {
    hide Crc32c.Crc, WordBytes, Identity.Bytes;
  }

  /** A corruption within four consecutive bytes of an extension, but for the state byte alone, is refused. */
  /** Which bytes of a prepared extension hold what. */
  lemma ExtensionFields(id: Identity)
    ensures var b := Extension(id);
      && b[0..16] == id.instance && b[16..32] == id.predecessor && b[32..40] == Le(id.predecessorSequence, 8)
      && b[40..48] == [0, 0, 0, 0, 0, 0, 0, 0] && b[48] == 0 && b[49..52] == [0, 0, 0]
      && b[52..56] == WordBytes(Crc32c.Crc(b[0..40])) && b[56..64] == [0, 0, 0, 0, 0, 0, 0, 0]
  {
    hide Le, Crc32c.Crc, WordBytes;
    ExtensionParts(id);
    var b, c := Extension(id), id.Bytes();
    assert b[0..40] == c;
    assert b[0..16] == c[0..16] && b[16..32] == c[16..32] && b[32..40] == c[32..40];
  }

  lemma CorruptedExtensionRefused(b: seq<byte>, c: seq<byte>, i: nat)
    requires |b| == 64 && ReadIdentity(b).Ok? && Corrupted(b, c, i)
    requires c != b[STATE := c[STATE]]
    ensures ReadIdentity(c).Err?
  {
    hide Le, Nat, Crc32c.Crc, Crc32c.MessageBits;
    if ReadIdentity(c).Ok? {
      CoveredOfIdentity(b);
      CoveredOfIdentity(c);
      ExtensionOfIdentity(b);
      ExtensionOfIdentity(c);
      var p, q := ReadIdentity(b).value, ReadIdentity(c).value;
      if b[..40] == c[..40] {
        SameIdentity(b, c, p, q);
        assert false;
      } else {
        IdentityCorruption(b, c, i);
        assert false;
      }
    }
  }

  lemma SameIdentity(b: seq<byte>, c: seq<byte>, p: Identity, q: Identity)
    requires |b| == |c| == 64
    requires p.Bytes() == q.Bytes() && p.Bytes() == b[..40]
    requires Extension(p)[STATE := b[STATE]] == b && Extension(q)[STATE := c[STATE]] == c
    ensures c == b[STATE := c[STATE]]
  {
    assert Extension(p) == Extension(q);
    assert b[STATE := c[STATE]] == Extension(p)[STATE := c[STATE]];
  }

  lemma IdentityCorruption(b: seq<byte>, c: seq<byte>, i: nat)
    requires |b| == |c| == 64 && Corrupted(b, c, i) && b[..40] != c[..40]
    requires BytesWord(b[52..56]) == Crc32c.Crc(b[..40])
    ensures BytesWord(c[52..56]) != Crc32c.Crc(c[..40])
  {
    hide Crc32c.Crc, Crc32c.MessageBits;
    if i >= 40 {
      SamePrefix(b, c, i, 40);
      assert false;
    }
    var j := if i + 4 <= 40 then i + 4 else 40;
    assert b[..40][..i] == b[..i] == c[..40][..i];
    if j == i + 4 {
      SameSuffix(b, c, i + 4, i + 4, 40);
    }
    CoveredCorruption(b[..40], c[..40], i, j);
    SameSuffix(b, c, i + 4, 52, 56);
  }

  /** The extension as it lies in the file, written in place. */
  class ChannelHeaderExt {
    const bytes: array<byte>

    constructor (raw: array<byte>)
      requires raw.Length == 64
      ensures bytes == raw
    {
      bytes := raw;
    }

    method Fill(p: nat, b: seq<byte>)
      requires p + |b| <= bytes.Length
      modifies bytes
      ensures bytes[..] == Splice(old(bytes[..]), p, b)
    {
      ghost var was := bytes[..];
      var i := 0;
      while i < |b|
        invariant 0 <= i <= |b|
        invariant bytes[..] == was[..p] + b[..i] + was[p + i..]
      {
        bytes[p + i] := b[i];
        i := i + 1;
      }
    }

    method InitPrepared(id: Identity)
      requires bytes.Length == 64
      modifies bytes
      ensures bytes[..] == Extension(id)
    {
      hide Le, Crc32c.Crc;
      var crc := Crc32c.ByTable(id.Bytes());
      FillIdentity(id);
      Fill(40, [0, 0, 0, 0, 0, 0, 0, 0] + [PREPARED] + [0, 0, 0]);
      Fill(52, WordBytes(crc));
      Fill(56, [0, 0, 0, 0, 0, 0, 0, 0]);
      FilledParts(bytes[..], id.Bytes(), WordBytes(crc));
    }

    method FillIdentity(id: Identity)
      requires bytes.Length == 64
      modifies bytes
      ensures bytes[..40] == id.Bytes()
    {
      hide Le;
      Fill(0, id.instance);
      Fill(16, id.predecessor);
      Fill(32, Le(id.predecessorSequence, 8));
    }

    static lemma FilledParts(b: seq<byte>, id: seq<byte>, crc: seq<byte>)
      requires |b| == 64 && |id| == 40 && |crc| == 4
      requires b[..40] == id && b[40..52] == [0, 0, 0, 0, 0, 0, 0, 0] + [PREPARED] + [0, 0, 0]
      requires b[52..56] == crc && b[56..] == [0, 0, 0, 0, 0, 0, 0, 0]
      ensures b == id + [0, 0, 0, 0, 0, 0, 0, 0] + [PREPARED] + [0, 0, 0] + crc + [0, 0, 0, 0, 0, 0, 0, 0]
    {
      assert b == b[..40] + b[40..52] + b[52..56] + b[56..];
    }

    method Publish()
      requires bytes.Length == 64
      modifies bytes
      ensures bytes[..] == old(bytes[..])[STATE := PUBLISHED]
      ensures ReadState(bytes[..]) == Ok(true)
      ensures ReadIdentity(bytes[..]) == ReadIdentity(old(bytes[..]))
    {
      bytes[STATE] := PUBLISHED;
      ghost var b, c := old(bytes[..]), bytes[..];
      assert c[..16] == b[..16] && c[16..32] == b[16..32] && c[32..40] == b[32..40] && c[40..48] == b[40..48];
      assert c[49..52] == b[49..52] && c[52..56] == b[52..56] && c[56..] == b[56..];
    }
  }
}
