/**
 * The record chain of one segment: committed records laid end to end, each one's length leading
 * to the next header slot. What a segment contains is what its chain holds.
 */
module Chain {
  import opened Bytes
  import opened Layout

  /** A user record, as readers receive it. */
  datatype Record = Record(messageType: nat, userMeta: nat, payload: seq<byte>)

  /** The slot after the record at `p`. */
  function Next(m: seq<byte>, p: nat): nat {
    if p + HEADER_SLOT <= |m| then AlignUp(p + HEADER_SLOT + HeaderAt(m, p).length) else p
  }

  /** A committed record the chain steps over: it keeps to its region and leaves room for a Roll behind it. */
  predicate Steppable(m: seq<byte>, r: nat, p: nat)
    requires r > 0
    ensures Steppable(m, r, p) ==> p + HEADER_SLOT <= Next(m, p) <= |m|
  {
    && p % 8 == 0
    && p + HEADER_SLOT <= |m|
    && var h := HeaderAt(m, p);
    && h.committed == 1
    && Next(m, p) <= |m|
    && (h.kind == CHANNEL ==> p == 0 && h.length == CHANNEL_PAYLOAD)
    && (h.kind == CHANNEL || h.kind == USER ==> p % r + (Next(m, p) - p) + ROLL_TOTAL <= r)
    && (h.kind == SKIP ==> p % r + HEADER_SLOT + h.length == r)
    && h.kind <= SKIP
  }

  function RecordAt(m: seq<byte>, p: nat): Record
    requires p + HEADER_SLOT <= |m| && Next(m, p) <= |m|
  {
    var h := HeaderAt(m, p);
    Record(h.messageType, h.userMeta, m[p + HEADER_SLOT..p + HEADER_SLOT + h.length])
  }

  /** What stepping over the record at `p` delivers. */
  function Step(m: seq<byte>, r: nat, p: nat): seq<Record>
    requires r > 0 && Steppable(m, r, p)
  {
    if HeaderAt(m, p).kind == USER then [RecordAt(m, p)] else []
  }

  /** Stepping from slot `a` over committed records arrives at slot `b`. */
  predicate Linked(m: seq<byte>, r: nat, a: nat, b: nat)
    requires r > 0
    decreases b - a
  {
    a == b || (a < b && Steppable(m, r, a) && Linked(m, r, Next(m, a), b))
  }

  /** The user records between two slots of the chain. */
  function Records(m: seq<byte>, r: nat, a: nat, b: nat): seq<Record>
    requires r > 0 && Linked(m, r, a, b)
    decreases b - a
  {
    if a == b then [] else Step(m, r, a) + Records(m, r, Next(m, a), b)
  }

  /** Where the chain from `p` stops: the first slot it cannot step over. */
  function End(m: seq<byte>, r: nat, p: nat): (e: nat)
    requires r > 0
    ensures p <= e && Linked(m, r, p, e) && !Steppable(m, r, e)
    decreases |m| - p
  {
    if Steppable(m, r, p) then End(m, r, Next(m, p)) else p
  }

  /** Everything the segment's chain holds. */
  function Content(m: seq<byte>, r: nat): seq<Record>
    requires r > 0
  {
    Records(m, r, 0, End(m, r, 0))
  }

  /** A slice before `b` is the same in both. */
  lemma SameSlice(m: seq<byte>, n: seq<byte>, b: nat, i: nat, j: nat)
    requires b <= |m| && b <= |n| && m[..b] == n[..b] && i <= j <= b
    ensures m[i..j] == n[i..j]
  {
    assert m[i..j] == m[..b][i..j] && n[i..j] == n[..b][i..j];
  }

  /** A record's step depends on the bytes up to its end only. */
  lemma SameStep(m: seq<byte>, n: seq<byte>, r: nat, p: nat, b: nat)
    requires r > 0 && b <= |m| && b <= |n| && m[..b] == n[..b]
    requires Steppable(m, r, p) && Next(m, p) <= b
    ensures Steppable(n, r, p) && Next(n, p) == Next(m, p) && Step(n, r, p) == Step(m, r, p)
    ensures HeaderAt(n, p) == HeaderAt(m, p)
  {
    hide HeaderAt, AlignUp;
    SameSlice(m, n, b, p, p + HEADER_SLOT);
    SameHeader(m, n, p);
    SameSlice(m, n, b, p + HEADER_SLOT, p + HEADER_SLOT + HeaderAt(m, p).length);
  }

  /** The chain up to a slot depends on the bytes before that slot only. */
  lemma {:induction false} SameChain(m: seq<byte>, n: seq<byte>, r: nat, a: nat, b: nat)
    requires r > 0 && b <= |m| && b <= |n| && m[..b] == n[..b]
    requires Linked(m, r, a, b)
    ensures Linked(n, r, a, b) && Records(n, r, a, b) == Records(m, r, a, b)
    decreases b - a
  {
    if a != b {
      assert Next(m, a) <= b;
      SameStep(m, n, r, a, b);
      SameChain(m, n, r, Next(m, a), b);
    }
  }

  lemma {:induction false} Join(m: seq<byte>, r: nat, a: nat, b: nat, c: nat)
    requires r > 0 && Linked(m, r, a, b) && Linked(m, r, b, c)
    ensures Linked(m, r, a, c) && Records(m, r, a, c) == Records(m, r, a, b) + Records(m, r, b, c)
    decreases b - a
  {
    hide Steppable, Step, Next;
    if a != b {
      Reaches(m, r, b, c);
      Join(m, r, Next(m, a), b, c);
    }
  }

  lemma Reaches(m: seq<byte>, r: nat, a: nat, b: nat)
    requires r > 0 && Linked(m, r, a, b)
    ensures a <= b && (b <= |m| || a == b)
    decreases b - a
  {
    if a != b {
      Reaches(m, r, Next(m, a), b);
    }
  }

  /** Two slots of one chain are linked, the earlier to the later. */
  lemma {:induction false} Split(m: seq<byte>, r: nat, a: nat, b: nat, c: nat)
    requires r > 0 && Linked(m, r, a, b) && Linked(m, r, a, c) && b <= c
    ensures Linked(m, r, b, c) && Records(m, r, a, c) == Records(m, r, a, b) + Records(m, r, b, c)
    decreases b - a
  {
    hide Steppable, Step, Next;
    if a != b {
      Split(m, r, Next(m, a), b, c);
    }
  }

  /** Every slot of a chain that starts at a slot is one: aligned, with room for a Roll. */
  lemma {:induction false} SlotsHold(g: Geometry, m: seq<byte>, a: nat, b: nat)
    requires g.Valid() && Linked(m, g.region, a, b) && g.Slot(a)
    ensures g.Slot(b)
    decreases b - a
  {
    if a != b {
      NextSlot(g, m, a);
      SlotsHold(g, m, Next(m, a), b);
    }
  }

  lemma SkipEnds(p: nat, length: nat, r: nat)
    requires r > 0 && r % 8 == 0 && p % 8 == 0 && p % r + HEADER_SLOT + length == r
    ensures AlignUp(p + HEADER_SLOT + length) == p + (r - p % r)
    ensures (p + (r - p % r)) % r == 0
  {
    EightDivides(p, r);
    ModStep(p, r - p % r, r);
    SkipAligned(p, p % r, length, r);
  }

  lemma SkipAligned(p: nat, o: nat, length: nat, r: nat)
    requires p % 8 == 0 && o % 8 == 0 && r % 8 == 0 && o + HEADER_SLOT + length == r
    ensures AlignUp(p + HEADER_SLOT + length) == p + (r - o)
  {
    Aligned(p, HEADER_SLOT + length);
  }

  lemma Aligned(p: nat, n: nat)
    requires p % 8 == 0 && n % 8 == 0
    ensures AlignUp(p + n) == p + n
  {
  }

  /** A user record leads to a slot of the same region, a Skip to the start of the next. */
  lemma NextSlot(g: Geometry, m: seq<byte>, p: nat)
    requires g.Valid() && Steppable(m, g.region, p)
    ensures g.Slot(Next(m, p)) && p < Next(m, p)
    ensures HeaderAt(m, p).kind != SKIP ==> Next(m, p) % g.region == p % g.region + (Next(m, p) - p)
    ensures HeaderAt(m, p).kind == SKIP ==> Next(m, p) % g.region == 0 && Next(m, p) == p + (g.region - p % g.region)
  {
    hide HeaderAt;
    if HeaderAt(m, p).kind == SKIP {
      SkipEnds(p, HeaderAt(m, p).length, g.region);
    } else {
      var n := Next(m, p);
      ModStep(p, n - p, g.region);
    }
  }

  /** Aligned positions have aligned offsets in their region. */
  lemma EightDivides(p: nat, r: nat)
    requires r > 0 && r % 8 == 0 && p % 8 == 0
    ensures p % r % 8 == 0
  {
    assert p == p / r * r + p % r;
    assert r == r / 8 * 8;
    assert p / r * r == p / r * (r / 8) * 8;
    ModUnique(8, p / r * (r / 8), 0);
  }

  /** Bytes from the end of the chain on may change freely, as long as the slot there stays uncommitted. */
  lemma EndStays(m: seq<byte>, n: seq<byte>, r: nat)
    requires r > 0 && End(m, r, 0) < |m| && End(m, r, 0) < |n|
    requires m[..End(m, r, 0)] == n[..End(m, r, 0)]
    requires n[End(m, r, 0)] == 0
    ensures End(n, r, 0) == End(m, r, 0) && Content(n, r) == Content(m, r)
  {
    var e := End(m, r, 0);
    SameChain(m, n, r, 0, e);
    EndUnique(n, r, e);
  }

  /** The chain stops where it first cannot step. */
  lemma EndUnique(m: seq<byte>, r: nat, e: nat)
    requires r > 0 && Linked(m, r, 0, e) && !Steppable(m, r, e)
    ensures End(m, r, 0) == e
  {
    var f := End(m, r, 0);
    if e <= f {
      Split(m, r, 0, e, f);
    } else {
      Split(m, r, 0, f, e);
    }
  }

  /** Whatever happens past a slot of the chain, the chain goes on from there. */
  lemma EndGrows(m: seq<byte>, n: seq<byte>, r: nat, b: nat)
    requires r > 0 && b <= |m| && b <= |n| && m[..b] == n[..b]
    requires Linked(m, r, 0, b)
    ensures b <= End(n, r, 0)
    ensures Linked(n, r, 0, b) && Linked(n, r, b, End(n, r, 0))
    ensures Content(n, r) == Records(m, r, 0, b) + Records(n, r, b, End(n, r, 0))
  {
    SameChain(m, n, r, 0, b);
    var f := End(n, r, 0);
    if f < b {
      Split(n, r, 0, f, b);
      assert false;
    }
    Split(n, r, 0, b, f);
  }

  /** A record committed at the end of the chain extends it by exactly that record. */
  lemma EndAdvances(m: seq<byte>, r: nat, e: nat)
    requires r > 0 && Linked(m, r, 0, e) && Steppable(m, r, e)
    requires Next(m, e) < |m| && m[Next(m, e)] == 0
    ensures End(m, r, 0) == Next(m, e)
    ensures Content(m, r) == Records(m, r, 0, e) + Step(m, r, e)
  {
    var n := Next(m, e);
    assert Linked(m, r, n, n) && Linked(m, r, e, n);
    assert Records(m, r, e, n) == Step(m, r, e) + Records(m, r, n, n);
    Join(m, r, 0, e, n);
    EndUnique(m, r, n);
  }

  /** Records never cross a region boundary, so every region the chain has come to begins with one of its slots. */
  lemma {:induction false} RegionOnChain(g: Geometry, m: seq<byte>, a: nat, e: nat, start: nat)
    requires g.Valid() && Linked(m, g.region, a, e) && a <= start <= e && start % g.region == 0
    ensures Linked(m, g.region, a, start) && Linked(m, g.region, start, e)
    decreases e - a
  {
    hide Steppable, Next, HeaderAt;
    if a != start {
      NextSlot(g, m, a);
      StepStays(g, m, a);
      BeforeRegion(a, start, g.region);
      RegionOnChain(g, m, Next(m, a), e, start);
    }
  }

  /** A record ends no later than its region. */
  lemma StepStays(g: Geometry, m: seq<byte>, p: nat)
    requires g.Valid() && Steppable(m, g.region, p)
    ensures Next(m, p) <= p - p % g.region + g.region
  {
    hide HeaderAt, Next, AlignUp;
    NextSlot(g, m, p);
  }

  lemma BeforeRegion(a: nat, start: nat, r: nat)
    requires r > 0 && a < start && start % r == 0
    ensures a - a % r + r <= start
  {
    RegionInside(a, start, r);
  }
}
