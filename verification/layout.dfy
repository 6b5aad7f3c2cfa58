/** Where things lie in a segment file: aligned header slots inside fixed-size regions. */
module Layout {
  import opened Bytes

  const HEADER_SLOT: nat := 16
  /** File offset of a segment's first record. */
  const FIRST_RECORD: nat := 208
  /** The Channel record's payload. */
  const CHANNEL_PAYLOAD: nat := 192
  const ROLL_PAYLOAD: nat := 40
  /** Room kept free at every header slot, so a `Roll` fits wherever the writer stops. */
  const ROLL_TOTAL: nat := 56
  const U32_MAX: nat := 0xFFFF_FFFF

  const CHANNEL: byte := 0
  const USER: byte := 1
  const SKIP: byte := 2
  const ROLL: byte := 3

  function AlignUp(x: nat): (r: nat)
    ensures r % 8 == 0 && x <= r < x + 8
  {
    (x + 7) / 8 * 8
  }

  /** A channel's region size and, unless it is 0, the size at which its files roll. */
  datatype Geometry = Geometry(region: nat, roll: nat)
  {
    /** What `open_or_create` and `build` accept. */
    predicate Valid() {
      && region % 8 == 0
      && FIRST_RECORD + ROLL_TOTAL <= region <= U32_MAX
      && (roll == 0 || 2 * region <= roll)
    }

    /** The length a new segment file is born with: whole regions covering `roll`. */
    function Prealloc(): nat
      requires region > 0
    {
      if roll == 0 then region
      else if roll % region == 0 then roll
      else roll + (region - roll % region)
    }

    /** Whether a record needing `needed` bytes, room for a Roll included, can go at slot `p` of its region. */
    predicate Room(p: nat, needed: nat)
      requires region > 0
    {
      p % region + needed <= region
    }

    /** A header slot: aligned, and with room for a Roll. */
    predicate Slot(p: nat)
      requires region > 0
    {
      p % 8 == 0 && Room(p, ROLL_TOTAL)
    }
  }

  // ---------- offsets within regions ----------

  lemma Times(a: int, b: int, r: nat)
    ensures a >= b ==> a * r >= b * r
  {
    if a >= b {
      assert (a - b) * r >= 0;
    }
  }

  lemma ModUnique(r: nat, q: int, o: nat)
    requires r > 0 && o < r
    ensures (q * r + o) % r == o
    ensures (q * r + o) / r == q
  {
    var x := q * r + o;
    assert x == x / r * r + x % r;
    var d := q - x / r;
    assert d * r == x % r - o;
    Times(d, 1, r);
    Times(-1, d, r);
  }

  lemma ModStep(p: nat, d: nat, r: nat)
    requires r > 0
    ensures p % r + d < r ==> (p + d) % r == p % r + d && (p + d) / r == p / r
    ensures p % r + d == r ==> (p + d) % r == 0 && (p + d) / r == p / r + 1
  {
    assert p == p / r * r + p % r;
    if p % r + d < r {
      ModUnique(r, p / r, p % r + d);
    }
    if p % r + d == r {
      assert (p / r + 1) * r == p / r * r + r;
      ModUnique(r, p / r + 1, 0);
    }
  }

  /** The region that `p` lies in ends within any whole number of regions that goes past `p`. */
  lemma RegionInside(p: nat, n: nat, r: nat)
    requires r > 0 && n % r == 0 && p < n
    ensures p - p % r + r <= n
  {
    var a, b := p / r, n / r;
    assert p == a * r + p % r && n == b * r;
    Times(a, b, r);
    Times(b, a + 1, r);
  }

  lemma ModMultiple(n: nat, k: nat, r: nat)
    requires r > 0 && n % r == 0
    ensures (n + r) % r == 0
    ensures k <= n ==> (n - k) % r == 0 ==> k % r == 0
  {
    ModStep(n, 0, r);
    assert n == n / r * r;
    assert (n / r + 1) * r == n + r;
    ModUnique(r, n / r + 1, 0);
    if k <= n && (n - k) % r == 0 {
      assert n - k == (n - k) / r * r;
      assert (n / r - (n - k) / r) * r == k;
      ModUnique(r, n / r - (n - k) / r, 0);
    }
  }

  /** Where the region that `p` lies in starts. */
  function RegionStart(p: nat, r: nat): (s: nat)
    requires r > 0
    ensures s % r == 0 && s <= p < s + r
  {
    ModUnique(r, p / r, 0);
    assert p == p / r * r + p % r;
    p - p % r
  }

  lemma SmallMod(p: nat, r: nat)
    requires p < r
    ensures p % r == p
  {
    ModUnique(r, 0, p);
  }

  lemma PreallocWhole(g: Geometry)
    requires g.region > 0
    ensures g.Prealloc() % g.region == 0
    ensures if g.roll != 0 then g.roll <= g.Prealloc() < g.roll + g.region else g.Prealloc() == g.region
    ensures g.Valid() ==> g.Prealloc() >= g.region
  {
    if g.roll == 0 {
      ModUnique(g.region, 1, 0);
    } else if g.roll % g.region != 0 {
      ModStep(g.roll, g.region - g.roll % g.region, g.region);
    }
  }

  /** A record that does not fit its region, but does fit before the roll size, has a region after its own. */
  lemma RollsWithin(g: Geometry, p: nat, n: nat)
    requires g.Valid() && p + n <= g.roll && p % g.region + n > g.region
    ensures p - p % g.region + 2 * g.region <= g.Prealloc()
  {
    hide Geometry.Prealloc;
    var d := g.region - p % g.region;
    PreallocWhole(g);
    ModStep(p, d, g.region);
    RegionInside(p + d, g.Prealloc(), g.region);
  }

  // ---------- record headers ----------

  datatype Header = Header(committed: byte, kind: byte, messageType: nat, length: nat, userMeta: nat)

  /** The 16 bytes of a header. */
  function Encode(h: Header): (b: seq<byte>)
    ensures |b| == HEADER_SLOT
  {
    [h.committed, h.kind] + Le(h.messageType, 2) + Le(h.length, 4) + Le(h.userMeta, 8)
  }

  /** Which bytes of a header hold what. */
  lemma HeaderFields(h: Header)
    ensures var b := Encode(h);
      && b[0] == h.committed && b[1] == h.kind && b[2..4] == Le(h.messageType, 2) && b[4..8] == Le(h.length, 4)
      && b[8..16] == Le(h.userMeta, 8)
  {
    hide Le;
  }

  function HeaderAt(m: seq<byte>, p: nat): Header
    requires p + HEADER_SLOT <= |m|
  {
    Header(m[p], m[p + 1], Nat(m[p + 2..p + 4]), Nat(m[p + 4..p + 8]), Nat(m[p + 8..p + 16]))
  }

  predicate Representable(h: Header) {
    h.messageType <= 0xFFFF && h.length <= U32_MAX && h.userMeta <= U64_MAX
  }

  /** What `try_reserve` lays down one slot ahead of itself. */
  const PREINSTALL: Header := Header(0, USER, 0, 0, 0)

  lemma HeaderOfEncode(m: seq<byte>, p: nat, h: Header)
    requires p + HEADER_SLOT <= |m| && Representable(h) && m[p..p + HEADER_SLOT] == Encode(h)
    ensures HeaderAt(m, p) == h
  {
    hide Le, Nat;
    var b := m[p..p + HEADER_SLOT];
    Widths();
    NatOfLe(h.messageType, 2);
    NatOfLe(h.length, 4);
    NatOfLe(h.userMeta, 8);
    HeaderFields(h);
    FieldsAt(m, p);
  }

  /** A header depends on its own 16 bytes only. */
  lemma SameHeader(m: seq<byte>, n: seq<byte>, p: nat)
    requires p + HEADER_SLOT <= |m| && p + HEADER_SLOT <= |n|
    requires m[p..p + HEADER_SLOT] == n[p..p + HEADER_SLOT]
    ensures HeaderAt(m, p) == HeaderAt(n, p)
  {
    hide Nat;
    var b := m[p..p + HEADER_SLOT];
    assert m[p] == b[0] == n[p] && m[p + 1] == b[1] == n[p + 1];
    FieldsAt(m, p);
    FieldsAt(n, p);
  }

  lemma FieldsAt(m: seq<byte>, p: nat)
    requires p + HEADER_SLOT <= |m|
    ensures var b := m[p..p + HEADER_SLOT];
      b[2..4] == m[p + 2..p + 4] && b[4..8] == m[p + 4..p + 8] && b[8..16] == m[p + 8..p + 16]
  {
  }
}
