/** The bytes a writer lays down for one record, in the order it stores them. */
module RecordBytes {
  import opened Bytes
  import opened Layout
  import opened Chain
  import opened Segments

  /** A header filled in field by field, as `commit` does: the committed byte cleared, length, kind, type, metadata. */
  function FillHeader(m: seq<byte>, p: nat, h: Header): (n: seq<byte>)
    requires p + HEADER_SLOT <= |m|
    ensures |n| == |m|
  {
    var m1 := Splice(m, p, [h.committed]);
    var m2 := Splice(m1, p + 4, Le(h.length, 4));
    var m3 := Splice(m2, p + 1, [h.kind]);
    var m4 := Splice(m3, p + 2, Le(h.messageType, 2));
    Splice(m4, p + 8, Le(h.userMeta, 8))
  }

  /** Field by field comes to the same as all at once. */
  lemma FilledHeader(m: seq<byte>, p: nat, h: Header)
    requires p + HEADER_SLOT <= |m|
    ensures FillHeader(m, p, h) == Splice(m, p, Layout.Encode(h))
  {
    hide Le, Splice;
    var m1 := Splice(m, p, [h.committed]);
    var m2 := Splice(m1, p + 4, Le(h.length, 4));
    var m3 := Splice(m2, p + 1, [h.kind]);
    var m4 := Splice(m3, p + 2, Le(h.messageType, 2));
    var m5 := Splice(m4, p + 8, Le(h.userMeta, 8));
    var n := Splice(m, p, Layout.Encode(h));
    forall i | 0 <= i < |m|
      ensures m5[i] == n[i]
    {
      SpliceIndex(m, p, [h.committed], i);
      SpliceIndex(m1, p + 4, Le(h.length, 4), i);
      SpliceIndex(m2, p + 1, [h.kind], i);
      SpliceIndex(m3, p + 2, Le(h.messageType, 2), i);
      SpliceIndex(m4, p + 8, Le(h.userMeta, 8), i);
      SpliceIndex(m, p, Layout.Encode(h), i);
    }
  }

  /** A header stored at `p` with its committed byte then set reads back as that header, committed. */
  lemma CommittedHeader(m: seq<byte>, p: nat, h: Header, n: seq<byte>)
    requires p + HEADER_SLOT <= |m| && Representable(h) && h.committed == 0
    requires m[p..p + HEADER_SLOT] == Layout.Encode(h)
    requires n == m[p := 1]
    ensures HeaderAt(n, p) == h.(committed := 1)
  {
    hide Nat, Le;
    HeaderOfEncode(m, p, h);
    assert n[p + 2..p + 4] == m[p + 2..p + 4] && n[p + 4..p + 8] == m[p + 4..p + 8];
    assert n[p + 8..p + 16] == m[p + 8..p + 16];
  }

  /** Whether a record of `length` bytes at the next slot, with the slot after it preinstalled, is ready. */
  predicate Laid(g: Geometry, s: Segment, h: Header, after: nat)
    requires g.Valid()
  {
    var e := EndOf(g, s);
    && e + HEADER_SLOT <= |s.mem| && s.mem[e..e + HEADER_SLOT] == Layout.Encode(h)
    && Representable(h) && h.committed == 0
    && after == AlignUp(e + HEADER_SLOT + h.length) && Preinstalled(s.mem, after)
    && (h.kind == USER || h.kind == SKIP)
    && (h.kind == USER ==> e % g.region + (after - e) + ROLL_TOTAL <= g.region)
    && (h.kind == SKIP ==> e % g.region + HEADER_SLOT + h.length == g.region)
  }

  lemma LaidIsReady(g: Geometry, s: Segment, h: Header, after: nat)
    requires g.Valid() && Settled(g, s) && Laid(g, s, h, after)
    ensures ReadyToCommit(g, s)
    ensures var e := EndOf(g, s); var m := Committed(g, s).mem;
      && Steppable(m, g.region, e) && Next(m, e) == after
      && Step(m, g.region, e) ==
        if h.kind == USER then [Record(h.messageType, h.userMeta, s.mem[e + HEADER_SLOT..e + HEADER_SLOT + h.length])]
          else []
  {
    hide Settled, End, Linked, Records, Layout.Encode, HeaderAt, Geometry.Prealloc;
    EndIsSlot(g, s);
    var e := EndOf(g, s);
    var m := Committed(g, s).mem;
    CommittedHeader(s.mem, e, h, m);
    assert m[after..after + HEADER_SLOT] == s.mem[after..after + HEADER_SLOT];
    assert m[e + HEADER_SLOT..e + HEADER_SLOT + h.length] == s.mem[e + HEADER_SLOT..e + HEADER_SLOT + h.length];
  }

  /** Header bytes stored at `p` stand there, and are still there after a store that does not reach them. */
  lemma StoredHeader(m: seq<byte>, p: nat, h: Header, q: nat, b: seq<byte>)
    requires p + HEADER_SLOT <= |m| && q + |b| <= |m| && (q + |b| <= p || p + HEADER_SLOT <= q)
    ensures Splice(m, p, Layout.Encode(h))[p..p + HEADER_SLOT] == Layout.Encode(h)
    ensures Splice(Splice(m, p, Layout.Encode(h)), q, b)[p..p + HEADER_SLOT] == Layout.Encode(h)
  {
    hide Layout.Encode, Splice;
    SpliceElsewhere(Splice(m, p, Layout.Encode(h)), q, b, p, p + HEADER_SLOT);
  }

  function SkipHeader(length: nat): Header {
    Header(0, SKIP, 0, length, 0)
  }

  /** A Skip at the next slot that fills the rest of its region, the first slot of the next one preinstalled. */
  lemma SkipLaid(g: Geometry, m: seq<byte>, t: Segment, wp: nat, skip: nat, after: nat)
    requires g.Valid() && Settled(g, t) && EndOf(g, t) == wp
    requires wp % g.region + HEADER_SLOT + skip == g.region && after == wp + HEADER_SLOT + skip
    requires after + HEADER_SLOT <= |m|
    requires t.mem == Splice(Splice(m, after, Layout.Encode(PREINSTALL)), wp, Layout.Encode(SkipHeader(skip)))
    ensures Laid(g, t, SkipHeader(skip), after)
  {
    hide Settled, EndOf, Layout.Encode, Splice, Geometry.Prealloc;
    EndIsSlot(g, t);
    SkipEnds(wp, skip, g.region);
    StoredHeader(m, after, PREINSTALL, wp, Layout.Encode(SkipHeader(skip)));
  }

  lemma LaidFits(g: Geometry, s: Segment, h: Header, after: nat)
    requires g.Valid() && Laid(g, s, h, after)
    ensures EndOf(g, s) + HEADER_SLOT + h.length <= after && after + HEADER_SLOT <= |s.mem|
  {
    hide EndOf;
  }

  /** Padding moves with the slot it is counted from. */
  lemma AlignFrom(p: nat, n: nat, size: nat)
    requires p % 8 == 0 && n <= size
    ensures AlignUp(p + HEADER_SLOT + n) == p + AlignUp(HEADER_SLOT + n)
    ensures AlignUp(HEADER_SLOT + n) <= AlignUp(HEADER_SLOT + size)
  {
  }

  function UserHeader(messageType: nat, length: nat, userMeta: nat): Header {
    Header(0, USER, messageType, length, userMeta)
  }

  /**
   * The bytes once the header is filled in and, for a commit shorter than the reservation, the next slot
   * preinstalled anew.
   */
  function UserBytes(m: seq<byte>, p: nat, h: Header, after: nat, short: bool): seq<byte>
    requires p + HEADER_SLOT <= |m| && after + HEADER_SLOT <= |m|
  {
    var n := Splice(m, p, Layout.Encode(h));
    if short then Splice(n, after, Layout.Encode(PREINSTALL)) else n
  }

  /** Whether `m` is preinstalled behind a reservation of `size` at slot `p`, or a shorter commit installs it anew. */
  predicate Followed(m: seq<byte>, p: nat, size: nat, length: nat) {
    length < size || (length == size && Preinstalled(m, p + AlignUp(HEADER_SLOT + size)))
  }

  lemma UserBytesStand(m: seq<byte>, p: nat, h: Header, after: nat, short: bool)
    requires p + HEADER_SLOT + h.length <= after && after + HEADER_SLOT <= |m|
    requires short || Preinstalled(m, after)
    ensures var n := UserBytes(m, p, h, after, short);
      && |n| == |m| && n[p..p + HEADER_SLOT] == Layout.Encode(h) && Preinstalled(n, after)
      && n[p + HEADER_SLOT..p + HEADER_SLOT + h.length] == m[p + HEADER_SLOT..p + HEADER_SLOT + h.length]
  {
    hide Layout.Encode, Splice;
    StoredHeader(m, p, h, after, Layout.Encode(PREINSTALL));
    var n := Splice(m, p, Layout.Encode(h));
    SpliceElsewhere(m, p, Layout.Encode(h), after, after + HEADER_SLOT);
    SpliceElsewhere(m, p, Layout.Encode(h), p + HEADER_SLOT, p + HEADER_SLOT + h.length);
    SpliceElsewhere(n, after, Layout.Encode(PREINSTALL), p + HEADER_SLOT, p + HEADER_SLOT + h.length);
  }

  /** A user record filled in at the next slot, within what was reserved there. */
  lemma UserLaid(g: Geometry, m: seq<byte>, t: Segment, p: nat, size: nat, h: Header)
    requires g.Valid() && Settled(g, t) && EndOf(g, t) == p
    requires h.kind == USER && h.committed == 0 && Representable(h) && h.length <= size
    requires p % g.region + AlignUp(HEADER_SLOT + size) + ROLL_TOTAL <= g.region
    requires Followed(m, p, size, h.length)
    requires AlignUp(p + HEADER_SLOT + h.length) + HEADER_SLOT <= |m|
    requires t.mem == UserBytes(m, p, h, AlignUp(p + HEADER_SLOT + h.length), h.length < size)
    ensures Laid(g, t, h, AlignUp(p + HEADER_SLOT + h.length))
    ensures t.mem[p + HEADER_SLOT..p + HEADER_SLOT + h.length] == m[p + HEADER_SLOT..p + HEADER_SLOT + h.length]
  {
    hide Settled, EndOf, Layout.Encode, Splice, Geometry.Prealloc, AlignUp, UserBytes, Preinstalled;
    EndIsSlot(g, t);
    AlignFrom(p, h.length, size);
    UserBytesStand(m, p, h, AlignUp(p + HEADER_SLOT + h.length), h.length < size);
  }

  const ROLL_HEADER: Header := Header(0, ROLL, 0, Layout.ROLL_PAYLOAD, 0)

  /** The whole Roll staged at slot `p`: its body, then its header. */
  function RollBytes(m: seq<byte>, p: nat, body: seq<byte>): seq<byte>
    requires p + ROLL_TOTAL <= |m| && |body| == Layout.ROLL_PAYLOAD
  {
    Splice(Splice(m, p + HEADER_SLOT, body), p, Layout.Encode(ROLL_HEADER))
  }

  lemma RollStaged(m: seq<byte>, p: nat, body: seq<byte>)
    requires p + ROLL_TOTAL <= |m| && |body| == Layout.ROLL_PAYLOAD
    ensures var n := RollBytes(m, p, body);
      && |n| == |m| && RollAt(n, p) && RollBody(n, p) == body
      && n[..p] == m[..p] && n[p + ROLL_TOTAL..] == m[p + ROLL_TOTAL..]
  {
    hide Layout.Encode, Splice, HeaderAt;
    var m1 := Splice(m, p + HEADER_SLOT, body);
    var n := RollBytes(m, p, body);
    SpliceElsewhere(m1, p, Layout.Encode(ROLL_HEADER), p + HEADER_SLOT, p + ROLL_TOTAL);
    SpliceElsewhere(m1, p, Layout.Encode(ROLL_HEADER), p + ROLL_TOTAL, |m|);
    assert n[..p] == m1[..p] == m1[..p + HEADER_SLOT][..p] == m[..p + HEADER_SLOT][..p] == m[..p];
    assert n[p + ROLL_TOTAL..] == n[p + ROLL_TOTAL..|m|] && m1[p + ROLL_TOTAL..] == m1[p + ROLL_TOTAL..|m|];
    assert m1[p + HEADER_SLOT..p + HEADER_SLOT + |body|] == body;
    assert n[p..p + HEADER_SLOT] == Layout.Encode(ROLL_HEADER);
    HeaderOfEncode(n, p, ROLL_HEADER);
  }
}
