/**
 * One segment file at rest between two stores: the states a writer leaves it in, whatever store it
 * dies after, and the stores that lead from one to the next.
 */
module Segments {
  import opened Bytes
  import opened Layout
  import opened Chain
  import opened Linking

  /** A segment file: its bytes, and the header fields the protocols use. */
  datatype Segment = Segment(
    mem: seq<byte>,
    writePosition: nat,
    messageCount: nat,
    base: nat,
    sequence: nat,
    generation: nat,
    identity: Identity,
    published: bool,
    wakes: bool,
    wakeWord: nat)

  /** The slot where the segment's chain stops. */
  function EndOf(g: Geometry, s: Segment): nat
    requires g.Valid()
  {
    End(s.mem, g.region, 0)
  }

  function ContentOf(g: Geometry, s: Segment): seq<Record>
    requires g.Valid()
  {
    Content(s.mem, g.region)
  }

  /** Whole regions, a Channel record first, and a chain that stops at a slot inside the file. */
  predicate Sound(g: Geometry, s: Segment)
    requires g.Valid()
  {
    && |s.mem| % g.region == 0
    && (g.roll != 0 ==> |s.mem| == g.Prealloc())
    && Linked(s.mem, g.region, 0, FIRST_RECORD)
    && EndOf(g, s) < |s.mem|
  }

  predicate Preinstalled(m: seq<byte>, p: nat) {
    p + HEADER_SLOT <= |m| && m[p..p + HEADER_SLOT] == Layout.Encode(PREINSTALL)
  }

  /** Position and count agree with the chain, and the next slot is not committed. */
  predicate Settled(g: Geometry, s: Segment)
    requires g.Valid()
    ensures Settled(g, s) ==> Sound(g, s)
  {
    && Sound(g, s)
    && s.mem[EndOf(g, s)] == 0
    && s.writePosition == EndOf(g, s) + HEADER_SLOT
    && s.messageCount == |ContentOf(g, s)|
  }

  /** Between committing the record at the write position and publishing the position after it. */
  predicate Orphaned(g: Geometry, s: Segment)
    requires g.Valid()
    ensures Orphaned(g, s) ==> Sound(g, s)
  {
    && Sound(g, s)
    && Preinstalled(s.mem, EndOf(g, s))
    && s.writePosition >= HEADER_SLOT
    && OrphanAt(g, s, s.writePosition - HEADER_SLOT)
  }

  /** The slot `o` of the chain's last record, which the count may or may not include. */
  predicate OrphanAt(g: Geometry, s: Segment, o: nat)
    requires g.Valid()
  {
    && FIRST_RECORD <= o && Linked(s.mem, g.region, 0, o)
    && Steppable(s.mem, g.region, o) && Next(s.mem, o) == EndOf(g, s)
    && (s.messageCount == |ContentOf(g, s)|
        || (HeaderAt(s.mem, o).kind == USER && s.messageCount + 1 == |ContentOf(g, s)|))
  }

  /** The chain ends on a committed Roll; the position still names it, or has moved one slot past it. */
  predicate Rolled(g: Geometry, s: Segment)
    requires g.Valid()
    ensures Rolled(g, s) ==> Sound(g, s)
  {
    && Sound(g, s)
    && s.mem[EndOf(g, s)] == 1
    && RollAt(s.mem, EndOf(g, s))
    && s.messageCount == |ContentOf(g, s)|
    && (s.writePosition == EndOf(g, s) + HEADER_SLOT || s.writePosition == EndOf(g, s) + HEADER_SLOT + ROLL_TOTAL)
  }

  predicate RollAt(m: seq<byte>, p: nat)
    ensures RollAt(m, p) ==> p + ROLL_TOTAL <= |m|
  {
    && p + ROLL_TOTAL <= |m|
    && HeaderAt(m, p).kind == ROLL && HeaderAt(m, p).length == Layout.ROLL_PAYLOAD
  }

  /** The Roll body at slot `p`. */
  function RollBody(m: seq<byte>, p: nat): (b: seq<byte>)
    requires p + ROLL_TOTAL <= |m|
    ensures |b| == Layout.ROLL_PAYLOAD
  {
    m[p + HEADER_SLOT..p + ROLL_TOTAL]
  }

  /** A Roll laid down in full but not committed. */
  predicate Staged(g: Geometry, s: Segment)
    requires g.Valid()
    ensures Staged(g, s) ==> Sound(g, s)
  {
    Settled(g, s) && RollAt(s.mem, EndOf(g, s))
  }

  /** A writer resumes only a segment in one of these states. */
  predicate Open(g: Geometry, s: Segment)
    requires g.Valid()
    ensures Open(g, s) ==> Sound(g, s)
  {
    Settled(g, s) || Orphaned(g, s)
  }

  /** The bytes before this position never change again. */
  function Frozen(g: Geometry, s: Segment): nat
    requires g.Valid()
  {
    if EndOf(g, s) < |s.mem| && s.mem[EndOf(g, s)] == 1 then EndOf(g, s) + ROLL_TOTAL else EndOf(g, s)
  }

  // ---------- facts about sound segments ----------

  lemma FirstSlots(g: Geometry)
    requires g.Valid()
    ensures g.Slot(0) && g.Slot(FIRST_RECORD)
  {
    SmallMod(0, g.region);
    SmallMod(FIRST_RECORD, g.region);
  }

  /** The chain of a sound segment stops at a header slot with room for a Roll, inside a whole region of the file. */
  lemma EndIsSlot(g: Geometry, s: Segment)
    requires g.Valid() && Sound(g, s)
    ensures var e := EndOf(g, s);
      FIRST_RECORD <= e && g.Slot(e) && e + ROLL_TOTAL <= |s.mem| && e - e % g.region + g.region <= |s.mem|
  {
    assert g.region > 0 && |s.mem| % g.region == 0 && EndOf(g, s) < |s.mem|;
    hide Steppable, Geometry.Prealloc, Geometry.Slot, Geometry.Valid, End, Linked, Records, Next;
    FirstSlots(g);
    SlotsHold(g, s.mem, 0, EndOf(g, s));
    Reaches(s.mem, g.region, 0, FIRST_RECORD);
    EndGrows(s.mem, s.mem, g.region, FIRST_RECORD);
    SlotInside(g, EndOf(g, s), |s.mem|);
  }

  lemma SlotInside(g: Geometry, e: nat, n: nat)
    requires g.Valid() && g.Slot(e) && n % g.region == 0 && e < n
    ensures e + ROLL_TOTAL <= n && e - e % g.region + g.region <= n
  {
    RegionInside(e, n, g.region);
  }

  /** A preinstalled slot is uncommitted. */
  lemma PreinstalledHeader(m: seq<byte>, p: nat)
    requires Preinstalled(m, p)
    ensures HeaderAt(m, p) == PREINSTALL && m[p] == 0
  {
    hide Le, Nat;
    Widths();
    HeaderOfEncode(m, p, PREINSTALL);
  }

  /** What a settled segment's fields say. */
  lemma SettledSays(g: Geometry, s: Segment)
    requires g.Valid() && Settled(g, s)
    ensures s.messageCount == |ContentOf(g, s)| && s.writePosition == EndOf(g, s) + HEADER_SLOT
    ensures EndOf(g, s) < |s.mem| && s.mem[EndOf(g, s)] == 0
    ensures |s.mem| % g.region == 0 && (g.roll != 0 ==> |s.mem| == g.Prealloc())
  {
    hide EndOf, ContentOf, Linked, Geometry.Prealloc;
  }

  lemma OpenEnd(g: Geometry, s: Segment)
    requires g.Valid() && Open(g, s)
    ensures s.mem[EndOf(g, s)] == 0 && Frozen(g, s) == EndOf(g, s)
    ensures !Rolled(g, s)
  {
    if Orphaned(g, s) { PreinstalledHeader(s.mem, EndOf(g, s)); }
  }

  // ---------- how a segment may change ----------

  /**
   * What every store, and every recovery, keeps of a segment: its frozen bytes, identity and base; and what
   * only grows.
   */
  ghost predicate Evolves(g: Geometry, s: Segment, t: Segment)
    requires g.Valid()
  {
    && t.base == s.base && t.sequence == s.sequence && t.generation == s.generation && t.identity == s.identity
    && (s.published ==> t.published)
    && |s.mem| <= |t.mem|
    && Frozen(g, s) <= |s.mem| && t.mem[..Frozen(g, s)] == s.mem[..Frozen(g, s)]
    && EndOf(g, s) <= EndOf(g, t) && Frozen(g, s) <= Frozen(g, t)
    && (Rolled(g, s) ==> Rolled(g, t) && EndOf(g, t) == EndOf(g, s))
    && s.writePosition <= t.writePosition && s.messageCount <= t.messageCount
  }

  lemma EvolvesTransitive(g: Geometry, s: Segment, t: Segment, u: Segment)
    requires g.Valid() && Evolves(g, s, t) && Evolves(g, t, u)
    ensures Evolves(g, s, u)
  {
    hide EndOf, Rolled, Frozen;
    var f := Frozen(g, s);
    assert u.mem[..f] == u.mem[..Frozen(g, t)][..f] == t.mem[..Frozen(g, t)][..f] == t.mem[..f];
  }

  /** Evolving never takes a record back: what the chain held is a prefix of what it holds. */
  lemma ContentGrows(g: Geometry, s: Segment, t: Segment)
    requires g.Valid() && Evolves(g, s, t)
    ensures EndOf(g, s) <= |s.mem| && Linked(t.mem, g.region, 0, EndOf(g, s))
    ensures ContentOf(g, s) <= ContentOf(g, t)
    ensures Rolled(g, s) ==> ContentOf(g, t) == ContentOf(g, s)
  {
    hide Rolled, Steppable, Geometry.Prealloc, Geometry.Slot, End;
    var e := EndOf(g, s);
    assert t.mem[..e] == t.mem[..Frozen(g, s)][..e] == s.mem[..Frozen(g, s)][..e] == s.mem[..e];
    EndGrows(s.mem, t.mem, g.region, e);
  }

  // ---------- stores that no reader can see ----------

  function Poke(s: Segment, p: nat, b: seq<byte>): Segment
    requires p + |b| <= |s.mem|
  {
    s.(mem := Splice(s.mem, p, b))
  }

  /** A store into the bytes past the chain that leaves the next slot uncommitted. */
  predicate Private(g: Geometry, s: Segment, p: nat, b: seq<byte>)
    requires g.Valid()
    ensures Private(g, s, p, b) ==> p + |b| <= |s.mem|
  {
    EndOf(g, s) <= p && p + |b| <= |s.mem| && (p == EndOf(g, s) && b != [] ==> b[0] == 0)
  }

  lemma PokeSettled(g: Geometry, s: Segment, p: nat, b: seq<byte>)
    requires g.Valid() && Settled(g, s) && Private(g, s, p, b)
    ensures var t := Poke(s, p, b);
      && Settled(g, t) && Evolves(g, s, t)
      && EndOf(g, t) == EndOf(g, s) && ContentOf(g, t) == ContentOf(g, s)
      && t.mem[..EndOf(g, s)] == s.mem[..EndOf(g, s)]
  {
    hide Steppable, Geometry.Prealloc, Geometry.Slot, End, Linked, Records;
    var e := EndOf(g, s);
    var n := Splice(s.mem, p, b);
    assert n[..e] == n[..p][..e] == s.mem[..p][..e] == s.mem[..e];
    assert n[e] == 0 by {
      if p == e && b != [] { assert n[e] == n[p..p + |b|][0]; }
      else if p == e { assert n == s.mem; }
      else { assert n[e] == n[..p][e] == s.mem[..p][e]; }
    }
    EndStays(s.mem, n, g.region);
    EndIsSlot(g, s);
    SameChain(s.mem, n, g.region, 0, FIRST_RECORD);
  }

  /** `ensure_len`: the file grows by whole regions of zeros. */
  function Zeros(n: nat): (b: seq<byte>)
    ensures |b| == n && forall i :: 0 <= i < n ==> b[i] == 0
  {
    if n == 0 then [] else [0] + Zeros(n - 1)
  }

  lemma GrowSettled(g: Geometry, s: Segment, n: nat)
    requires g.Valid() && Settled(g, s) && g.roll == 0 && n % g.region == 0 && |s.mem| <= n
    ensures var t := s.(mem := s.mem + Zeros(n - |s.mem|));
      && Settled(g, t) && Evolves(g, s, t) && |t.mem| == n
      && EndOf(g, t) == EndOf(g, s) && ContentOf(g, t) == ContentOf(g, s)
  {
    hide Steppable, Geometry.Prealloc, Geometry.Slot, End, Linked, Records;
    var e := EndOf(g, s);
    var m := s.mem + Zeros(n - |s.mem|);
    assert m[..e] == s.mem[..e];
    EndStays(s.mem, m, g.region);
    EndIsSlot(g, s);
    SameChain(s.mem, m, g.region, 0, FIRST_RECORD);
  }

  // ---------- publishing a record ----------

  /** The release store of `committed = 1` at the next slot. */
  function Committed(g: Geometry, s: Segment): Segment
    requires g.Valid() && EndOf(g, s) < |s.mem|
  {
    s.(mem := s.mem[EndOf(g, s) := 1])
  }

  /**
   * The next slot holds a User or Skip header that is whole but for its committed byte, with the slot after
   * it preinstalled.
   */
  predicate ReadyToCommit(g: Geometry, s: Segment)
    requires g.Valid()
  {
    && EndOf(g, s) < |s.mem|
    && var m := Committed(g, s).mem;
    && Steppable(m, g.region, EndOf(g, s))
    && Preinstalled(m, Next(m, EndOf(g, s)))
  }

  /** Committing makes the record at the next slot, and nothing else, visible. */
  lemma CommitOrphans(g: Geometry, s: Segment)
    requires g.Valid() && Settled(g, s) && ReadyToCommit(g, s)
    ensures var t := Committed(g, s);
      && Orphaned(g, t) && Evolves(g, s, t)
      && EndOf(g, t) == Next(t.mem, EndOf(g, s))
      && ContentOf(g, t) == ContentOf(g, s) + Step(t.mem, g.region, EndOf(g, s))
  {
    hide Steppable, Geometry.Prealloc, Geometry.Slot, End, Linked, Records, Next, HeaderAt;
    var e := EndOf(g, s);
    var t := Committed(g, s);
    EndIsSlot(g, s);
    assert t.mem[..e] == s.mem[..e];
    SameChain(s.mem, t.mem, g.region, 0, e);
    SameChain(s.mem, t.mem, g.region, 0, FIRST_RECORD);
    PreinstalledHeader(t.mem, Next(t.mem, e));
    EndAdvances(t.mem, g.region, e);
  }

  /** The count then catches up, and the position after it. */
  lemma PublishSettles(g: Geometry, s: Segment)
    requires g.Valid() && Orphaned(g, s) && s.messageCount == |ContentOf(g, s)|
    ensures var t := s.(writePosition := EndOf(g, s) + HEADER_SLOT);
      Settled(g, t) && Evolves(g, s, t) && ContentOf(g, t) == ContentOf(g, s) && EndOf(g, t) == EndOf(g, s)
  {
    hide Steppable, Geometry.Prealloc, Geometry.Slot, End, Linked, Records;
    PreinstalledHeader(s.mem, EndOf(g, s));
    EndIsSlot(g, s);
  }

  lemma CountCatchesUp(g: Geometry, s: Segment)
    requires g.Valid() && Orphaned(g, s)
    ensures s.messageCount <= |ContentOf(g, s)|
    ensures var t := s.(messageCount := |ContentOf(g, s)|);
      Orphaned(g, t) && Evolves(g, s, t) && ContentOf(g, t) == ContentOf(g, s)
  {
    hide Steppable, Geometry.Prealloc, Geometry.Slot, End, Linked, Records;
    OpenEnd(g, s);
    EndIsSlot(g, s);
  }

  // ---------- ending a segment ----------

  /** The roll is complete: committed, and the position one slot past it. */
  predicate Done(g: Geometry, s: Segment)
    requires g.Valid()
    ensures Done(g, s) ==> Sound(g, s)
  {
    Rolled(g, s) && s.writePosition == EndOf(g, s) + HEADER_SLOT + ROLL_TOTAL
  }

  /** Committing a staged Roll ends the chain on it and changes nothing it holds. */
  lemma CommitRolls(g: Geometry, s: Segment)
    requires g.Valid() && Staged(g, s)
    ensures var t := Committed(g, s);
      && Rolled(g, t) && Evolves(g, s, t) && !Done(g, t)
      && EndOf(g, t) == EndOf(g, s) && ContentOf(g, t) == ContentOf(g, s)
      && RollBody(t.mem, EndOf(g, t)) == RollBody(s.mem, EndOf(g, s))
  {
    hide Geometry.Prealloc, Geometry.Slot, End, Linked, Records;
    var e := EndOf(g, s);
    var t := Committed(g, s);
    EndIsSlot(g, s);
    assert t.mem[..e] == s.mem[..e];
    SameChain(s.mem, t.mem, g.region, 0, e);
    SameChain(s.mem, t.mem, g.region, 0, FIRST_RECORD);
    assert t.mem[e + 2..e + 4] == s.mem[e + 2..e + 4] && t.mem[e + 4..e + 8] == s.mem[e + 4..e + 8];
    EndUnique(t.mem, g.region, e);
  }

  /** The position moved one slot past the Roll. */
  function Completed(g: Geometry, s: Segment): Segment
    requires g.Valid()
  {
    s.(writePosition := EndOf(g, s) + HEADER_SLOT + ROLL_TOTAL)
  }

  lemma HintCompletes(g: Geometry, s: Segment)
    requires g.Valid() && Rolled(g, s)
    ensures var t := Completed(g, s);
      Done(g, t) && Evolves(g, s, t) && ContentOf(g, t) == ContentOf(g, s) && EndOf(g, t) == EndOf(g, s)
  {
    hide Steppable, Geometry.Prealloc, Geometry.Slot, End, Linked, Records;
    EndIsSlot(g, s);
  }

  // ---------- a fresh segment ----------

  /** The Channel record's header, as `init_segment` writes it. */
  const CHANNEL_HEADER: Header := Header(1, CHANNEL, 0, CHANNEL_PAYLOAD, 0)

  /**
   * The bytes of a fresh segment: the Channel record, the first slot preinstalled, zeros. The header fields
   * are kept apart.
   */
  function FreshBytes(n: nat): (b: seq<byte>)
    requires n >= FIRST_RECORD + HEADER_SLOT
    ensures |b| == n
  {
    Layout.Encode(CHANNEL_HEADER) + Zeros(CHANNEL_PAYLOAD) + Layout.Encode(PREINSTALL)
      + Zeros(n - FIRST_RECORD - HEADER_SLOT)
  }

  function Fresh(g: Geometry, base: nat, sequence: nat, generation: nat, identity: Identity): Segment
    requires g.Valid()
  {
    PreallocWhole(g);
    Segment(FreshBytes(g.Prealloc()), FIRST_RECORD + HEADER_SLOT, 0, base, sequence, generation, identity, false,
        false, 0)
  }

  lemma FreshIsSettled(g: Geometry, base: nat, sequence: nat, generation: nat, identity: Identity)
    requires g.Valid()
    ensures var s := Fresh(g, base, sequence, generation, identity);
      Settled(g, s) && EndOf(g, s) == FIRST_RECORD && ContentOf(g, s) == [] && Preinstalled(s.mem, FIRST_RECORD)
  {
    hide Zeros, Le, Nat;
    var s := Fresh(g, base, sequence, generation, identity);
    var m := s.mem;
    PreallocWhole(g);
    Widths();
    assert m[0..HEADER_SLOT] == Layout.Encode(CHANNEL_HEADER);
    HeaderOfEncode(m, 0, CHANNEL_HEADER);
    assert m[FIRST_RECORD..FIRST_RECORD + HEADER_SLOT] == Layout.Encode(PREINSTALL);
    PreinstalledHeader(m, FIRST_RECORD);
    SmallMod(0, g.region);
    assert Next(m, 0) == FIRST_RECORD;
    assert Steppable(m, g.region, 0);
    assert Step(m, g.region, 0) == [];
    assert Linked(m, g.region, 0, 0);
    EndAdvances(m, g.region, 0);
  }
}
