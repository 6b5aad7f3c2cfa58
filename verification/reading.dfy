/** A cursor on the record chain: what a reader may find at it, and what every advance of the disk leaves of it. */
module Reading {
  import opened Bytes
  import opened Layout
  import opened Chain
  import opened Linking
  import opened Segments
  import opened Channel
  import opened Histories

  /** A cursor: a slot of segment `segment`, file `instance`, and the absolute index of the next user record. */
  datatype Cursor = Cursor(segment: nat, instance: InstanceId, slot: nat, position: nat)

  /** The cursor is on the chain of its segment, and its position counts the records before it. */
  ghost predicate On(g: Geometry, d: Disk, ch: History, c: Cursor)
    requires g.Valid()
    ensures On(g, d, ch, c) ==> c.instance in d.files && c.segment < |ch|
  {
    && c.segment < |ch| && ch[c.segment] == c.instance && c.instance in d.files
    && OnChain(g, d.files[c.instance], c.slot, c.position)
  }

  ghost predicate OnChain(g: Geometry, s: Segment, slot: nat, position: nat)
    requires g.Valid()
  {
    Linked(s.mem, g.region, 0, slot) && position == s.base + |Records(s.mem, g.region, 0, slot)|
  }

  /** The slot of a cursor lies no further than where the chain stops. */
  lemma BeforeEnd(g: Geometry, s: Segment, slot: nat)
    requires g.Valid() && Linked(s.mem, g.region, 0, slot)
    ensures slot <= EndOf(g, s) && Linked(s.mem, g.region, slot, EndOf(g, s))
    ensures slot < EndOf(g, s) <==> Steppable(s.mem, g.region, slot)
    ensures |Records(s.mem, g.region, 0, slot)| <= |ContentOf(g, s)|
  {
    hide Steppable, Step, Next;
    var e := EndOf(g, s);
    if e < slot { Split(s.mem, g.region, 0, e, slot); assert false; }
    Split(s.mem, g.region, 0, slot, e);
  }

  /** A cursor stays on its chain, at the same index, whatever others do. */
  lemma ChainStays(g: Geometry, s: Segment, t: Segment, slot: nat, position: nat)
    requires g.Valid() && Evolves(g, s, t) && OnChain(g, s, slot, position)
    ensures OnChain(g, t, slot, position)
  {
    hide Steppable, Step, Next, Rolled, Linked, Records;
    BeforeEnd(g, s, slot);
    var f := Frozen(g, s);
    assert slot <= f;
    assert t.mem[..slot] == t.mem[..f][..slot] == s.mem[..f][..slot] == s.mem[..slot];
    SameChain(s.mem, t.mem, g.region, 0, slot);
  }

  lemma OnStays(g: Geometry, d: Disk, ch: History, e: Disk, dh: History, c: Cursor)
    requires g.Valid() && Advances(g, d, ch, e, dh) && On(g, d, ch, c)
    ensures On(g, e, dh, c)
  {
    hide OnChain, Evolves;
    assert dh[c.segment] == dh[..|ch|][c.segment] == ch[c.segment];
    ChainStays(g, d.files[c.instance], e.files[c.instance], c.slot, c.position);
  }

  /** A header slot lies inside a whole region of its file. */
  lemma SlotMapped(g: Geometry, s: Segment, slot: nat)
    requires g.Valid() && Sound(g, s) && Linked(s.mem, g.region, 0, slot)
    ensures g.Slot(slot) && slot + HEADER_SLOT <= |s.mem| && RegionStart(slot, g.region) + g.region <= |s.mem|
    ensures RegionStart(slot, g.region) == slot - slot % g.region
  {
    hide Steppable, Geometry.Prealloc, Next, End, Records, Linked;
    FirstSlots(g);
    SlotsHold(g, s.mem, 0, slot);
    BeforeEnd(g, s, slot);
    EndIsSlot(g, s);
    SlotInside(g, slot, |s.mem|);
  }

  /** What the slot of a cursor may hold. */
  datatype Found = NotYet | User | Service | Roll

  ghost predicate Finds(g: Geometry, d: Disk, ch: History, c: Cursor, f: Found)
    requires g.Valid() && On(g, d, ch, c)
  {
    var s := d.files[c.instance];
    match f
    case NotYet => c.slot == EndOf(g, s) && c.slot < |s.mem| && s.mem[c.slot] == 0 && !Rolled(g, s)
    case User => Steppable(s.mem, g.region, c.slot) && HeaderAt(s.mem, c.slot).kind == USER
    case Service => Steppable(s.mem, g.region, c.slot) && HeaderAt(s.mem, c.slot).kind != USER
    case Roll => c.slot == EndOf(g, s) && Rolled(g, s)
  }

  /** A slot holds one of four things, and its committed byte and type tell which. */
  lemma SlotHolds(g: Geometry, d: Disk, ch: History, c: Cursor) returns (f: Found)
    requires Inv(g, d, ch) && On(g, d, ch, c)
    ensures g.Valid() && Finds(g, d, ch, c, f)
    ensures var m := d.files[c.instance].mem;
      && c.slot + HEADER_SLOT <= |m|
      && HeaderAt(m, c.slot).committed == (if f == NotYet then 0 else 1)
      && (f == User ==> HeaderAt(m, c.slot).kind == USER)
      && (f == Service ==> HeaderAt(m, c.slot).kind == CHANNEL || HeaderAt(m, c.slot).kind == SKIP)
      && (f == Roll ==> HeaderAt(m, c.slot).kind == ROLL && HeaderAt(m, c.slot).length == Layout.ROLL_PAYLOAD)
      && (f == Roll ==> c.slot + ROLL_TOTAL <= |m|)
  {
    hide Inv, Members, Open, Closing, Done, Leads, Linked, Records, ContentOf, Geometry.Prealloc, Geometry.Slot, Next;
    var s := d.files[c.instance];
    AlwaysSound(g, d, ch, c.segment);
    SlotMapped(g, s, c.slot);
    BeforeEnd(g, s, c.slot);
    if c.slot < EndOf(g, s) {
      f := if HeaderAt(s.mem, c.slot).kind == USER then User else Service;
    } else {
      EndState(g, d, ch, c.segment);
      f := if Rolled(g, s) then Roll else NotYet;
    }
  }

  /** Where a chain stops: on a committed Roll, or at a slot not committed. */
  lemma EndState(g: Geometry, d: Disk, ch: History, k: nat)
    requires Inv(g, d, ch) && k < |ch|
    ensures g.Valid() && ch[k] in d.files && Sound(g, Seg(d, ch, k))
    ensures var s := Seg(d, ch, k); s.mem[EndOf(g, s)] == if Rolled(g, s) then 1 else 0
    ensures !Rolled(g, Seg(d, ch, k)) ==>
      Seg(d, ch, k).base + |ContentOf(g, Seg(d, ch, k))| == Genesis(d, ch) + |Log(g, d, ch)|
  {
    hide Inv, Members, Rolled, Leads, Open, Closing, Settled, Log, ContentOf, EndOf, Member, Done, Sound;
    AlwaysSound(g, d, ch, k);
    Facts(g, d, ch, k);
    if k + 1 == |ch| {
      OpenEnd(g, Seg(d, ch, k));
      HeadCounts(g, d, ch);
    } else if !Rolled(g, Seg(d, ch, k)) {
      StillClosing(g, d, ch, k);
    } else {
      RolledEnd(g, Seg(d, ch, k));
    }
  }

  lemma RolledEnd(g: Geometry, s: Segment)
    requires g.Valid() && Rolled(g, s)
    ensures s.mem[EndOf(g, s)] == 1
  {
    hide EndOf, RollAt, ContentOf, Sound;
  }

  /** A Roll not yet committed leads to an empty newest segment: its own segment still ends the log. */
  lemma StillClosing(g: Geometry, d: Disk, ch: History, k: nat)
    requires Inv(g, d, ch) && k + 1 < |ch| && ch[k] in d.files && !Rolled(g, Seg(d, ch, k))
    ensures EndOf(g, Seg(d, ch, k)) < |Seg(d, ch, k).mem| && Seg(d, ch, k).mem[EndOf(g, Seg(d, ch, k))] == 0
    ensures Seg(d, ch, k).base + |ContentOf(g, Seg(d, ch, k))| == Genesis(d, ch) + |Log(g, d, ch)|
  {
    hide Inv, Members, Rolled, Open, Log, ContentOf, EndOf, Member, RollBody, RollEdge.Encode, RollAt, Sound;
    Facts(g, d, ch, k);
    assert k + 2 == |ch|;
    HeadCounts(g, d, ch);
    SettledSays(g, Seg(d, ch, k));
  }

  /** At a slot not yet committed the reader has had the whole log. */
  lemma CaughtUp(g: Geometry, d: Disk, ch: History, c: Cursor)
    requires Inv(g, d, ch) && On(g, d, ch, c) && Finds(g, d, ch, c, NotYet)
    ensures c.position == Genesis(d, ch) + |Log(g, d, ch)|
  {
    hide Inv, Members, Rolled, Log, Linked, Records, Steppable;
    EndState(g, d, ch, c.segment);
  }

  /** The records before a slot, and the one at it, within the whole segment. */
  lemma RecordAtSlot(g: Geometry, s: Segment, slot: nat)
    requires g.Valid() && Linked(s.mem, g.region, 0, slot) && Steppable(s.mem, g.region, slot)
    ensures var n, k := Next(s.mem, slot), |Records(s.mem, g.region, 0, slot)|;
      && Linked(s.mem, g.region, 0, n) && n <= EndOf(g, s)
      && |Records(s.mem, g.region, 0, n)| == k + |Step(s.mem, g.region, slot)|
      && (HeaderAt(s.mem, slot).kind == USER ==> k < |ContentOf(g, s)| && ContentOf(g, s)[k] == RecordAt(s.mem, slot))
  {
    hide Steppable, Next, HeaderAt;
    var n := Next(s.mem, slot);
    assert Linked(s.mem, g.region, n, n) && Linked(s.mem, g.region, slot, n);
    Join(s.mem, g.region, 0, slot, n);
    assert Records(s.mem, g.region, slot, n) == Step(s.mem, g.region, slot);
    BeforeEnd(g, s, n);
    Split(s.mem, g.region, 0, n, EndOf(g, s));
  }

  /** A committed user record at the cursor is the log's record at its position. */
  lemma UserFound(g: Geometry, d: Disk, ch: History, c: Cursor)
    requires Inv(g, d, ch) && On(g, d, ch, c) && Finds(g, d, ch, c, User)
    ensures var m := d.files[c.instance].mem;
      && Genesis(d, ch) <= c.position < Genesis(d, ch) + |Log(g, d, ch)|
      && c.slot + HEADER_SLOT <= |m| && Next(m, c.slot) <= |m|
      && RecordAt(m, c.slot) == LogAt(g, d, ch, c.position)
      && On(g, d, ch, c.(slot := Next(m, c.slot), position := c.position + 1))
  {
    hide Inv, Members, Log, Linked, Records, ContentOf, HeaderAt, Next, LogAt;
    var s := d.files[c.instance];
    RecordAtSlot(g, s, c.slot);
    RecordInLog(g, d, ch, c.segment, |Records(s.mem, g.region, 0, c.slot)|);
  }

  lemma ServiceFound(g: Geometry, d: Disk, ch: History, c: Cursor)
    requires g.Valid() && On(g, d, ch, c) && Finds(g, d, ch, c, Service)
    ensures On(g, d, ch, c.(slot := Next(d.files[c.instance].mem, c.slot)))
  {
    hide Linked, Records, ContentOf, HeaderAt, Next;
    RecordAtSlot(g, d.files[c.instance], c.slot);
  }

  /** A record of the chain lies before the bytes a writer may still touch. */
  lemma RecordInside(g: Geometry, s: Segment, p: nat)
    requires g.Valid() && Linked(s.mem, g.region, 0, p) && Steppable(s.mem, g.region, p)
    ensures Next(s.mem, p) <= EndOf(g, s) && Linked(s.mem, g.region, Next(s.mem, p), EndOf(g, s))
    ensures Next(s.mem, p) <= Frozen(g, s)
  {
    hide Steppable, Next, Step;
    var e := EndOf(g, s);
    if e < p { Split(s.mem, g.region, 0, e, p); assert false; }
    Split(s.mem, g.region, 0, p, e);
    Reaches(s.mem, g.region, Next(s.mem, p), e);
  }

  /** Committed bytes are frozen: a record once on the chain of a segment stands there, byte for byte, ever after. */
  lemma RecordFrozen(g: Geometry, s: Segment, t: Segment, p: nat)
    requires g.Valid() && Evolves(g, s, t)
    requires Linked(s.mem, g.region, 0, p) && Steppable(s.mem, g.region, p)
    ensures var n := Next(s.mem, p);
      && n <= |s.mem| <= |t.mem| && t.mem[p..n] == s.mem[p..n]
      && Linked(t.mem, g.region, 0, p) && Steppable(t.mem, g.region, p) && Next(t.mem, p) == n
      && Step(t.mem, g.region, p) == Step(s.mem, g.region, p)
      && |Records(t.mem, g.region, 0, p)| == |Records(s.mem, g.region, 0, p)|
  {
    hide Steppable, Next, Step, EndOf, Rolled, Frozen, Records;
    RecordInside(g, s, p);
    var f, n := Frozen(g, s), Next(s.mem, p);
    assert p <= n;
    assert t.mem[..n] == t.mem[..f][..n] == s.mem[..n];
    assert t.mem[p..n] == t.mem[..n][p..] == s.mem[p..n];
    SameStep(s.mem, t.mem, g.region, p, n);
    assert t.mem[..p] == t.mem[..n][..p] == s.mem[..n][..p] == s.mem[..p];
    SameChain(s.mem, t.mem, g.region, 0, p);
  }

  // ---------- following a Roll ----------

  /** What `open_successor` makes of the file it opens for a committed Roll. */
  datatype Following = Follows | BadRoll | WrongSequence | OtherFile | Unpublished | Discontinuous | OtherGeneration

  function Follow(s: Segment, edge: Result<RollEdge>, t: Segment, sequence: nat, instance: InstanceId,
      generation: nat): Following {
    if edge.Err? then BadRoll
    else if sequence >= U64_MAX || edge.value.nextSequence != sequence + 1 then WrongSequence
    else if !edge.value.Names(sequence, instance, t.identity) || t.sequence != sequence + 1 then OtherFile
    else if !t.published then Unpublished
    else if s.base + s.messageCount > U64_MAX then Discontinuous
    else if t.base != s.base + s.messageCount || t.base != edge.value.nextBase then Discontinuous
    else if t.generation != generation then OtherGeneration
    else Follows
  }

  /** A committed Roll leads on, and the file it leads to is never refused. */
  lemma RollLeads(g: Geometry, d: Disk, ch: History, c: Cursor)
    requires Inv(g, d, ch) && On(g, d, ch, c) && Finds(g, d, ch, c, Roll)
    ensures c.segment + 1 < |ch| && ch[c.segment + 1] in d.files && c.slot + ROLL_TOTAL <= |d.files[c.instance].mem|
    ensures var s, t := d.files[c.instance], Seg(d, ch, c.segment + 1);
      && Follow(s, Decode(RollBody(s.mem, c.slot)), t, c.segment, c.instance, s.generation) == Follows
      && On(g, d, ch, Cursor(c.segment + 1, ch[c.segment + 1], 0, c.position)) && t.base == c.position
    ensures c.segment + 1 in d.names ==> d.names[c.segment + 1] == ch[c.segment + 1]
  {
    hide Inv, Members, Leads, Open, Closing, Done, Settled, ContentOf, EndOf, Follow, Finds, Log, Linked, Records;
    RolledOlder(g, d, ch, c);
    var k := c.segment;
    FollowedNext(g, d, ch, k);
    if k + 1 in d.names { NamedNext(g, d, ch, k + 1); }
  }

  lemma RolledOlder(g: Geometry, d: Disk, ch: History, c: Cursor)
    requires Inv(g, d, ch) && On(g, d, ch, c) && Finds(g, d, ch, c, Roll)
    ensures c.segment + 1 < |ch| && c.slot == EndOf(g, d.files[c.instance]) && Rolled(g, d.files[c.instance])
    ensures c.position == d.files[c.instance].base + |ContentOf(g, d.files[c.instance])|
  {
    hide Inv, Members, EndOf, Rolled, Linked, Records;
    RolledNotNewest(g, d, ch, c.segment);
    EndPosition(g, d.files[c.instance], c.slot, c.position);
  }

  lemma EndPosition(g: Geometry, s: Segment, slot: nat, position: nat)
    requires g.Valid() && OnChain(g, s, slot, position) && slot == EndOf(g, s)
    ensures position == s.base + |ContentOf(g, s)|
  {
    hide Linked, Records, End;
  }

  lemma RolledNotNewest(g: Geometry, d: Disk, ch: History, k: nat)
    requires Inv(g, d, ch) && k < |ch| && ch[k] in d.files && Rolled(g, Seg(d, ch, k))
    ensures k + 1 < |ch|
  {
    hide Inv, Members, Leads, Closing, Done, Settled, EndOf, Rolled, Open, ContentOf, Member;
    Facts(g, d, ch, k);
    if k + 1 == |ch| { OpenEnd(g, Seg(d, ch, k)); }
  }

  lemma NamedNext(g: Geometry, d: Disk, ch: History, k: nat)
    requires Inv(g, d, ch) && k < |ch| && k in d.names
    ensures d.names[k] == ch[k]
  {
    hide Members, Links, Open, Published, Traceable, Spare, Sole;
  }

  lemma FollowedNext(g: Geometry, d: Disk, ch: History, k: nat)
    requires Inv(g, d, ch) && k + 1 < |ch| && ch[k] in d.files && Rolled(g, Seg(d, ch, k))
    ensures ch[k + 1] in d.files
    ensures var s, t := Seg(d, ch, k), Seg(d, ch, k + 1);
      && EndOf(g, s) + ROLL_TOTAL <= |s.mem|
      && Follow(s, Decode(RollBody(s.mem, EndOf(g, s))), t, k, ch[k], s.generation) == Follows
      && t.base == s.base + |ContentOf(g, s)|
      && On(g, d, ch, Cursor(k + 1, ch[k + 1], 0, t.base))
  {
    hide Inv, Members, Leads, Open, Closing, Done, Settled, ContentOf, EndOf, Follow, Rolled, Member;
    Facts(g, d, ch, k);
    Facts(g, d, ch, k + 1);
    Relatives(g, d, ch, k);
    LeadFollowed(g, Seg(d, ch, k), Seg(d, ch, k + 1), k, ch[k]);
    Beginning(g, d, ch, k + 1);
  }

  lemma Beginning(g: Geometry, d: Disk, ch: History, k: nat)
    requires g.Valid() && k < |ch| && ch[k] in d.files
    ensures On(g, d, ch, Cursor(k, ch[k], 0, Seg(d, ch, k).base))
  {
  }

  lemma LeadFollowed(g: Geometry, s: Segment, t: Segment, k: nat, instance: InstanceId)
    requires g.Valid() && Leads(g, s, t) && Rolled(g, s) && k < U64_MAX && t.sequence == k + 1 && t.published
    requires t.identity.instance != NONE && t.identity.predecessor == instance && t.identity.predecessorSequence == k
    requires t.generation == s.generation
    ensures EndOf(g, s) + ROLL_TOTAL <= |s.mem| && t.base == s.base + |ContentOf(g, s)|
    ensures Follow(s, Decode(RollBody(s.mem, EndOf(g, s))), t, k, instance, s.generation) == Follows
  {
    hide EndOf, ContentOf, RollBody, RollEdge.Encode, Decode, RollAt;
    DecodeOfEncode(RollEdge(t.sequence, t.identity.instance, t.base));
  }

  /** What a reader found committed stays committed. */
  lemma StaysCommitted(g: Geometry, d: Disk, ch: History, e: Disk, dh: History, c: Cursor, f: Found)
    requires Inv(g, d, ch) && Inv(g, e, dh) && Advances(g, d, ch, e, dh) && On(g, d, ch, c) && On(g, e, dh, c)
    requires Finds(g, d, ch, c, f) && f != NotYet
    ensures !Finds(g, e, dh, c, NotYet)
  {
    hide Inv, Members, Rolled, Linked, Records, Steppable, ContentOf;
    assert Evolves(g, d.files[c.instance], e.files[c.instance]) by { var _ := ch[c.segment]; }
    BeforeEnd(g, d.files[c.instance], c.slot);
  }

  /**
   * The step over a record, as a reader computes it from the header, and where it leads within the segment's
   * regions.
   */
  lemma StepTo(g: Geometry, m: seq<byte>, p: nat)
    requires g.Valid() && Steppable(m, g.region, p)
    ensures AlignUp(p + HEADER_SLOT + HeaderAt(m, p).length) == Next(m, p)
    ensures HEADER_SLOT + HeaderAt(m, p).length <= g.region - p % g.region
    ensures HeaderAt(m, p).kind == CHANNEL ==> p == 0 < Next(m, p)
    ensures HeaderAt(m, p).kind == SKIP ==> Next(m, p) % g.region == 0
    ensures HeaderAt(m, p).kind != SKIP ==> Next(m, p) % g.region != 0 && Next(m, p) / g.region == p / g.region
  {
    hide HeaderAt;
    NextSlot(g, m, p);
    if HeaderAt(m, p).kind != SKIP { SameRegion(p, Next(m, p), g.region); }
  }

  lemma SameRegion(a: nat, b: nat, r: nat)
    requires r > 0 && a < b && b % r == a % r + (b - a)
    ensures b % r != 0 && b / r == a / r
  {
    ModStep(a, b - a, r);
  }

  // ---------- where a reader may stop ----------

  /** Reading on from `a` comes to `b`: every segment in between has ended on its Roll. */
  ghost predicate Reached(g: Geometry, d: Disk, ch: History, a: Cursor, b: Cursor)
    requires g.Valid()
    ensures Reached(g, d, ch, a, b) ==> On(g, d, ch, a) && On(g, d, ch, b)
  {
    && On(g, d, ch, a) && On(g, d, ch, b) && a.segment <= b.segment
    && (a.segment == b.segment ==> a.slot <= b.slot)
    && forall k :: a.segment <= k < b.segment ==> Passed(g, d, ch, k)
  }

  ghost predicate Passed(g: Geometry, d: Disk, ch: History, k: nat)
    requires g.Valid()
  {
    k < |ch| && ch[k] in d.files && Rolled(g, d.files[ch[k]])
  }

  lemma ReachedStays(g: Geometry, d: Disk, ch: History, e: Disk, dh: History, a: Cursor, b: Cursor)
    requires g.Valid() && Advances(g, d, ch, e, dh) && Reached(g, d, ch, a, b)
    ensures Reached(g, e, dh, a, b)
  {
    hide On, Rolled, Frozen, EndOf;
    OnStays(g, d, ch, e, dh, a);
    OnStays(g, d, ch, e, dh, b);
    forall k | a.segment <= k < b.segment
      ensures Passed(g, e, dh, k)
    {
      assert Passed(g, d, ch, k);
      assert dh[k] == dh[..|ch|][k] == ch[k];
    }
  }

  /** One record further in the same segment, or over a Roll into the next. */
  lemma ReachedOn(g: Geometry, d: Disk, ch: History, a: Cursor, b: Cursor, c: Cursor)
    requires g.Valid() && Reached(g, d, ch, a, b) && On(g, d, ch, c)
    requires (c.segment == b.segment && b.slot <= c.slot) || (c.segment == b.segment + 1 && Finds(g, d, ch, b, Roll))
    ensures Reached(g, d, ch, a, c)
  {
    hide OnChain, Rolled;
    if c.segment == b.segment + 1 {
      forall k | a.segment <= k < c.segment
        ensures Passed(g, d, ch, k)
      {
        if k < b.segment { assert Passed(g, d, ch, k); }
      }
    }
  }

  lemma ReachedFurther(g: Geometry, d: Disk, ch: History, a: Cursor, b: Cursor, c: Cursor)
    requires g.Valid() && Reached(g, d, ch, a, b) && Reached(g, d, ch, b, c)
    ensures Reached(g, d, ch, a, c)
  {
    hide On, Passed;
  }

  lemma ReachedSelf(g: Geometry, d: Disk, ch: History, a: Cursor)
    requires g.Valid() && On(g, d, ch, a)
    ensures Reached(g, d, ch, a, a)
  {
    hide On, Passed;
  }

  /** The cursor stands right behind a user record. */
  ghost predicate JustAfter(g: Geometry, d: Disk, ch: History, c: Cursor)
    requires g.Valid() && On(g, d, ch, c)
  {
    exists p: nat :: UserEnds(g, d.files[c.instance].mem, p, c.slot)
  }

  predicate UserEnds(g: Geometry, m: seq<byte>, p: nat, slot: nat)
    requires g.Valid()
  {
    Linked(m, g.region, 0, p) && Steppable(m, g.region, p) && HeaderAt(m, p).kind == USER && Next(m, p) == slot
  }

  /** Within one segment, as many records before two slots right behind user records make them one slot. */
  lemma SameSlot(g: Geometry, s: Segment, p: nat, q: nat)
    requires g.Valid() && UserEnds(g, s.mem, p, Next(s.mem, p)) && UserEnds(g, s.mem, q, Next(s.mem, q))
    requires Linked(s.mem, g.region, 0, Next(s.mem, p)) && Linked(s.mem, g.region, 0, Next(s.mem, q))
    requires |Records(s.mem, g.region, 0, Next(s.mem, p))| == |Records(s.mem, g.region, 0, Next(s.mem, q))|
    ensures p == q
  {
    hide Steppable, Next, HeaderAt, Linked, Records;
    RecordAtSlot(g, s, p);
    RecordAtSlot(g, s, q);
    if p < q { Ordered(g, s, p, q); }
    if q < p { Ordered(g, s, q, p); }
  }

  lemma Ordered(g: Geometry, s: Segment, p: nat, q: nat)
    requires g.Valid() && p < q && UserEnds(g, s.mem, p, Next(s.mem, p)) && Linked(s.mem, g.region, 0, q)
    ensures |Records(s.mem, g.region, 0, p)| < |Records(s.mem, g.region, 0, q)|
  {
    hide Steppable, HeaderAt;
    RecordAtSlot(g, s, p);
    Split(s.mem, g.region, 0, p, q);
    assert Linked(s.mem, g.region, Next(s.mem, p), q);
  }

  /**
   * A cursor right behind a user record has a position past its segment's base; every cursor's is at most
   * where its segment ends.
   */
  lemma PositionRange(g: Geometry, d: Disk, ch: History, c: Cursor)
    requires g.Valid() && On(g, d, ch, c)
    ensures var s := d.files[c.instance];
      && s.base <= c.position <= s.base + |ContentOf(g, s)|
      && (JustAfter(g, d, ch, c) ==> s.base < c.position)
  {
    hide Steppable, Next, HeaderAt, Linked, Records, ContentOf;
    var s := d.files[c.instance];
    BeforeEnd(g, s, c.slot);
    if JustAfter(g, d, ch, c) {
      var p: nat :| UserEnds(g, s.mem, p, c.slot);
      RecordAtSlot(g, s, p);
      StepIsOne(s.mem, g.region, p);
    }
  }

  lemma StepIsOne(m: seq<byte>, r: nat, p: nat)
    requires r > 0 && Steppable(m, r, p) && HeaderAt(m, p).kind == USER
    ensures |Step(m, r, p)| == 1
  {
    hide HeaderAt;
  }

  /** An earlier segment ends no later than a later one starts. */
  lemma BasesGrow(g: Geometry, d: Disk, ch: History, k: nat, n: nat)
    requires Inv(g, d, ch) && k < n < |ch|
    ensures Seg(d, ch, k).base + |ContentOf(g, Seg(d, ch, k))| <= Seg(d, ch, n).base
  {
    hide Inv, Members, ContentOf;
    BaseCounts(g, d, ch, k);
    BaseCounts(g, d, ch, n);
    InLog(g, d, ch, k, n);
  }

  /** Two ways of reading that have each just consumed the same record stand at one and the same place. */
  lemma SameStop(g: Geometry, d: Disk, ch: History, b: Cursor, c: Cursor)
    requires Inv(g, d, ch) && On(g, d, ch, b) && On(g, d, ch, c) && b.position == c.position
    requires JustAfter(g, d, ch, b) && JustAfter(g, d, ch, c)
    ensures b == c
  {
    hide Inv, Members, ContentOf, OnChain, UserEnds;
    PositionRange(g, d, ch, b);
    PositionRange(g, d, ch, c);
    if b.segment < c.segment { BasesGrow(g, d, ch, b.segment, c.segment); }
    if c.segment < b.segment { BasesGrow(g, d, ch, c.segment, b.segment); }
    SameSlots(g, d.files[b.instance], b.slot, c.slot, b.position);
  }

  lemma SameSlots(g: Geometry, s: Segment, b: nat, c: nat, position: nat)
    requires g.Valid() && OnChain(g, s, b, position) && OnChain(g, s, c, position)
    requires exists p: nat :: UserEnds(g, s.mem, p, b)
    requires exists p: nat :: UserEnds(g, s.mem, p, c)
    ensures b == c
  {
    hide Linked, Records, Steppable, HeaderAt, Next;
    var p: nat :| UserEnds(g, s.mem, p, b);
    var q: nat :| UserEnds(g, s.mem, q, c);
    SameSlot(g, s, p, q);
  }

  /**
   * Two ways of reading on from one place that have each come to a slot not yet committed stand at one and
   * the same slot.
   */
  lemma SameWait(g: Geometry, d: Disk, ch: History, a: Cursor, b: Cursor, c: Cursor)
    requires g.Valid() && Reached(g, d, ch, a, b) && Reached(g, d, ch, a, c)
    requires Finds(g, d, ch, b, NotYet) && Finds(g, d, ch, c, NotYet)
    ensures b == c
  {
    hide Rolled, EndOf, Linked, Records;
    assert b.segment < c.segment ==> Passed(g, d, ch, b.segment);
    assert c.segment < b.segment ==> Passed(g, d, ch, c.segment);
  }

  lemma ConsumedAfter(g: Geometry, d: Disk, ch: History, c: Cursor, n: Cursor)
    requires g.Valid() && On(g, d, ch, c) && Finds(g, d, ch, c, User) && On(g, d, ch, n)
    requires n.segment == c.segment && n.instance == c.instance && n.slot == Next(d.files[c.instance].mem, c.slot)
    ensures JustAfter(g, d, ch, n) && Reached(g, d, ch, c, n)
  {
    hide HeaderAt, Linked, Records, Steppable, Next;
    assert Linked(d.files[c.instance].mem, g.region, 0, c.slot);
    RecordAtSlot(g, d.files[c.instance], c.slot);
    BeforeEnd(g, d.files[c.instance], c.slot);
    assert UserEnds(g, d.files[c.instance].mem, c.slot, n.slot);
    StepForward(d.files[c.instance].mem, g.region, c.slot);
  }

  lemma StepForward(m: seq<byte>, r: nat, p: nat)
    requires r > 0 && Steppable(m, r, p)
    ensures p <= Next(m, p)
  {
    hide HeaderAt;
  }

  /** However two readers came to one index, by seeking or by reading, they find the same record there. */
  lemma SameRecord(g: Geometry, d: Disk, ch: History, b: Cursor, c: Cursor)
    requires Inv(g, d, ch) && On(g, d, ch, b) && On(g, d, ch, c) && b.position == c.position
    requires Finds(g, d, ch, b, User) && Finds(g, d, ch, c, User)
    ensures b == c
  {
    hide Inv, Members, Finds, On, JustAfter, Reached;
    UserFound(g, d, ch, b);
    UserFound(g, d, ch, c);
    var m, n := b.(slot := Next(d.files[b.instance].mem, b.slot), position := b.position + 1),
      c.(slot := Next(d.files[c.instance].mem, c.slot), position := c.position + 1);
    ConsumedAfter(g, d, ch, b, m);
    ConsumedAfter(g, d, ch, c, n);
    SameStop(g, d, ch, m, n);
    SameBefore(g, d, ch, b, c);
  }

  /** Two user records that end at one slot are one. */
  lemma SameBefore(g: Geometry, d: Disk, ch: History, b: Cursor, c: Cursor)
    requires g.Valid() && On(g, d, ch, b) && On(g, d, ch, c) && Finds(g, d, ch, b, User) && Finds(g, d, ch, c, User)
    requires b.instance == c.instance && Next(d.files[b.instance].mem, b.slot) == Next(d.files[b.instance].mem, c.slot)
    ensures b.slot == c.slot
  {
    hide HeaderAt, Records, Steppable, Next, Linked;
    var s := d.files[b.instance];
    RecordAtSlot(g, s, b.slot);
    RecordAtSlot(g, s, c.slot);
    SameSlot(g, s, b.slot, c.slot);
  }
}
