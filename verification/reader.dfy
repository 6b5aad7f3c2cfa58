/**
 * A reader of a channel that others keep changing under it: every load may be followed by any number
 * of stores by writers, their helpers and recoveries.
 */
module Readers {
  import opened Bytes
  import opened Layout
  import opened Chain
  import opened Linking
  import opened Segments
  import opened Channel
  import opened Histories
  import opened SharedFiles
  import opened Reading

  /** A region of a file, mapped. */
  datatype Mapping = Mapping(sequence: nat, instance: InstanceId, region: nat)

  datatype Scan = Got(record: Record) | Nothing | Failed

  /** How a batch ended: with records, with none to be had yet, or with an error and nothing consumed. */
  datatype Batch = Full | Empty | Error

  /** A run of records in the region that mapping number `mapping` is of, by offsets in it. */
  datatype BatchSeg = BatchSeg(mapping: nat, start: nat, end: nat)

  /** A record of a batch: its run, and its header's offset in the region. */
  datatype MsgPos = MsgPos(seg: nat, off: nat)

  /** How the scan of one region ended. */
  datatype SegmentEnd = Waiting | Filled | RegionEnd | RolledOn | Parked | Failed

  /** What others do meanwhile: anything that keeps the channel's invariant and only advances it. */
  method Others(files: ChannelFiles)
    requires files.Valid()
    modifies files
    ensures files.Valid() && old(files.past) <= files.past
    ensures Advances(files.g, old(files.disk), old(files.chain), files.disk, files.chain)
    ensures files.Since(old(files.rest), old(files.disk), old(files.chain))
  {
    hide Inv, Advances;
    AdvancesReflexive(files.g, files.disk, files.chain);
  }

  /** What stays, of a cursor and of the log before it, whatever others do. */
  lemma LogAtStays(g: Geometry, d: Disk, ch: History, e: Disk, dh: History, i: nat)
    requires Inv(g, d, ch) && Inv(g, e, dh) && Advances(g, d, ch, e, dh)
    requires Genesis(d, ch) <= i < Genesis(d, ch) + |Log(g, d, ch)|
    ensures Genesis(e, dh) == Genesis(d, ch) && i < Genesis(e, dh) + |Log(g, e, dh)|
    ensures LogAt(g, e, dh, i) == LogAt(g, d, ch, i)
  {
    hide Inv, Members, Log, Advances;
    LogGrows(g, d, ch, e, dh);
    var a, b := Log(g, d, ch), Log(g, e, dh);
    assert a == b[..|a|];
  }

  /** `r` is the log's record with absolute index `i`. */
  ghost predicate Holds(g: Geometry, d: Disk, ch: History, i: nat, r: Record)
    requires Inv(g, d, ch)
  {
    Genesis(d, ch) <= i < Genesis(d, ch) + |Log(g, d, ch)| && r == LogAt(g, d, ch, i)
  }

  ghost predicate Delivers(files: ChannelFiles, i: nat, r: Record)
    requires files.Valid()
    reads files
  {
    Holds(files.g, files.disk, files.chain, i, r)
  }

  /** Records delivered one after another, the first with index `from`. */
  ghost predicate DeliversAll(files: ChannelFiles, from: nat, out: seq<Record>)
    requires files.Valid()
    reads files
  {
    forall j :: 0 <= j < |out| ==> Holds(files.g, files.disk, files.chain, from + j, out[j])
  }

  /** Whatever has been recorded since, the channel has only advanced. */
  lemma AdvancedSince(files: ChannelFiles, past: seq<Moment>)
    requires files.Valid() && past != [] && past <= files.past
    ensures var m := past[|past| - 1];
      Inv(files.g, m.disk, m.chain) && Advances(files.g, m.disk, m.chain, files.disk, files.chain)
  {
    hide Inv, Advances;
    assert past[|past| - 1] == files.past[|past| - 1];
  }

  /** What was delivered stays in the log, at its index. */
  lemma HeldSince(files: ChannelFiles, past: seq<Moment>, from: nat, out: seq<Record>)
    requires files.Valid() && past != [] && past <= files.past
    requires Inv(files.g, past[|past| - 1].disk, past[|past| - 1].chain)
    requires forall j ::
      0 <= j < |out| ==> Holds(files.g, past[|past| - 1].disk, past[|past| - 1].chain, from + j, out[j])
    ensures DeliversAll(files, from, out)
  {
    hide Inv, Advances, ChannelFiles.Valid, LogAt, Log;
    AdvancedSince(files, past);
    var m := past[|past| - 1];
    forall j | 0 <= j < |out|
      ensures Holds(files.g, files.disk, files.chain, from + j, out[j])
    {
      assert Holds(files.g, m.disk, m.chain, from + j, out[j]);
      LogAtStays(files.g, m.disk, m.chain, files.disk, files.chain, from + j);
    }
  }

  /** File `i` passes every check a reader at the Roll under `c` makes of it, and goes on where that segment ends. */
  ghost predicate Accepted(g: Geometry, d: Disk, ch: History, c: Cursor, i: InstanceId, generation: nat)
    requires g.Valid()
  {
    && i in d.files && c.instance in d.files && c.slot + ROLL_TOTAL <= |d.files[c.instance].mem|
    && Follow(d.files[c.instance], Decode(RollBody(d.files[c.instance].mem, c.slot)), d.files[i], c.segment,
        c.instance, generation) == Follows
    && d.files[i].base == c.position && d.files[i].generation == generation
    && On(g, d, ch, Cursor(c.segment + 1, i, 0, c.position))
  }

  /** A file that the committed Roll names is the one it leads to, however it was come by. */
  lemma NamedAccepted(g: Geometry, d: Disk, ch: History, c: Cursor, i: InstanceId)
    requires Inv(g, d, ch) && On(g, d, ch, c) && Finds(g, d, ch, c, Found.Roll) && i in d.files
    requires c.slot + ROLL_TOTAL <= |d.files[c.instance].mem|
    requires
      || (c.segment + 1 in d.names && d.names[c.segment + 1] == i)
      || (var edge := Decode(RollBody(d.files[c.instance].mem, c.slot));
          edge.Ok? && c.segment <= U64_MAX && edge.value.Names(c.segment, c.instance, d.files[i].identity))
    ensures Accepted(g, d, ch, c, i, d.files[c.instance].generation)
  {
    hide Inv, Members, On, Decode, RollBody, Finds;
    RollLeads(g, d, ch, c);
    BearsOwn(g, d, ch, i);
    BearsOwn(g, d, ch, ch[c.segment + 1]);
  }

  lemma BearsOwn(g: Geometry, d: Disk, ch: History, i: InstanceId)
    requires Inv(g, d, ch) && i in d.files
    ensures d.files[i].identity.instance == i
  {
    hide Links, Open, Published, Members, Named, Traceable;
  }

  // ---------- where a batch's records are ----------

  /** The slot at an offset in a mapped region. */
  function CursorOf(g: Geometry, m: Mapping, off: nat, position: nat): Cursor {
    Cursor(m.sequence, m.instance, m.region * g.region + off, position)
  }

  /** A committed user record stands at the cursor. */
  ghost predicate Marks(g: Geometry, d: Disk, ch: History, c: Cursor)
    requires g.Valid()
    ensures Marks(g, d, ch, c) ==> On(g, d, ch, c) && Finds(g, d, ch, c, User)
  {
    On(g, d, ch, c) && Finds(g, d, ch, c, User)
  }

  /** The place `p` is inside its run, and inside its region; the last run goes up to `closing`. */
  predicate Inside(g: Geometry, maps: seq<Mapping>, segs: seq<BatchSeg>, closing: nat, p: MsgPos)
    ensures Inside(g, maps, segs, closing, p) ==> p.seg < |segs| && segs[p.seg].mapping < |maps|
  {
    && p.seg < |segs| && segs[p.seg].mapping < |maps| && p.off + HEADER_SLOT <= g.region
    && segs[p.seg].start <= p.off < (if p.seg == |segs| - 1 then closing else segs[p.seg].end)
  }

  /** The place `p` is that of the record with index `position`. */
  ghost predicate Resolves(g: Geometry, d: Disk, ch: History, maps: seq<Mapping>, segs: seq<BatchSeg>, closing: nat,
      p: MsgPos, position: nat)
    requires g.Valid()
  {
    && Inside(g, maps, segs, closing, p)
    && Marks(g, d, ch, CursorOf(g, maps[segs[p.seg].mapping], p.off, position))
  }

  /** The places `pos` are those of the records from index `from` on. */
  ghost predicate AllResolve(g: Geometry, d: Disk, ch: History, maps: seq<Mapping>, segs: seq<BatchSeg>, closing: nat,
      pos: seq<MsgPos>, from: nat)
    requires g.Valid()
  {
    forall j :: 0 <= j < |pos| ==> Resolves(g, d, ch, maps, segs, closing, pos[j], from + j)
  }

  /** A committed user record stays, whatever others do. */
  lemma MarksStays(g: Geometry, d: Disk, ch: History, e: Disk, dh: History, c: Cursor)
    requires g.Valid() && Advances(g, d, ch, e, dh) && Marks(g, d, ch, c)
    ensures Marks(g, e, dh, c)
  {
    hide Steppable, Step, Next, HeaderAt, Linked, Records, Rolled, EndOf, Frozen;
    OnStays(g, d, ch, e, dh, c);
    assert Evolves(g, d.files[c.instance], e.files[c.instance]) by { var _ := ch[c.segment]; }
    RecordFrozen(g, d.files[c.instance], e.files[c.instance], c.slot);
    UserBoth(g, d.files[c.instance].mem, e.files[c.instance].mem, c.slot);
  }

  lemma UserBoth(g: Geometry, m: seq<byte>, n: seq<byte>, p: nat)
    requires g.Valid() && Steppable(m, g.region, p) && Steppable(n, g.region, p)
    requires Step(n, g.region, p) == Step(m, g.region, p)
    requires HeaderAt(m, p).kind == USER
    ensures HeaderAt(n, p).kind == USER
  {
    hide HeaderAt;
  }

  lemma AllStay(g: Geometry, d: Disk, ch: History, e: Disk, dh: History, maps: seq<Mapping>, segs: seq<BatchSeg>,
      closing: nat, pos: seq<MsgPos>, from: nat)
    requires g.Valid() && Advances(g, d, ch, e, dh) && AllResolve(g, d, ch, maps, segs, closing, pos, from)
    ensures AllResolve(g, e, dh, maps, segs, closing, pos, from)
  {
    hide Marks, Advances, Inside;
    forall j | 0 <= j < |pos|
      ensures Resolves(g, e, dh, maps, segs, closing, pos[j], from + j)
    {
      assert Resolves(g, d, ch, maps, segs, closing, pos[j], from + j);
      MarksStays(g, d, ch, e, dh, CursorOf(g, maps[segs[pos[j].seg].mapping], pos[j].off, from + j));
    }
  }

  /** A run that goes on, takes a record, and ends; a new run, in a region mapped meanwhile. */
  lemma RunGoesOn(g: Geometry, d: Disk, ch: History, maps: seq<Mapping>, segs: seq<BatchSeg>, closing: nat, next: nat,
      pos: seq<MsgPos>, from: nat)
    requires g.Valid() && AllResolve(g, d, ch, maps, segs, closing, pos, from) && closing <= next
    ensures AllResolve(g, d, ch, maps, segs, next, pos, from)
  {
    hide Marks;
    forall j | 0 <= j < |pos|
      ensures Resolves(g, d, ch, maps, segs, next, pos[j], from + j)
    {
      assert Resolves(g, d, ch, maps, segs, closing, pos[j], from + j);
    }
  }

  lemma RunTakes(g: Geometry, d: Disk, ch: History, maps: seq<Mapping>, segs: seq<BatchSeg>, off: nat, next: nat,
      pos: seq<MsgPos>, from: nat)
    requires g.Valid() && AllResolve(g, d, ch, maps, segs, off, pos, from) && off < next
    requires segs != [] && Resolves(g, d, ch, maps, segs, next, MsgPos(|segs| - 1, off), from + |pos|)
    ensures AllResolve(g, d, ch, maps, segs, next, pos + [MsgPos(|segs| - 1, off)], from)
  {
    hide Resolves;
    RunGoesOn(g, d, ch, maps, segs, off, next, pos, from);
  }

  lemma RunEnds(g: Geometry, d: Disk, ch: History, maps: seq<Mapping>, segs: seq<BatchSeg>, closing: nat,
      pos: seq<MsgPos>, from: nat)
    requires g.Valid() && AllResolve(g, d, ch, maps, segs, closing, pos, from) && segs != []
    ensures var last := |segs| - 1;
      AllResolve(g, d, ch, maps, segs[last := segs[last].(end := closing)], closing, pos, from)
  {
    hide Marks;
    var last := |segs| - 1;
    var ended := segs[last := segs[last].(end := closing)];
    forall j | 0 <= j < |pos|
      ensures Resolves(g, d, ch, maps, ended, closing, pos[j], from + j)
    {
      assert Resolves(g, d, ch, maps, segs, closing, pos[j], from + j);
    }
  }

  lemma NewRun(g: Geometry, d: Disk, ch: History, maps: seq<Mapping>, more: seq<Mapping>, segs: seq<BatchSeg>,
      run: BatchSeg, pos: seq<MsgPos>, from: nat)
    requires g.Valid() && maps <= more && AllResolve(g, d, ch, maps, segs, LastEnd(segs), pos, from)
    ensures AllResolve(g, d, ch, more, segs + [run], run.end, pos, from)
  {
    hide Marks;
    forall j | 0 <= j < |pos|
      ensures Resolves(g, d, ch, more, segs + [run], run.end, pos[j], from + j)
    {
      assert Resolves(g, d, ch, maps, segs, LastEnd(segs), pos[j], from + j);
    }
  }

  lemma MoreMaps(g: Geometry, d: Disk, ch: History, maps: seq<Mapping>, more: seq<Mapping>, segs: seq<BatchSeg>,
      closing: nat, pos: seq<MsgPos>, from: nat)
    requires g.Valid() && maps <= more && AllResolve(g, d, ch, maps, segs, closing, pos, from)
    ensures AllResolve(g, d, ch, more, segs, closing, pos, from)
  {
    hide Marks;
    forall j | 0 <= j < |pos|
      ensures Resolves(g, d, ch, more, segs, closing, pos[j], from + j)
    {
      assert Resolves(g, d, ch, maps, segs, closing, pos[j], from + j);
    }
  }

  lemma NoneResolve(g: Geometry, d: Disk, ch: History, maps: seq<Mapping>, segs: seq<BatchSeg>, closing: nat, from: nat)
    requires g.Valid()
    ensures AllResolve(g, d, ch, maps, segs, closing, [], from)
  {
  }

  function LastEnd(segs: seq<BatchSeg>): nat {
    if segs == [] then 0 else segs[|segs| - 1].end
  }

  // ---------- one step of a cursor ----------

  /** The cursor behind the record at `c`, as a reader computes it from the header. */
  function Behind(c: Cursor, h: Header): Cursor {
    c.(slot := AlignUp(c.slot + HEADER_SLOT + h.length),
       position := if h.kind == USER then c.position + 1 else c.position)
  }

  /** Behind a user record: in the same region still, for a Roll has room there. */
  lemma BehindUser(g: Geometry, d: Disk, ch: History, c: Cursor)
    requires Inv(g, d, ch) && On(g, d, ch, c) && Finds(g, d, ch, c, User)
    ensures g.Valid() && c.slot + HEADER_SLOT <= |d.files[c.instance].mem|
    ensures var h := HeaderAt(d.files[c.instance].mem, c.slot); var n := Behind(c, h);
      && h.kind == USER && c.slot % g.region + HEADER_SLOT + h.length <= g.region
      && On(g, d, ch, n) && JustAfter(g, d, ch, n) && Reached(g, d, ch, c, n)
      && n.slot % g.region == c.slot % g.region + (n.slot - c.slot) && n.slot > c.slot
      && n.slot % g.region != 0 && n.slot / g.region == c.slot / g.region
  {
    hide Inv, Members, On, HeaderAt, Next, Steppable, LogAt, Linked, Records, JustAfter, Reached;
    var m := d.files[c.instance].mem;
    StepTo(g, m, c.slot);
    NextSlot(g, m, c.slot);
    UserFound(g, d, ch, c);
    ConsumedAfter(g, d, ch, c, c.(slot := Next(m, c.slot), position := c.position + 1));
  }

  /** Behind a Channel record: in the same region. Behind a Skip: at the start of the next. */
  lemma BehindService(g: Geometry, d: Disk, ch: History, c: Cursor)
    requires Inv(g, d, ch) && On(g, d, ch, c) && Finds(g, d, ch, c, Service)
    ensures g.Valid() && c.slot + HEADER_SLOT <= |d.files[c.instance].mem|
    ensures var h := HeaderAt(d.files[c.instance].mem, c.slot); var n := Behind(c, h);
      && (h.kind == CHANNEL || h.kind == SKIP) && c.slot % g.region + HEADER_SLOT + h.length <= g.region
      && On(g, d, ch, n) && Reached(g, d, ch, c, n) && n.slot > c.slot
      && (h.kind == CHANNEL ==> c.slot == 0 && n.slot % g.region == c.slot % g.region + (n.slot - c.slot))
      && (h.kind == CHANNEL ==> n.slot % g.region != 0 && n.slot / g.region == c.slot / g.region)
      && (h.kind != CHANNEL ==> n.slot % g.region == 0 && n.slot / g.region == c.slot / g.region + 1)
  {
    hide Inv, Members, On, HeaderAt, Next, Steppable, LogAt, Linked, Records, Reached;
    var m := d.files[c.instance].mem;
    StepTo(g, m, c.slot);
    ServiceFound(g, d, ch, c);
    StepForward(m, g.region, c.slot);
    ServiceStep(g, m, c.slot);
    var n := c.(slot := Next(m, c.slot));
    ReachedSelf(g, d, ch, c);
    ReachedOn(g, d, ch, c, c, n);
  }

  lemma ServiceStep(g: Geometry, m: seq<byte>, p: nat)
    requires g.Valid() && Steppable(m, g.region, p) && HeaderAt(m, p).kind != USER
    ensures var n := Next(m, p);
      && n > p
      && (HeaderAt(m, p).kind == CHANNEL ==> n % g.region == p % g.region + (n - p))
      && (HeaderAt(m, p).kind != CHANNEL ==> n % g.region == 0 && n / g.region == p / g.region + 1)
  {
    hide HeaderAt;
    NextSlot(g, m, p);
    ModStep(p, g.region - p % g.region, g.region);
  }

  /** Having failed to open `v` files: the one after that of `c` was not opened, or is gone. */
  predicate NotOpened(d: Disk, c: Cursor, v: int) {
    v == 1 || (v == 0 && c.segment + 1 !in d.names)
  }

  /** Slot `b` is in a later region than slot `a`, of its file or of a later one. */
  predicate LaterRegion(g: Geometry, a: Cursor, b: Cursor)
    requires g.Valid()
  {
    b.segment > a.segment || (b.segment == a.segment && b.slot / g.region > a.slot / g.region)
  }

  /** The slots at which a scan from `start` came into one region after another. */
  ghost predicate Trail(g: Geometry, d: Disk, ch: History, start: Cursor, trail: seq<Cursor>)
    requires g.Valid()
    decreases |trail|
  {
    if |trail| < 2 then trail == [start] && Reached(g, d, ch, start, start)
    else
      && Further(g, d, ch, start, trail[|trail| - 2], trail[|trail| - 1])
      && Trail(g, d, ch, start, trail[..|trail| - 1])
  }

  ghost predicate Further(g: Geometry, d: Disk, ch: History, start: Cursor, from: Cursor, at: Cursor)
    requires g.Valid()
  {
    Reached(g, d, ch, start, at) && LaterRegion(g, from, at)
  }

  /** A scan from `start` has come into more than 65536 regions. */
  ghost predicate Overrun(g: Geometry, d: Disk, ch: History, start: Cursor)
    requires g.Valid()
  {
    exists trail :: |trail| == 65537 && Trail(g, d, ch, start, trail)
  }

  /** Past no record, a scan from `start` is on a Roll that it cannot follow. */
  ghost predicate AtShutRoll(g: Geometry, d: Disk, ch: History, start: Cursor, at: Cursor, v: int)
    requires g.Valid()
  {
    && Reached(g, d, ch, start, at) && at.position == start.position && Finds(g, d, ch, at, Found.Roll)
    && NotOpened(d, at, v)
  }

  /**
   * A scan from `start` that failed to map `u` regions and to open `v` files has no batch to give: a region was
   * not mapped, or a Roll not followed with no record before it, or there were too many regions.
   */
  ghost predicate NoBatch(g: Geometry, d: Disk, ch: History, start: Cursor, u: int, v: int)
    requires g.Valid()
  {
    || (u == 1 && v == 0)
    || (u == 0 && exists at :: AtShutRoll(g, d, ch, start, at, v))
    || (u == 0 && v == 0 && Overrun(g, d, ch, start))
  }

  /** A scan ends at `at`, where nothing is committed yet, or having taken records on a Roll it cannot follow. */
  ghost predicate Drained(g: Geometry, d: Disk, ch: History, at: Cursor, some: bool, v: int)
    requires g.Valid() && On(g, d, ch, at)
  {
    || (v == 0 && Finds(g, d, ch, at, NotYet))
    || (some && Finds(g, d, ch, at, Found.Roll) && NotOpened(d, at, v))
  }

  lemma {:induction false} TrailStays(g: Geometry, d: Disk, ch: History, e: Disk, dh: History, start: Cursor,
      trail: seq<Cursor>)
    requires g.Valid() && Advances(g, d, ch, e, dh) && Trail(g, d, ch, start, trail)
    ensures Trail(g, e, dh, start, trail)
    decreases |trail|
  {
    hide Advances, Reached, LaterRegion;
    ReachedStays(g, d, ch, e, dh, start, trail[|trail| - 1]);
    if |trail| > 1 { TrailStays(g, d, ch, e, dh, start, trail[..|trail| - 1]); }
  }

  lemma TrailOn(g: Geometry, d: Disk, ch: History, start: Cursor, trail: seq<Cursor>, at: Cursor)
    requires g.Valid() && Trail(g, d, ch, start, trail) && trail != []
    requires Reached(g, d, ch, start, at) && LaterRegion(g, trail[|trail| - 1], at)
    ensures Trail(g, d, ch, start, trail + [at])
  {
    hide Reached, LaterRegion;
    var all := trail + [at];
    assert all[..|all| - 1] == trail;
    assert all[|all| - 2] == trail[|trail| - 1];
    assert Further(g, d, ch, start, all[|all| - 2], all[|all| - 1]);
  }

  lemma TooMany(g: Geometry, d: Disk, ch: History, start: Cursor, trail: seq<Cursor>)
    requires g.Valid() && |trail| == 65537 && Trail(g, d, ch, start, trail)
    ensures NoBatch(g, d, ch, start, 0, 0)
  {
    hide Trail, AtShutRoll;
  }

  lemma Shut(g: Geometry, d: Disk, ch: History, start: Cursor, at: Cursor, v: int)
    requires g.Valid() && Reached(g, d, ch, start, at) && at.position == start.position
    requires Finds(g, d, ch, at, Found.Roll) && NotOpened(d, at, v)
    ensures NoBatch(g, d, ch, start, 0, v)
  {
    hide Reached, Finds, Overrun;
    assert AtShutRoll(g, d, ch, start, at, v);
  }

  lemma NotMapped(g: Geometry, d: Disk, ch: History, start: Cursor)
    requires g.Valid()
    ensures NoBatch(g, d, ch, start, 1, 0)
  {
    hide Overrun, AtShutRoll;
  }

  lemma TrailStarts(g: Geometry, d: Disk, ch: History, start: Cursor)
    requires g.Valid() && Reached(g, d, ch, start, start)
    ensures Trail(g, d, ch, start, [start])
  {
    hide Reached;
  }

  class Reader {
    const files: ChannelFiles
    var sequence: nat
    var instance: InstanceId
    var readPosition: nat
    /** The absolute index of the next user record. */
    var position: nat
    var maps: seq<Mapping>
    const generation: nat
    var batchSegs: seq<BatchSeg>
    var batchPos: seq<MsgPos>
    /** The index of the first record of the batch. */
    ghost var batchFrom: nat
    /** How many regions the system has failed to map, and how many files to open, for this reader. */
    ghost var unmapped: nat
    ghost var unopened: nat

    /** `from_segment`: a reader at a slot found on the chain of a segment, with that slot's region mapped. */
    constructor (files: ChannelFiles, at: Cursor)
      requires files.Valid() && On(files.g, files.disk, files.chain, at)
      ensures Valid() && this.files == files && Here() == at && batchPos == []
    {
      hide Inv, Members, On, ChannelFiles.Valid;
      this.files, sequence, instance, readPosition, position := files, at.segment, at.instance, at.slot, at.position;
      generation := files.disk.files[at.instance].generation;
      maps := [Mapping(at.segment, at.instance, at.slot / files.g.region)];
      batchSegs, batchPos, batchFrom := [], [], at.position;
    }

    function Here(): Cursor
      reads `sequence, `instance, `readPosition, `position
    {
      Cursor(sequence, instance, readPosition, position)
    }

    /** A cursor on the chain of a segment of this channel. */
    ghost predicate Stands(at: Cursor)
      reads files
      ensures Stands(at) ==>
        files.Valid() && at.instance in files.disk.files && On(files.g, files.disk, files.chain, at)
    {
      && files.Valid() && On(files.g, files.disk, files.chain, at)
      && files.disk.files[at.instance].generation == generation
    }

    /** The last mapping is of the region the cursor is in. */
    predicate Covers(at: Cursor)
      reads `maps
    {
      files.g.region > 0 && maps != [] && maps[|maps| - 1] == Mapping(at.segment, at.instance, at.slot / files.g.region)
    }

    ghost predicate Placed()
      reads `sequence, `instance, `readPosition, `position, files
      ensures Placed() ==> files.Valid() && instance in files.disk.files && On(files.g, files.disk, files.chain, Here())
    {
      Stands(Here())
    }

    predicate OwnRegion(m: Mapping)
      reads `sequence, `instance, `readPosition
    {
      files.g.region > 0 && m == Mapping(sequence, instance, readPosition / files.g.region)
    }

    /** The reader's own region is the last one mapped, so `prune_to_current` never panics. */
    predicate Mapped()
      reads `maps, `sequence, `instance, `readPosition
    {
      maps != [] && OwnRegion(maps[|maps| - 1])
    }

    ghost predicate Valid()
      reads `sequence, `instance, `readPosition, `position, `maps, files
      ensures Valid() ==> Placed()
    {
      Placed() && Mapped()
    }

    /** The records of the last batch are where `batchPos` says. */
    ghost predicate BatchHolds()
      reads `maps, `batchSegs, `batchPos, `batchFrom, files
    {
      files.Valid() && AllResolve(files.g, files.disk, files.chain, maps, batchSegs, LastEnd(batchSegs), batchPos,
          batchFrom)
    }

    /** Keep only the last mapping. */
    method PruneToCurrent()
      requires Mapped()
      modifies `maps
      ensures Mapped() && |maps| == 1
    {
      maps := [maps[|maps| - 1]];
    }

    /** Others act; a cursor stays where it is. */
    method Meanwhile(ghost at: Cursor)
      requires Stands(at)
      modifies files
      ensures Stands(at) && old(files.past) <= files.past
      ensures Advances(files.g, old(files.disk), old(files.chain), files.disk, files.chain)
      ensures files.Since(old(files.rest), old(files.disk), old(files.chain))
    {
      hide Inv, Members, Advances, On, ChannelFiles.Valid;
      ghost var d, ch := files.disk, files.chain;
      Others(files);
      OnStays(files.g, d, ch, files.disk, files.chain, at);
      SameKind(files.g, d, ch, files.disk, files.chain, at);
    }

    /** The offset in the mapped file that the last mapping and the cursor's offset in its region come to. */
    lemma Addressed(at: Cursor)
      requires Covers(at)
      ensures maps[|maps| - 1].region * files.g.region + at.slot % files.g.region == at.slot
    {
    }

    /** The slot at a cursor, through the last mapping: the committed byte first, and the rest only once it is set. */
    method LoadSlot(at: Cursor) returns (h: Header, ghost f: Found)
      requires Stands(at) && Covers(at)
      modifies files
      ensures Stands(at) && old(files.past) <= files.past
      ensures Advances(files.g, old(files.disk), old(files.chain), files.disk, files.chain)
      ensures files.Since(old(files.rest), old(files.disk), old(files.chain))
      ensures Finds(files.g, files.disk, files.chain, at, f)
      ensures at.slot + HEADER_SLOT <= |files.disk.files[at.instance].mem|
      ensures h == HeaderAt(files.disk.files[at.instance].mem, at.slot)
      ensures h.committed == (if f == NotYet then 0 else 1)
      ensures f == User ==> h.kind == USER
      ensures f == Service ==> h.kind == CHANNEL || h.kind == SKIP
      ensures f == Found.Roll ==> h.kind == ROLL
    {
      hide Inv, Members, Advances, On, ChannelFiles.Valid, Finds, HeaderAt;
      ghost var d0, ch0 := files.disk, files.chain;
      var last := maps[|maps| - 1];
      Addressed(at);
      Meanwhile(at);
      f := SlotHolds(files.g, files.disk, files.chain, at);
      var slot := last.region * files.g.region + at.slot % files.g.region;
      h := HeaderAt(files.disk.files[last.instance].mem, slot);
      if h.committed == 0 { return; }
      ghost var d, ch, f0 := files.disk, files.chain, f;
      Meanwhile(at);
      f := SlotHolds(files.g, files.disk, files.chain, at);
      StaysCommitted(files.g, d, ch, files.disk, files.chain, at, f0);
      AdvancesTransitive(files.g, d0, ch0, d, ch, files.disk, files.chain);
      h := HeaderAt(files.disk.files[last.instance].mem, slot);
    }

    /** Map the region a cursor is in, unless it is the last one mapped. May fail. */
    method MapRegion(at: Cursor) returns (ok: bool)
      requires files.g.region > 0 && maps != []
      requires (maps[|maps| - 1].sequence == at.segment ==> maps[|maps| - 1].instance == at.instance)
      modifies `maps, `unmapped
      ensures ok ==> Covers(at) && unmapped == old(unmapped)
      ensures ok ==>
        (maps == old(maps) || maps == old(maps) + [Mapping(at.segment, at.instance, at.slot / files.g.region)])
      ensures !ok ==> maps == old(maps) && unmapped == old(unmapped) + 1 && !old(Covers(at))
    {
      var last := maps[|maps| - 1];
      if last.sequence == at.segment && last.region == at.slot / files.g.region {
        return true;
      }
      if * {
        unmapped := unmapped + 1;
        return false;
      }
      maps := maps + [Mapping(at.segment, at.instance, at.slot / files.g.region)];
      ok := true;
    }

    /** Step over a Channel or Skip record, mapping the next region before the cursor moves into it. */
    method StepOver(h: Header) returns (ok: bool)
      requires Valid() && Finds(files.g, files.disk, files.chain, Here(), Service)
      requires readPosition + HEADER_SLOT <= |files.disk.files[instance].mem|
      requires h == HeaderAt(files.disk.files[instance].mem, readPosition)
      modifies `maps, `readPosition, `unmapped
      ensures Valid()
      ensures ok ==> Reached(files.g, files.disk, files.chain, old(Here()), Here()) && readPosition > old(readPosition)
      ensures !ok ==> Here() == old(Here()) && maps == old(maps)
      ensures ok ==> unmapped == old(unmapped)
      ensures !ok ==> h.kind == SKIP && unmapped == old(unmapped) + 1
      ensures old(|maps|) == 1 ==> |maps| == 1
    {
      hide Inv, Members, On, ChannelFiles.Valid, HeaderAt, Reached, Finds;
      BehindService(files.g, files.disk, files.chain, Here());
      ghost var here := Here();
      var next := AlignUp(readPosition + HEADER_SLOT + h.length);
      assert Behind(here, h) == here.(slot := next);
      if next % files.g.region == 0 {
        ok := MapRegion(Here().(slot := next));
        if !ok { return; }
        readPosition := next;
        PruneToCurrent();
      } else {
        readPosition := next;
      }
      ok := true;
    }

    lemma RollInside(at: Cursor)
      requires Stands(at) && Finds(files.g, files.disk, files.chain, at, Found.Roll)
      ensures at.slot + ROLL_TOTAL <= |files.disk.files[at.instance].mem|
    {
      hide Inv, Members, On, ChannelFiles.Valid, Follow, Decode, RollBody, Rolled, Steppable, EndOf;
      RollLeads(files.g, files.disk, files.chain, at);
    }

    /**
     * `open_successor`: the file that the committed Roll under a cursor names, taken from what the reader's
     * helper opened ahead if that is the one, and else by its name. What is checked of it never fails, but
     * it may be gone, or not be mapped.
     */
    method OpenSuccessor(at: Cursor) returns (ok: bool, next: InstanceId, base: nat)
      requires Stands(at) && Finds(files.g, files.disk, files.chain, at, Found.Roll)
      modifies files, `unopened
      ensures Stands(at) && old(files.past) <= files.past && Finds(files.g, files.disk, files.chain, at, Found.Roll)
      ensures Advances(files.g, old(files.disk), old(files.chain), files.disk, files.chain)
      ensures files.Since(old(files.rest), old(files.disk), old(files.chain))
      ensures ok ==> base == at.position && Stands(Cursor(at.segment + 1, next, 0, base))
      ensures ok ==> Reached(files.g, files.disk, files.chain, at, Cursor(at.segment + 1, next, 0, base))
      ensures if ok then unopened == old(unopened) else NotOpened(files.disk, at, unopened - old(unopened))
    {
      hide Inv, Members, On, ChannelFiles.Valid, Finds, Follow, Decode, RollBody, Advances, RollEdge.Names;
      RollInside(at);
      next, base := at.instance, 0;
      var edge := Decode(RollBody(files.disk.files[at.instance].mem, at.slot));
      ghost var d, ch := files.disk, files.chain;
      Meanwhile(at);
      StillRolled(files.g, d, ch, files.disk, files.chain, at);
      RollDecodes(at);
      ReachedSelf(files.g, files.disk, files.chain, at);
      var ahead: InstanceId := *;
      if ahead in files.disk.files && edge.value.Names(at.segment, at.instance, files.disk.files[ahead].identity) {
        next := ahead;
      } else {
        if at.segment + 1 !in files.disk.names { return false, next, 0; }
        next := files.disk.names[at.segment + 1];
        NamedThere(next, at);
      }
      if * {
        unopened := unopened + 1;
        return false, next, 0;
      }
      NamedAccepted(files.g, files.disk, files.chain, at, next);
      assert Follow(files.disk.files[at.instance], edge, files.disk.files[next], at.segment, at.instance, generation)
          == Follows;
      base := files.disk.files[next].base;
      ReachedOn(files.g, files.disk, files.chain, at, at, Cursor(at.segment + 1, next, 0, base));
      ok := true;
    }

    lemma RollDecodes(at: Cursor)
      requires Stands(at) && Finds(files.g, files.disk, files.chain, at, Found.Roll)
      ensures at.slot + ROLL_TOTAL <= |files.disk.files[at.instance].mem| && at.segment <= U64_MAX
      ensures Decode(RollBody(files.disk.files[at.instance].mem, at.slot)).Ok?
    {
      hide Inv, Members, On, ChannelFiles.Valid, Decode, RollBody, Finds, RollEdge.Names;
      RollLeads(files.g, files.disk, files.chain, at);
      MemberFiles(files.g, files.disk, files.chain, at.segment);
    }

    lemma NamedThere(i: InstanceId, at: Cursor)
      requires Stands(at) && Finds(files.g, files.disk, files.chain, at, Found.Roll)
      requires at.segment + 1 in files.disk.names && files.disk.names[at.segment + 1] == i
      ensures i in files.disk.files
    {
      hide Inv, Members, On, ChannelFiles.Valid, Follow, Decode, RollBody, Finds;
      RollLeads(files.g, files.disk, files.chain, at);
    }

    /** Roll into the next segment. Nothing moves until it is open and checked. */
    method OpenNextFile() returns (ok: bool)
      requires Valid() && Finds(files.g, files.disk, files.chain, Here(), Found.Roll)
      modifies `sequence, `instance, `readPosition, `position, `maps, `unopened, files
      ensures Valid() && position == old(position) && old(files.past) <= files.past
      ensures Advances(files.g, old(files.disk), old(files.chain), files.disk, files.chain)
      ensures files.Since(old(files.rest), old(files.disk), old(files.chain))
      ensures if ok then unopened == old(unopened) else NotOpened(files.disk, Here(), unopened - old(unopened))
      ensures ok ==> Reached(files.g, files.disk, files.chain, old(Here()), Here())
      ensures ok ==> sequence == old(sequence) + 1 && readPosition == 0 && |maps| == 1
      ensures !ok ==>
        Here() == old(Here()) && maps == old(maps) && Finds(files.g, files.disk, files.chain, Here(), Found.Roll)
    {
      hide Inv, Members, On, ChannelFiles.Valid, Finds, Advances, Reached;
      var next, base;
      ok, next, base := OpenSuccessor(Here());
      if !ok { return; }
      sequence, instance, position, readPosition := sequence + 1, next, base, 0;
      SmallMod(0, files.g.region);
      maps := [Mapping(sequence, instance, 0)];
    }

    /** Pass a record that carries no data: over a Roll into the next file, or over a Channel or Skip record. */
    method PassService(h: Header, ghost f: Found) returns (ok: bool)
      requires Valid() && Finds(files.g, files.disk, files.chain, Here(), f)
      requires readPosition + HEADER_SLOT <= |files.disk.files[instance].mem|
      requires h == HeaderAt(files.disk.files[instance].mem, readPosition)
      requires if h.kind == ROLL then f == Found.Roll else f == Service
      modifies `sequence, `instance, `readPosition, `position, `maps, `unmapped, `unopened, files
      ensures Valid() && position == old(position) && old(files.past) <= files.past
      ensures Advances(files.g, old(files.disk), old(files.chain), files.disk, files.chain)
      ensures files.Since(old(files.rest), old(files.disk), old(files.chain))
      ensures Reached(files.g, files.disk, files.chain, old(Here()), Here())
      ensures ok ==> sequence > old(sequence) || (sequence == old(sequence) && readPosition > old(readPosition))
      ensures sequence == old(sequence) ==> instance == old(instance)
      ensures !ok ==> Here() == old(Here()) && maps == old(maps) && Finds(files.g, files.disk, files.chain, Here(), f)
      ensures ok ==> unmapped == old(unmapped) && unopened == old(unopened)
      ensures old(|maps|) == 1 ==> |maps| == 1
      ensures !ok ==>
        Stuck(files.g, files.disk, files.chain, Here(), unmapped - old(unmapped), unopened - old(unopened))
    {
      hide Inv, Members, On, ChannelFiles.Valid, Finds, HeaderAt, Next, Advances, Reached, Stands, Mapped;
      StandsHere();
      if h.kind == ROLL {
        ok := OpenNextFile();
        if !ok { StandsHere(); }
      } else {
        ok := StepOver(h);
        if !ok { StandsHere(); }
      }
    }

    /** The user record at the cursor, consumed or left there. */
    method TakeRecord(h: Header, consume: bool) returns (record: Record)
      requires Valid() && Finds(files.g, files.disk, files.chain, Here(), User)
      requires readPosition + HEADER_SLOT <= |files.disk.files[instance].mem|
      requires h == HeaderAt(files.disk.files[instance].mem, readPosition)
      modifies `readPosition, `position
      ensures Valid() && Delivers(files, old(position), record)
      ensures position == old(position) + (if consume then 1 else 0)
      ensures !consume ==> readPosition == old(readPosition)
      ensures Reached(files.g, files.disk, files.chain, old(Here()), Here())
      ensures consume ==> JustAfter(files.g, files.disk, files.chain, Here())
    {
      hide Inv, Members, On, ChannelFiles.Valid, HeaderAt, Next, LogAt, Finds, Reached, JustAfter;
      UserFound(files.g, files.disk, files.chain, Here());
      BehindUser(files.g, files.disk, files.chain, Here());
      record := RecordAt(files.disk.files[maps[|maps| - 1].instance].mem, readPosition);
      ghost var here := Here();
      ReachedSelf(files.g, files.disk, files.chain, here);
      if consume {
        var next := AlignUp(readPosition + HEADER_SLOT + h.length);
        // `scan_to_user_record` would map the next region here; a user record leaves room for a Roll behind
        // it, so none starts at its end.
        assert next % files.g.region != 0;
        position := position + 1;
        readPosition := next;
        assert Here() == Behind(here, h);
      }
    }

    /**
     * Scan forward to the next user record. What it returns is the log's record at `position`, or
     * nothing because the log ended there when the slot was loaded. A failure to map a region or to
     * open the next file leaves `position` alone, and the cursor on the Skip or Roll it could not pass.
     */
    method ScanToUserRecord(consume: bool) returns (r: Scan)
      requires Valid()
      modifies `sequence, `instance, `readPosition, `position, `maps, `unmapped, `unopened, files
      ensures Valid() && old(files.past) <= files.past
      ensures r.Got? ==>
        Delivers(files, old(position), r.record) && position == old(position) + (if consume then 1 else 0)
      ensures r == Scan.Nothing ==> position == Genesis(files.disk, files.chain) + |files.Logged()|
      ensures !r.Got? ==> position == old(position)
      ensures r.Got? && !consume ==> Finds(files.g, files.disk, files.chain, Here(), User)
      ensures r.Got? && consume ==> JustAfter(files.g, files.disk, files.chain, Here())
      ensures r == Scan.Nothing ==> Finds(files.g, files.disk, files.chain, Here(), NotYet)
      ensures r == Scan.Failed ==>
        Stuck(files.g, files.disk, files.chain, Here(), unmapped - old(unmapped), unopened - old(unopened))
      ensures r != Scan.Failed ==> unmapped == old(unmapped) && unopened == old(unopened)
      ensures |maps| == 1
      ensures Advances(files.g, old(files.disk), old(files.chain), files.disk, files.chain)
      ensures Reached(files.g, files.disk, files.chain, old(Here()), Here())
    {
      hide Inv, Members, On, ChannelFiles.Valid, Finds, HeaderAt, Next, Advances, LogAt, Stands, Mapped, Delivers,
        Reached, JustAfter, ChannelFiles.Logged, Stuck;
      ghost var start := Here();
      StandsHere();
      PruneToCurrent();
      while true
        invariant Valid() && position == old(position) && old(files.past) <= files.past
        invariant Advances(files.g, old(files.disk), old(files.chain), files.disk, files.chain)
        invariant Reached(files.g, files.disk, files.chain, start, Here())
        invariant unmapped == old(unmapped) && unopened == old(unopened) && |maps| == 1
        decreases files.rest, |files.chain| - sequence, |files.disk.files[instance].mem| - readPosition
      {
        InChain();
        ghost var d, ch := files.disk, files.chain;
        var h;
        ghost var f;
        OnMap();
        h, f := LoadSlot(Here());
        AdvancesTransitive(files.g, old(files.disk), old(files.chain), d, ch, files.disk, files.chain);
        ReachedStays(files.g, d, ch, files.disk, files.chain, start, Here());
        ghost var here := Here();
        if h.committed == 0 {
          Ended();
          return Scan.Nothing;
        }
        if h.kind == USER {
          var record := TakeRecord(h, consume);
          ReachedFurther(files.g, files.disk, files.chain, start, here, Here());
          return Got(record);
        }
        d, ch := files.disk, files.chain;
        var ok := PassService(h, f);
        AdvancesTransitive(files.g, old(files.disk), old(files.chain), d, ch, files.disk, files.chain);
        ReachedStays(files.g, d, ch, files.disk, files.chain, start, here);
        ReachedFurther(files.g, files.disk, files.chain, start, here, Here());
        if !ok { return Scan.Failed; }
        InChain();
      }
    }

    /**
     * Drain up to `max` records: those with indices `position`, `position + 1` and so on of the log, each
     * once and in order, however the channel changes meanwhile, and on a failure those before it.
     */
    method ReadOwnedInto(max: nat) returns (out: seq<Record>, r: Scan)
      requires Valid()
      modifies `sequence, `instance, `readPosition, `position, `maps, `unmapped, `unopened, files
      ensures Valid() && old(files.past) <= files.past
      ensures DeliversAll(files, old(position), out)
      ensures !r.Got? || |out| == max
      ensures r == Scan.Nothing && |out| < max ==> position == Genesis(files.disk, files.chain) + |files.Logged()|
      ensures StopsAt(files.g, files.disk, files.chain, old(Here()), |out|, max, Here())
      ensures r == Scan.Nothing && |out| < max ==> Finds(files.g, files.disk, files.chain, Here(), NotYet)
      ensures r == Scan.Failed && |out| < max ==>
        Stuck(files.g, files.disk, files.chain, Here(), unmapped - old(unmapped), unopened - old(unopened))
      ensures r != Scan.Failed ==> unmapped == old(unmapped) && unopened == old(unopened)
      ensures position == old(position) + |out| && |out| <= max
    {
      hide Inv, Members, ChannelFiles.Valid, Stands, Mapped, Holds, Delivers, Reached, JustAfter, Finds, On,
        ChannelFiles.Logged, Stuck;
      ghost var start := Here();
      StandsHere();
      out := [];
      r := Got(Record(0, 0, []));
      while |out| < max
        invariant Valid() && old(files.past) <= files.past
        invariant DeliversAll(files, old(position), out) && position == old(position) + |out| && |out| <= max
        invariant Reached(files.g, files.disk, files.chain, start, Here())
        invariant 0 < |out| ==> JustAfter(files.g, files.disk, files.chain, Here())
        invariant r.Got? && unmapped == old(unmapped) && unopened == old(unopened)
      {
        ghost var past, d, ch, here := files.past, files.disk, files.chain, Here();
        NowRecorded();
        r := ScanToUserRecord(true);
        HeldSince(files, past, old(position), out);
        ReachedStays(files.g, d, ch, files.disk, files.chain, start, here);
        ReachedFurther(files.g, files.disk, files.chain, start, here, Here());
        if !r.Got? { return; }
        assert Holds(files.g, files.disk, files.chain, old(position) + |out|, r.record) by {
          DeliversIs(files, old(position) + |out|, r.record); }
        out := out + [r.record];
      }
    }

    // ---------- batches ----------

    /**
     * The scan has come to `at`, the records it took being where `batchPos` says and its last run going up to
     * `closing`.
     */
    ghost predicate Scanning(start: Cursor, at: Cursor, closing: nat, max: nat)
      reads `maps, `batchSegs, `batchPos, `batchFrom, files
      ensures Scanning(start, at, closing, max) ==> files.Valid() && Stands(at)
    {
      && Stands(at) && Reached(files.g, files.disk, files.chain, start, at)
      && AllResolve(files.g, files.disk, files.chain, maps, batchSegs, closing, batchPos, batchFrom)
      && batchFrom == start.position && at.position == start.position + |batchPos| && |batchPos| <= max
    }

    /** While others act the scan stays where it is. */
    lemma ScanStays(past: seq<Moment>, d: Disk, ch: History, start: Cursor, at: Cursor, closing: nat)
      requires Stands(at) && Inv(files.g, d, ch) && Advances(files.g, d, ch, files.disk, files.chain)
      requires Reached(files.g, d, ch, start, at)
      requires AllResolve(files.g, d, ch, maps, batchSegs, closing, batchPos, batchFrom)
      ensures Reached(files.g, files.disk, files.chain, start, at)
      ensures AllResolve(files.g, files.disk, files.chain, maps, batchSegs, closing, batchPos, batchFrom)
    {
      hide Inv, Advances, Reached, AllResolve, On, ChannelFiles.Valid;
      ReachedStays(files.g, d, ch, files.disk, files.chain, start, at);
      AllStay(files.g, d, ch, files.disk, files.chain, maps, batchSegs, closing, batchPos, batchFrom);
    }

    /** The last run of the batch ends at an offset of its region. */
    method CloseRun(end: nat)
      requires files.Valid() && batchSegs != []
      requires AllResolve(files.g, files.disk, files.chain, maps, batchSegs, end, batchPos, batchFrom)
      modifies `batchSegs
      ensures |batchSegs| == |old(batchSegs)| && LastEnd(batchSegs) == end
      ensures AllResolve(files.g, files.disk, files.chain, maps, batchSegs, end, batchPos, batchFrom)
    {
      hide Inv, AllResolve;
      RunEnds(files.g, files.disk, files.chain, maps, batchSegs, end, batchPos, batchFrom);
      var last := |batchSegs| - 1;
      batchSegs := batchSegs[last := batchSegs[last].(end := end)];
    }

    /** A user record of the batch, at an offset of the region mapped last. */
    method Push(at: Cursor, off: nat, ghost next: nat)
      requires Stands(at) && Covers(at) && Finds(files.g, files.disk, files.chain, at, User)
      requires off == at.slot % files.g.region < next
      requires off + HEADER_SLOT <= files.g.region && at.position == batchFrom + |batchPos|
      requires batchSegs != [] && batchSegs[|batchSegs| - 1].mapping == |maps| - 1
      requires batchSegs[|batchSegs| - 1].start <= off
      requires AllResolve(files.g, files.disk, files.chain, maps, batchSegs, off, batchPos, batchFrom)
      modifies `batchPos
      ensures |batchPos| == |old(batchPos)| + 1
      ensures AllResolve(files.g, files.disk, files.chain, maps, batchSegs, next, batchPos, batchFrom)
    {
      hide Inv, AllResolve, On, Finds, ChannelFiles.Valid;
      Addressed(at);
      RunTakes(files.g, files.disk, files.chain, maps, batchSegs, off, next, batchPos, batchFrom);
      batchPos := batchPos + [MsgPos(|batchSegs| - 1, off)];
    }

    /** The scan of one region, mapped last, in which a run has just been started. */
    method ScanRegion(ghost start: Cursor, from: Cursor, max: nat) returns (at: Cursor, end: SegmentEnd)
      requires Covers(from) && Scanning(start, from, from.slot % files.g.region, max) && |batchPos| < max
      requires batchSegs != [] && batchSegs[|batchSegs| - 1].mapping == |maps| - 1
      requires batchSegs[|batchSegs| - 1].start == from.slot % files.g.region
      modifies `maps, `batchSegs, `batchPos, `unopened, files
      ensures Stands(at) && Reached(files.g, files.disk, files.chain, start, at) && old(files.past) <= files.past
      ensures at.segment > from.segment || (at.segment == from.segment
        && at.slot / files.g.region == from.slot / files.g.region + if end.RegionEnd? then 1 else 0)
      ensures end.RolledOn? ==> at.segment > from.segment
      ensures old(maps) <= maps && |batchSegs| == |old(batchSegs)|
      ensures if end.Failed? || end.Parked? then NotOpened(files.disk, at, unopened - old(unopened))
        else unopened == old(unopened)
      ensures end.Failed? ==>
        batchPos == [] && at.position == start.position && Finds(files.g, files.disk, files.chain, at, Found.Roll)
      ensures !end.Failed? ==> Scanning(start, at, LastEnd(batchSegs), max)
      ensures !end.Failed? && !end.RegionEnd? ==> Covers(at)
      ensures end.RegionEnd? ==>
        maps == old(maps) && maps[|maps| - 1].sequence == at.segment && maps[|maps| - 1].instance == at.instance
      ensures |batchPos| == max <==> end.Filled?
      ensures end.Filled? ==> JustAfter(files.g, files.disk, files.chain, at)
      ensures end.Waiting? ==> Finds(files.g, files.disk, files.chain, at, NotYet)
      ensures end.Parked? ==> batchPos != [] && Finds(files.g, files.disk, files.chain, at, Found.Roll)
    {
      hide Inv, Members, ChannelFiles.Valid, Stands, Reached, AllResolve, JustAfter, Finds, On, HeaderAt, Advances;
      at := from;
      while true
        invariant Scanning(start, at, at.slot % files.g.region, max) && |batchPos| < max
        invariant at.segment == from.segment && at.instance == from.instance
        invariant at.slot / files.g.region == from.slot / files.g.region
        invariant old(files.past) <= files.past && maps == old(maps) && batchSegs == old(batchSegs)
        invariant unopened == old(unopened)
        invariant from.slot % files.g.region <= at.slot % files.g.region
        decreases files.g.region - at.slot % files.g.region
      {
        ghost var past, d, ch := files.past, files.disk, files.chain;
        InvNow();
        var off := at.slot % files.g.region;
        var h;
        ghost var f;
        h, f := LoadSlot(at);
        ScanStays(past, d, ch, start, at, off);
        if h.committed == 0 {
          CloseRun(off);
          return at, Waiting;
        }
        if h.kind == USER {
          BehindUser(files.g, files.disk, files.chain, at);
          var next := Behind(at, h);
          Push(at, off, next.slot % files.g.region);
          StandsToo(at, next);
          ReachedFurther(files.g, files.disk, files.chain, start, at, next);
          at := next;
          if |batchPos| >= max {
            CloseRun(at.slot % files.g.region);
            return at, Filled;
          }
        } else if h.kind == ROLL {
          past, d, ch := files.past, files.disk, files.chain;
          InvNow();
          var ok, next, base := OpenSuccessor(at);
          ScanStays(past, d, ch, start, at, off);
          if !ok && batchPos == [] { return at, SegmentEnd.Failed; }
          if !ok {
            CloseRun(off);
            return at, Parked;
          }
          RunGoesOn(files.g, files.disk, files.chain, maps, batchSegs, off, off + ROLL_TOTAL, batchPos, batchFrom);
          CloseRun(off + ROLL_TOTAL);
          ghost var before := maps;
          maps := maps + [Mapping(at.segment + 1, next, 0)];
          MoreMaps(files.g, files.disk, files.chain, before, maps, batchSegs, off + ROLL_TOTAL, batchPos, batchFrom);
          var second := Cursor(at.segment + 1, next, 0, base);
          ReachedFurther(files.g, files.disk, files.chain, start, at, second);
          SmallMod(0, files.g.region);
          return second, RolledOn;
        } else {
          BehindService(files.g, files.disk, files.chain, at);
          var next := Behind(at, h);
          StandsToo(at, next);
          ReachedFurther(files.g, files.disk, files.chain, start, at, next);
          if next.slot % files.g.region == 0 {
            RunGoesOn(files.g, files.disk, files.chain, maps, batchSegs, off, files.g.region, batchPos, batchFrom);
            CloseRun(files.g.region);
            return next, RegionEnd;
          }
          RunGoesOn(files.g, files.disk, files.chain, maps, batchSegs, off, next.slot % files.g.region, batchPos,
              batchFrom);
          at := next;
        }
      }
    }

    /** Another cursor in the same segment stands where it is on the chain. */
    lemma StandsToo(at: Cursor, next: Cursor)
      requires Stands(at) && next.segment == at.segment && next.instance == at.instance
      requires On(files.g, files.disk, files.chain, next)
      ensures Stands(next)
    {
      hide Inv, On, ChannelFiles.Valid;
    }

    lemma InvNow()
      requires files.Valid()
      ensures Inv(files.g, files.disk, files.chain)
    {
      hide Inv;
    }

    /** A run is started in the region just mapped, at the slot the scan has come to. */
    method StartRun(ghost start: Cursor, at: Cursor, max: nat, ghost before: seq<Mapping>)
      requires Stands(at) && Covers(at) && before <= maps && Reached(files.g, files.disk, files.chain, start, at)
      requires AllResolve(files.g, files.disk, files.chain, before, batchSegs, LastEnd(batchSegs), batchPos, batchFrom)
      requires batchFrom == start.position && at.position == start.position + |batchPos| && |batchPos| <= max
      modifies `batchSegs
      ensures Scanning(start, at, at.slot % files.g.region, max) && |batchSegs| == |old(batchSegs)| + 1
      ensures batchSegs[|batchSegs| - 1].mapping == |maps| - 1
      ensures batchSegs[|batchSegs| - 1].start == at.slot % files.g.region
    {
      hide Inv, Members, ChannelFiles.Valid, Reached, AllResolve, On;
      var off := at.slot % files.g.region;
      NewRun(files.g, files.disk, files.chain, before, maps, batchSegs, BatchSeg(|maps| - 1, off, off), batchPos,
          batchFrom);
      batchSegs := batchSegs + [BatchSeg(|maps| - 1, off, off)];
    }

    /** The run is scanned, and the scan has come into one region more, unless it ends here. */
    method ScanRun(ghost start: Cursor, from: Cursor, max: nat, ghost trail: seq<Cursor>)
        returns (at: Cursor, end: SegmentEnd)
      requires Covers(from) && Scanning(start, from, from.slot % files.g.region, max) && |batchPos| < max
      requires batchSegs != [] && batchSegs[|batchSegs| - 1].mapping == |maps| - 1
      requires batchSegs[|batchSegs| - 1].start == from.slot % files.g.region
      requires trail != [] && trail[|trail| - 1] == from && Trail(files.g, files.disk, files.chain, start, trail)
      modifies `maps, `batchSegs, `batchPos, `unopened, files
      ensures Stands(at) && Stands(start) && old(files.past) <= files.past
      ensures old(maps) <= maps && |batchSegs| == |old(batchSegs)|
      ensures !end.Failed? ==> Scanning(start, at, LastEnd(batchSegs), max)
      ensures !end.Failed? && !end.RegionEnd? ==> Covers(at)
      ensures end.RegionEnd? ==>
        maps == old(maps) && maps[|maps| - 1].sequence == at.segment && maps[|maps| - 1].instance == at.instance
      ensures |batchPos| == max <==> end.Filled?
      ensures end.Filled? ==> JustAfter(files.g, files.disk, files.chain, at)
      ensures !end.Failed? && !end.Parked? ==> unopened == old(unopened)
      ensures end.Waiting? || end.Parked? ==>
        Drained(files.g, files.disk, files.chain, at, batchPos != [], unopened - old(unopened))
      ensures end.Failed? ==> NoBatch(files.g, files.disk, files.chain, start, 0, unopened - old(unopened))
      ensures end.RegionEnd? || end.RolledOn? ==> Trail(files.g, files.disk, files.chain, start, trail + [at])
    {
      hide Inv, Members, ChannelFiles.Valid, Stands, Reached, AllResolve, JustAfter, Finds, On, Advances, NoBatch,
        Trail;
      ghost var past, d, ch := files.past, files.disk, files.chain;
      files.Now();
      at, end := ScanRegion(start, from, max);
      StillPlaced(start, at);
      if end.Failed? {
        Shut(files.g, files.disk, files.chain, start, at, unopened - old(unopened));
      }
      AdvancedSince(files, past);
      if end.RegionEnd? || end.RolledOn? {
        TrailStays(files.g, d, ch, files.disk, files.chain, start, trail);
        TrailOn(files.g, files.disk, files.chain, start, trail, at);
      }
    }

    /**
     * The scan behind a batch: it moves a cursor of its own over at most `max` user records, mapping
     * regions behind the reader's and leaving the reader's cursor alone. At a Roll that cannot be followed
     * it stops, if it has records to hand over; any other failure, or more than 65536 runs, fails it.
     */
    method ScanBatch(max: nat) returns (at: Cursor, ok: bool)
      requires Valid() && max > 0 && batchSegs == [] && batchPos == [] && batchFrom == position
      modifies `maps, `batchSegs, `batchPos, `unmapped, `unopened, files
      ensures Placed() && old(files.past) <= files.past && old(maps) <= maps
      ensures ok ==> Covers(at) && Scanning(Here(), at, LastEnd(batchSegs), max)
      ensures ok && |batchPos| == max ==> JustAfter(files.g, files.disk, files.chain, at)
      ensures ok && |batchPos| < max ==>
        Drained(files.g, files.disk, files.chain, at, batchPos != [], unopened - old(unopened))
      ensures ok ==> unmapped == old(unmapped) && (unopened == old(unopened) || |batchPos| < max)
      ensures !ok ==>
        NoBatch(files.g, files.disk, files.chain, Here(), unmapped - old(unmapped), unopened - old(unopened))
    {
      hide Inv, Members, ChannelFiles.Valid, Stands, Reached, AllResolve, JustAfter, Finds, On, Advances, NoBatch,
        Trail;
      ghost var start := Here();
      StandsHere();
      at := Here();
      NothingYet();
      ghost var trail := [start];
      TrailStarts(files.g, files.disk, files.chain, start);
      while true
        invariant Scanning(start, at, LastEnd(batchSegs), max) && |batchPos| < max
        invariant old(files.past) <= files.past && old(maps) <= maps && maps != [] && files.g.region > 0
        invariant maps[|maps| - 1].sequence == at.segment ==> maps[|maps| - 1].instance == at.instance
        invariant |batchSegs| <= 65536
        invariant |trail| == |batchSegs| + 1 && trail[|batchSegs|] == at
        invariant Trail(files.g, files.disk, files.chain, start, trail)
        invariant unmapped == old(unmapped) && unopened == old(unopened)
        decreases 65536 - |batchSegs|
      {
        ghost var before := maps;
        ok := MapRegion(at);
        if !ok {
          StillPlaced(start, at);
          NotMapped(files.g, files.disk, files.chain, start);
          return at, false;
        }
        if |batchSegs| > 65535 {
          StillPlaced(start, at);
          TooMany(files.g, files.disk, files.chain, start, trail);
          return at, false;
        }
        StartRun(start, at, max, before);
        var end;
        at, end := ScanRun(start, at, max, trail);
        if end.Failed? { return at, false; }
        if !end.RegionEnd? && !end.RolledOn? { return at, true; }
        trail := trail + [at];
      }
    }

    lemma NothingYet()
      requires Placed() && batchPos == [] && batchFrom == position
      ensures Scanning(Here(), Here(), LastEnd(batchSegs), 0)
    {
      hide Inv, On, Finds, ChannelFiles.Valid, Reached;
      StandsHere();
    }

    /** Having read on from a place of its own channel the reader is still placed there. */
    lemma StillPlaced(start: Cursor, at: Cursor)
      requires Stands(at) && Reached(files.g, files.disk, files.chain, start, at)
      ensures Stands(start)
    {
      hide Inv, Members, ChannelFiles.Valid, OnChain;
      SameGeneration(files.g, files.disk, files.chain, start.segment);
      SameGeneration(files.g, files.disk, files.chain, at.segment);
    }

    /** The reader goes on to where its scan ended. */
    method MoveTo(at: Cursor)
      requires Stands(at) && Covers(at)
      modifies `sequence, `instance, `readPosition, `position
      ensures Valid() && Here() == at
    {
      hide Inv, On, ChannelFiles.Valid;
      sequence, instance, readPosition, position := at.segment, at.instance, at.slot, at.position;
    }

    /** Drop what a scan mapped and took: the reader's own region is the last one mapped again. */
    method Drop(ghost own: seq<Mapping>)
      requires Placed() && own <= maps && |own| == 1 && OwnRegion(own[0]) && batchFrom == position
      modifies `maps, `batchSegs, `batchPos
      ensures Valid() && maps == own && batchPos == [] && BatchHolds()
      ensures Scanning(Here(), Here(), 0, 0)
    {
      hide Inv, Members, ChannelFiles.Valid, Stands, Reached, AllResolve, On;
      maps := maps[..1];
      batchSegs, batchPos := [], [];
      NothingYet();
    }

    /**
     * Read the records there are into a batch of at most `max`: `batchPos` says where each of them is in
     * the regions mapped. An error consumes nothing and leaves the reader's own region the last one
     * mapped. At a Roll that cannot be followed the batch is of the records before it, and the reader
     * parks on the Roll.
     */
    method TryReadBatch(max: nat) returns (r: Batch)
      requires Valid()
      modifies this, files
      ensures Valid() && old(files.past) <= files.past
      ensures max > 0 ==> BatchHolds() && batchFrom == old(position) && position == old(position) + |batchPos|
      ensures max > 0 ==> Ends(files.g, files.disk, files.chain, old(Here()), Here(), |batchPos|, max, r,
          unmapped - old(unmapped), unopened - old(unopened))
      ensures max == 0 ==> r == Empty && Here() == old(Here()) && files.disk == old(files.disk)
      ensures r == Error || (r == Empty && max > 0) ==> |maps| == 1
    {
      hide Inv, Members, ChannelFiles.Valid, Stands, Reached, AllResolve, JustAfter, Finds, On, NoBatch, Drained, Ends;
      if max == 0 { return Empty; }
      batchSegs, batchPos, batchFrom := [], [], position;
      PruneToCurrent();
      ghost var own := maps;
      var at, ok := ScanBatch(max);
      if !ok {
        Drop(own);
        EndsInError(files.g, files.disk, files.chain, Here(), max, unmapped - old(unmapped), unopened - old(unopened));
        return Error;
      }
      EndsAt(files.g, files.disk, files.chain, Here(), at, |batchPos|, max, unopened - old(unopened));
      MoveTo(at);
      if batchPos == [] {
        batchSegs := [];
        PruneToCurrent();
        NoneResolve(files.g, files.disk, files.chain, maps, batchSegs, 0, batchFrom);
        return Empty;
      }
      r := Full;
    }

    /** `message_at`: a record of the batch, read where the batch says it is. */
    method MessageAt(j: nat) returns (record: Record)
      requires BatchHolds() && j < |batchPos|
      ensures Delivers(files, batchFrom + j, record)
    {
      hide Inv, Members, ChannelFiles.Valid, On, Finds, HeaderAt, LogAt, Reached, JustAfter;
      assert Resolves(files.g, files.disk, files.chain, maps, batchSegs, LastEnd(batchSegs), batchPos[j],
          batchFrom + j);
      var p := batchPos[j];
      var run := batchSegs[p.seg];
      assert run.start <= p.off < run.end && p.off + HEADER_SLOT <= files.g.region;
      var m := maps[run.mapping];
      var slot := m.region * files.g.region + p.off;
      ghost var c := CursorOf(files.g, m, p.off, batchFrom + j);
      UserFound(files.g, files.disk, files.chain, c);
      record := RecordAt(files.disk.files[m.instance].mem, slot);
    }

    /** The records of a batch stay where they are, whatever others do. */
    lemma BatchStays(d: Disk, ch: History)
      requires files.Valid() && Inv(files.g, d, ch) && Advances(files.g, d, ch, files.disk, files.chain)
      requires AllResolve(files.g, d, ch, maps, batchSegs, LastEnd(batchSegs), batchPos, batchFrom)
      ensures BatchHolds()
    {
      hide Inv, Advances, AllResolve, ChannelFiles.Valid;
      AllStay(files.g, d, ch, files.disk, files.chain, maps, batchSegs, LastEnd(batchSegs), batchPos, batchFrom);
    }

    // ---------- what a cursor's place says ----------

    lemma OnMap()
      requires Mapped()
      ensures Covers(Here())
    {
    }

    /** The reader's segment is one of the history. */
    lemma InChain()
      requires Placed()
      ensures sequence < |files.chain|
    {
      hide Inv, OnChain;
    }

    lemma StandsHere()
      requires Placed()
      ensures Advances(files.g, files.disk, files.chain, files.disk, files.chain)
      ensures Reached(files.g, files.disk, files.chain, Here(), Here())
    {
      hide Inv, On, Advances;
      AdvancesReflexive(files.g, files.disk, files.chain);
      ReachedSelf(files.g, files.disk, files.chain, Here());
    }

    lemma NowRecorded()
      requires Placed()
      ensures files.past != [] && files.past[|files.past| - 1] == Moment(files.disk, files.chain)
      ensures Inv(files.g, files.disk, files.chain)
    {
      hide Inv, On;
    }

    lemma Ended()
      requires Placed() && Finds(files.g, files.disk, files.chain, Here(), NotYet)
      ensures position == Genesis(files.disk, files.chain) + |files.Logged()|
    {
      hide Inv, Members, On, ChannelFiles.Valid, Finds, Log;
      CaughtUp(files.g, files.disk, files.chain, Here());
    }
  }

  // ---------- batches and single reads ----------

  /**
   * On a service record it cannot pass, having failed to map `u` regions and to open `v` files: a Skip, the
   * region behind it not mapped, or a Roll, the file behind it not opened or gone.
   */
  ghost predicate Stuck(g: Geometry, d: Disk, ch: History, c: Cursor, u: int, v: int)
    requires g.Valid()
  {
    && On(g, d, ch, c)
    && (|| (u == 1 && v == 0 && Finds(g, d, ch, c, Service) && c.slot + HEADER_SLOT <= |d.files[c.instance].mem|
            && HeaderAt(d.files[c.instance].mem, c.slot).kind == SKIP)
        || (u == 0 && NotOpened(d, c, v) && Finds(g, d, ch, c, Found.Roll)))
  }

  /** From `start`, having taken `n` of at most `max` records, reading stands at `e`. */
  ghost predicate StopsAt(g: Geometry, d: Disk, ch: History, start: Cursor, n: nat, max: nat, e: Cursor)
    requires g.Valid()
  {
    && Reached(g, d, ch, start, e) && e.position == start.position + n && n <= max
    && (0 < n == max ==> JustAfter(g, d, ch, e))
  }

  /**
   * A batch of at most `max` is `max` single reads: unless either is stopped by a failure, they take as
   * many records and end in one and the same place; and if both are stopped by one Roll, they took as many
   * and stand on it. The records are the log's from one index on, so they are the same.
   */
  lemma BatchRefines(g: Geometry, d: Disk, ch: History, start: Cursor, max: nat, n: nat, b: Cursor, k: nat, s: Cursor)
    requires Inv(g, d, ch) && max > 0
    requires StopsAt(g, d, ch, start, n, max, b) && StopsAt(g, d, ch, start, k, max, s)
    ensures (n < max ==> Finds(g, d, ch, b, NotYet)) && (k < max ==> Finds(g, d, ch, s, NotYet)) ==> n == k && b == s
    ensures Finds(g, d, ch, b, Found.Roll) && Finds(g, d, ch, s, Found.Roll) && b.segment == s.segment ==>
      n == k && b == s
  {
    hide Inv, Members, Reached, JustAfter, Finds, Log, On;
    NotPastLog(g, d, ch, b);
    NotPastLog(g, d, ch, s);
    if (n < max ==> Finds(g, d, ch, b, NotYet)) && (k < max ==> Finds(g, d, ch, s, NotYet)) {
      if n < max { CaughtUp(g, d, ch, b); }
      if k < max { CaughtUp(g, d, ch, s); }
      if n == max && k == max { SameStop(g, d, ch, b, s); }
      if n < max && k < max { SameWait(g, d, ch, start, b, s); }
    }
    if Finds(g, d, ch, b, Found.Roll) && Finds(g, d, ch, s, Found.Roll) && b.segment == s.segment {
      RolledOlder(g, d, ch, b);
      RolledOlder(g, d, ch, s);
      SameFile(g, d, ch, b, s);
    }
  }

  /** What a reading of at most `max` records comes to that failed to map `u` regions and to open `v` files. */
  ghost predicate Ends(g: Geometry, d: Disk, ch: History, start: Cursor, e: Cursor, n: nat, max: nat, r: Batch, u: int,
      v: int)
    requires g.Valid()
    ensures Ends(g, d, ch, start, e, n, max, r, u, v) ==> StopsAt(g, d, ch, start, n, max, e)
  {
    && StopsAt(g, d, ch, start, n, max, e)
    && (r == Full <==> n > 0)
    && (if r == Error then e == start && NoBatch(g, d, ch, start, u, v)
        else if n == max then u == 0 && v == 0
        else u == 0 && On(g, d, ch, e) && Drained(g, d, ch, e, n > 0, v))
  }

  lemma EndsInError(g: Geometry, d: Disk, ch: History, start: Cursor, max: nat, u: int, v: int)
    requires g.Valid() && max > 0 && Reached(g, d, ch, start, start) && NoBatch(g, d, ch, start, u, v)
    ensures Ends(g, d, ch, start, start, 0, max, Error, u, v)
  {
    hide Reached, NoBatch;
  }

  lemma EndsAt(g: Geometry, d: Disk, ch: History, start: Cursor, e: Cursor, n: nat, max: nat, v: int)
    requires g.Valid() && Reached(g, d, ch, start, e) && e.position == start.position + n && n <= max && max > 0
    requires On(g, d, ch, e)
    requires if n == max then JustAfter(g, d, ch, e) && v == 0 else Drained(g, d, ch, e, n > 0, v)
    ensures Ends(g, d, ch, start, e, n, max, if n == 0 then Empty else Full, 0, v)
  {
    hide Reached, JustAfter, Drained;
  }

  lemma SameFile(g: Geometry, d: Disk, ch: History, b: Cursor, s: Cursor)
    requires g.Valid() && On(g, d, ch, b) && On(g, d, ch, s) && b.segment == s.segment
    ensures b.instance == s.instance
  {
  }

  /** No cursor is past the end of the log. */
  lemma NotPastLog(g: Geometry, d: Disk, ch: History, c: Cursor)
    requires Inv(g, d, ch) && On(g, d, ch, c)
    ensures c.position <= Genesis(d, ch) + |Log(g, d, ch)|
  {
    hide Inv, Members, ContentOf, JustAfter, OnChain;
    PositionRange(g, d, ch, c);
    BaseCounts(g, d, ch, c.segment);
    InLog(g, d, ch, c.segment, |ch|);
  }

  /** A Roll once committed keeps its slot and its body. */
  lemma StillRolled(g: Geometry, d: Disk, ch: History, e: Disk, dh: History, c: Cursor)
    requires g.Valid() && Advances(g, d, ch, e, dh) && On(g, d, ch, c) && On(g, e, dh, c)
    requires Finds(g, d, ch, c, Found.Roll)
    requires c.slot + ROLL_TOTAL <= |d.files[c.instance].mem|
    ensures Finds(g, e, dh, c, Found.Roll)
    ensures c.slot + ROLL_TOTAL <= |e.files[c.instance].mem|
    ensures RollBody(e.files[c.instance].mem, c.slot) == RollBody(d.files[c.instance].mem, c.slot)
  {
    hide OnChain, End, ContentOf;
    var s, t := d.files[c.instance], e.files[c.instance];
    assert Evolves(g, s, t) by { var _ := ch[c.segment]; }
    var f := Frozen(g, s);
    assert f == c.slot + ROLL_TOTAL;
    assert t.mem[c.slot + HEADER_SLOT..f] == t.mem[..f][c.slot + HEADER_SLOT..]
        == s.mem[..f][c.slot + HEADER_SLOT..] == s.mem[c.slot + HEADER_SLOT..f];
  }

  lemma DeliversIs(files: ChannelFiles, i: nat, r: Record)
    requires files.Valid() && Delivers(files, i, r)
    ensures Holds(files.g, files.disk, files.chain, i, r)
  {
    hide Inv, Members, Holds;
  }

  lemma SameKind(g: Geometry, d: Disk, ch: History, e: Disk, dh: History, c: Cursor)
    requires g.Valid() && Advances(g, d, ch, e, dh) && On(g, d, ch, c)
    ensures c.instance in e.files && e.files[c.instance].generation == d.files[c.instance].generation
  {
    hide OnChain, EndOf, Frozen, Rolled;
    var _ := ch[c.segment];
  }
}
