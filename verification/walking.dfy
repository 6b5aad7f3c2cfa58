/** The header-only walk over a segment that others go on changing: each header is loaded in its turn. */
module Walking {
  import opened Bytes
  import opened Layout
  import opened Chain
  import opened Linking
  import opened SegmentWalk
  import opened Segments
  import opened Channel
  import opened SharedFiles
  import opened Reading
  import opened Readers

  /** File `i` is segment `k`, whether or not a name still leads to it. */
  ghost predicate Tracks(g: Geometry, d: Disk, ch: History, k: nat, i: InstanceId)
    ensures Tracks(g, d, ch, k, i) ==> i in d.files
  {
    k < |ch| && ch[k] == i && i in d.files
  }

  /** Others act; the file stays the segment it was, and only evolves. */
  method Look(files: ChannelFiles, k: nat, i: InstanceId)
    requires files.Valid() && Tracks(files.g, files.disk, files.chain, k, i)
    modifies files
    ensures files.Valid() && old(files.past) <= files.past && Tracks(files.g, files.disk, files.chain, k, i)
    ensures Evolves(files.g, old(files.disk.files[i]), files.disk.files[i])
    ensures |old(files.chain)| <= |files.chain|
    ensures files.Since(old(files.rest), old(files.disk), old(files.chain))
  {
    hide Inv, Members, Evolves, ChannelFiles.Valid;
    ghost var d, ch := files.disk, files.chain;
    Others(files);
    Tracked(files.g, d, ch, files.disk, files.chain, k, i);
  }

  lemma Tracked(g: Geometry, d: Disk, ch: History, e: Disk, dh: History, k: nat, i: InstanceId)
    requires g.Valid() && Advances(g, d, ch, e, dh) && Tracks(g, d, ch, k, i)
    ensures Tracks(g, e, dh, k, i) && Evolves(g, d.files[i], e.files[i])
  {
    hide Evolves;
    assert dh[k] == dh[..|ch|][k] == ch[k];
  }

  /** The walk has come to slot `pos` of the chain of `u`, having counted the `users` records before it. */
  ghost predicate Counted(g: Geometry, u: Segment, pos: nat, users: nat)
    requires g.Valid()
  {
    OnChain(g, u, pos, u.base + users)
  }

  /** Slot `p` held a record of the chain of `s`. */
  ghost predicate HeldAt(g: Geometry, s: Segment, p: nat)
    requires g.Valid()
  {
    Linked(s.mem, g.region, 0, p) && Steppable(s.mem, g.region, p)
  }

  /** The walk has passed nothing that `v` was to stop at, of what stood on the chain of `s`. */
  ghost predicate NotPast(g: Geometry, s: Segment, v: Visitor, pos: nat, users: nat)
    requires g.Valid()
  {
    match v
    case Never => true
    case From(p) => HeldAt(g, s, p) ==> pos <= p
    case Nth(n) => users <= n
  }

  /** The walk over `s`, as it went on to become `u`, has found what `v` asks for, if it stood there from the start. */
  ghost predicate FoundIn(g: Geometry, s: Segment, v: Visitor, w: Walked)
    requires g.Valid()
  {
    && w.Walked? && w.stop != EndOfFile
    && match v
       case Never => true
       case From(p) => HeldAt(g, s, p) ==> w.pos == p
       case Nth(n) => w.users <= n && (n <= |ContentOf(g, s)| ==> w.users == n)
  }

  /** What is counted stays counted. */
  lemma CountedStays(g: Geometry, u: Segment, t: Segment, pos: nat, users: nat)
    requires g.Valid() && Evolves(g, u, t) && Counted(g, u, pos, users)
    ensures Counted(g, t, pos, users)
  {
    hide OnChain, EndOf, Rolled, Frozen;
    ChainStays(g, u, t, pos, u.base + users);
  }

  /** A record that stood on the chain stands there still. */
  lemma HeldStays(g: Geometry, s: Segment, u: Segment, p: nat)
    requires g.Valid() && Evolves(g, s, u) && HeldAt(g, s, p)
    ensures HeldAt(g, u, p)
  {
    hide Steppable, Linked, Records, Rolled, Evolves;
    RecordFrozen(g, s, u, p);
  }

  /** At the end of the chain, or on the record asked for, the walk has found what it was to find. */
  lemma StopsFound(g: Geometry, s: Segment, u: Segment, v: Visitor, pos: nat, users: nat, stop: Stop)
    requires g.Valid() && Evolves(g, s, u) && Counted(g, u, pos, users) && NotPast(g, s, v, pos, users)
    requires pos == EndOf(g, u) || v.Stops(pos, HeaderKind(u.mem, pos), users)
    requires stop != EndOfFile
    ensures FoundIn(g, s, v, Walked(pos, users, stop))
  {
    hide Steppable, Records, Linked, Evolves;
    match v
    case Never =>
    case From(p) =>
      if HeldAt(g, s, p) {
        HeldStays(g, s, u, p);
        BeforeEnd(g, u, p);
      }
    case Nth(n) =>
      if pos == EndOf(g, u) {
        ContentGrows(g, s, u);
        EndPosition(g, u, pos, u.base + users);
      }
  }

  function HeaderKind(m: seq<byte>, p: nat): byte {
    if p + HEADER_SLOT <= |m| then HeaderAt(m, p).kind else 0
  }

  /** One record further. */
  lemma StepsOn(g: Geometry, s: Segment, u: Segment, v: Visitor, pos: nat, users: nat)
    requires g.Valid() && Evolves(g, s, u) && Counted(g, u, pos, users) && NotPast(g, s, v, pos, users)
    requires Steppable(u.mem, g.region, pos) && !v.Stops(pos, HeaderAt(u.mem, pos).kind, users)
    ensures var n := if HeaderAt(u.mem, pos).kind == USER then users + 1 else users;
      Counted(g, u, Next(u.mem, pos), n) && NotPast(g, s, v, Next(u.mem, pos), n)
  {
    hide Records, Evolves, HeaderAt, Next;
    RecordAtSlot(g, u, pos);
    if v.From? && HeldAt(g, s, v.pos) {
      HeldStays(g, s, u, v.pos);
      Split(u.mem, g.region, 0, pos, v.pos);
      Reaches(u.mem, g.region, Next(u.mem, pos), v.pos);
    }
  }

  /** One load of the walk over a segment that nobody changes. */
  lemma WalkUnfolds(g: Geometry, m: seq<byte>, p: nat, users: nat, v: Visitor)
    requires g.Valid() && p + HEADER_SLOT <= |m| && p - p % g.region + g.region <= |m|
    requires p % g.region + HEADER_SLOT <= g.region && HeaderAt(m, p).committed <= 1
    requires HeaderAt(m, p).committed == 1 ==> HeaderAt(m, p).kind <= ROLL
    requires HeaderAt(m, p).committed == 1 && HeaderAt(m, p).kind == ROLL ==>
      HeaderAt(m, p).length == Layout.ROLL_PAYLOAD && g.Room(p, ROLL_TOTAL)
    requires HeaderAt(m, p).committed == 1 && HeaderAt(m, p).kind != ROLL ==>
      HEADER_SLOT + HeaderAt(m, p).length <= g.region - p % g.region
    ensures var h := HeaderAt(m, p);
      Walk(m, g.region, p, users, v) ==
        if h.committed == 0 then Walked(p, users, Uncommitted)
        else if v.Stops(p, h.kind, users) then Walked(p, users, Visited)
        else if h.kind == ROLL then Walked(p, users, AtRoll)
        else Walk(m, g.region, AlignUp(p + HEADER_SLOT + h.length), if h.kind == USER then users + 1 else users, v)
  {
    hide HeaderAt;
  }

  /**
   * `walk_segment` over segment `k`, file `i`. Where it stops is on the chain, with the records before it
   * counted, and it finds what it was asked for if that stood there when it began.
   */
  method WalkOn(files: ChannelFiles, k: nat, i: InstanceId, v: Visitor) returns (w: Walked)
    requires files.Valid() && Tracks(files.g, files.disk, files.chain, k, i)
    modifies files
    ensures files.Valid() && old(files.past) <= files.past && Tracks(files.g, files.disk, files.chain, k, i)
    ensures Evolves(files.g, old(files.disk.files[i]), files.disk.files[i])
    ensures files.g.Valid() && FoundIn(files.g, old(files.disk.files[i]), v, w)
    ensures Counted(files.g, files.disk.files[i], w.pos, w.users)
    ensures files.rest == old(files.rest) ==> w == Walk(old(files.disk.files[i]).mem, files.g.region, 0, 0, v)
  {
    hide Inv, Members, Evolves, ChannelFiles.Valid, HeaderAt, Tracks, Counted, NotPast, FoundIn, Linked, EndOf, Rolled,
      ContentOf, Next, Walk;
    ghost var s := files.disk.files[i];
    WalkBegins(files, k, i, v);
    var pos: nat, users: nat := 0, 0;
    while true
      invariant files.Valid() && old(files.past) <= files.past && Tracks(files.g, files.disk, files.chain, k, i)
      invariant files.g.Valid() && Evolves(files.g, s, files.disk.files[i])
      invariant Counted(files.g, files.disk.files[i], pos, users) && NotPast(files.g, s, v, pos, users)
      invariant files.Since(old(files.rest), old(files.disk), old(files.chain))
      invariant files.rest == old(files.rest) ==>
        Walk(s.mem, files.g.region, pos, users, v) == Walk(s.mem, files.g.region, 0, 0, v)
      decreases files.rest, |files.disk.files[i].mem| - pos
    {
      ghost var u := files.disk.files[i];
      Look(files, k, i);
      var m := files.disk.files[i].mem;
      EvolvesTransitive(files.g, s, u, files.disk.files[i]);
      CountedStays(files.g, u, files.disk.files[i], pos, users);
      ghost var f := SlotCounted(files, k, i, pos, users);
      // The slot lies in a whole region of the file, and its header in the region: `EndOfFile` and the errors of
      // `walk_segment_from` are for damaged files.
      assert pos - pos % files.g.region + files.g.region <= |m| && files.g.region - pos % files.g.region >= HEADER_SLOT;
      WalkUnfolds(files.g, m, pos, users, v);
      var h := HeaderAt(m, pos);
      if h.committed == 0 {
        StopsFound(files.g, s, files.disk.files[i], v, pos, users, Uncommitted);
        return Walked(pos, users, Uncommitted);
      }
      if v.Stops(pos, h.kind, users) {
        StopsFound(files.g, s, files.disk.files[i], v, pos, users, Visited);
        return Walked(pos, users, Visited);
      }
      if h.kind == ROLL {
        StopsFound(files.g, s, files.disk.files[i], v, pos, users, AtRoll);
        return Walked(pos, users, AtRoll);
      }
      StepsOn(files.g, s, files.disk.files[i], v, pos, users);
      users := if h.kind == USER then users + 1 else users;
      pos := AlignUp(pos + HEADER_SLOT + h.length);
    }
  }

  lemma WalkBegins(files: ChannelFiles, k: nat, i: InstanceId, v: Visitor)
    requires files.Valid() && Tracks(files.g, files.disk, files.chain, k, i)
    ensures files.g.Valid() && Evolves(files.g, files.disk.files[i], files.disk.files[i])
    ensures Counted(files.g, files.disk.files[i], 0, 0) && NotPast(files.g, files.disk.files[i], v, 0, 0)
  {
    hide Inv, Members, Evolves, ChannelFiles.Valid, Frozen, Steppable;
    FrozenInside(files.g, files.disk, files.chain, k);
    EvolvesReflexive(files.g, files.disk.files[i]);
  }

  /** What the slot the walk has come to holds. */
  lemma SlotCounted(files: ChannelFiles, k: nat, i: InstanceId, pos: nat, users: nat) returns (f: Found)
    requires files.Valid() && Tracks(files.g, files.disk, files.chain, k, i) && files.g.Valid()
    requires Counted(files.g, files.disk.files[i], pos, users)
    ensures var g, u := files.g, files.disk.files[i];
      && pos + HEADER_SLOT <= |u.mem| && pos - pos % g.region + g.region <= |u.mem|
      && pos % g.region + HEADER_SLOT <= g.region
      && var h := HeaderAt(u.mem, pos);
      && h.committed <= 1 && (h.committed == 1 ==> h.kind <= ROLL)
      && (if h.committed == 1 && h.kind != ROLL then Steppable(u.mem, g.region, pos) && pos < Next(u.mem, pos)
          else pos == EndOf(g, u))
      && (h.committed == 1 && h.kind != ROLL ==> Next(u.mem, pos) == AlignUp(pos + HEADER_SLOT + h.length))
      && (h.committed == 1 && h.kind != ROLL ==> HEADER_SLOT + h.length <= g.region - pos % g.region)
      && (h.committed == 1 && h.kind == ROLL ==> h.length == Layout.ROLL_PAYLOAD && g.Room(pos, ROLL_TOTAL))
  {
    hide Inv, Members, ChannelFiles.Valid, Linked, Records, EndOf, Rolled, Sound, HeaderAt, Next, Steppable;
    var u := files.disk.files[i];
    var c := Cursor(k, i, pos, u.base + users);
    f := SlotHolds(files.g, files.disk, files.chain, c);
    AlwaysSound(files.g, files.disk, files.chain, k);
    SlotMapped(files.g, u, pos);
    if f == User || f == Service {
      NextSlot(files.g, u.mem, pos);
      StepTo(files.g, u.mem, pos);
    }
  }
}
