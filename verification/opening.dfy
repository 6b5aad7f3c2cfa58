/** Where a new reader starts: at the head, without a lock. */
module Opening {
  import opened Layout
  import opened Chain
  import opened SegmentWalk
  import opened Segments
  import opened Channel
  import opened Linking
  import opened SharedFiles
  import opened Reading
  import opened Walking
  import opened Retention

  /** Segment `k` is there, published. */
  predicate PublishedAt(d: Disk, k: nat) {
    k in d.names && d.names[k] in d.files && d.files[d.names[k]].published
  }

  /** What a `Live` open asks of a segment after loading its position: is the next one published, or this one gone? */
  predicate Newer(d: Disk, k: nat) {
    PublishedAt(d, k + 1) || k !in d.names
  }

  lemma NewerAt(g: Geometry, d: Disk, ch: History, k: nat)
    requires Inv(g, d, ch) && k + 1 < |ch|
    ensures Newer(d, k) <==> k !in d.names || k + 1 in d.names
  {
    hide Inv, Members;
    if k + 1 in d.names { NamedPublished(g, d, ch, k + 1); }
  }

  lemma NamedPublished(g: Geometry, d: Disk, ch: History, k: nat)
    requires Inv(g, d, ch) && 0 < k < |ch| && k in d.names
    ensures d.names[k] == ch[k] && d.names[k] in d.files && d.files[d.names[k]].published
  {
    hide Inv, Members, Open, Leads, Settled, ContentOf, Closing, Done;
    NamedNext(g, d, ch, k);
    Facts(g, d, ch, k);
  }

  // ---------- starting at the head ----------

  /** An open segment's position names a slot of its chain; where the chain stops there, the count is exact. */
  lemma PositionOnChain(g: Geometry, s: Segment)
    requires g.Valid() && Open(g, s)
    ensures s.writePosition >= HEADER_SLOT && Linked(s.mem, g.region, 0, s.writePosition - HEADER_SLOT)
    ensures s.writePosition - HEADER_SLOT <= EndOf(g, s)
    ensures EndOf(g, s) <= s.writePosition - HEADER_SLOT ==> s.messageCount == |ContentOf(g, s)|
  {
    hide Steppable, Geometry.Prealloc, Records, Next;
    if Orphaned(g, s) && !Settled(g, s) {
      var o := s.writePosition - HEADER_SLOT;
      BeforeEnd(g, s, o);
    }
  }

  /**
   * The position acquired first, the count second, the slot last: a slot where the chain still stops makes
   * the pair consistent.
   */
  lemma PairConsistent(g: Geometry, s: Segment, t: Segment, u: Segment)
    requires g.Valid() && Open(g, s) && Open(g, t) && Evolves(g, s, t) && Evolves(g, t, u)
    ensures var p := s.writePosition - HEADER_SLOT;
      && p >= 0 && Linked(u.mem, g.region, 0, p)
      && (p == EndOf(g, u) ==> t.messageCount == |Records(u.mem, g.region, 0, p)|)
  {
    hide Open, Rolled, Linked, Records, Steppable, ContentOf;
    PositionOnChain(g, s);
    PositionOnChain(g, t);
    var p := s.writePosition - HEADER_SLOT;
    ChainStays(g, s, t, p, s.base + |Records(s.mem, g.region, 0, p)|);
    ChainStays(g, t, u, p, t.base + |Records(t.mem, g.region, 0, p)|);
    BeforeEnd(g, t, p);
    if p == EndOf(g, u) {
      ContentRecords(g, t);
    }
  }

  lemma ContentRecords(g: Geometry, s: Segment)
    requires g.Valid()
    ensures Linked(s.mem, g.region, 0, EndOf(g, s)) && ContentOf(g, s) == Records(s.mem, g.region, 0, EndOf(g, s))
  {
  }

  /** If a file is the newest segment, it is open. */
  lemma NewestIsOpen(g: Geometry, d: Disk, ch: History, k: nat, i: InstanceId)
    requires Inv(g, d, ch) && Tracks(g, d, ch, k, i) && k + 1 == |ch|
    ensures g.Valid() && Open(g, d.files[i])
  {
    hide Inv, Members, Open, ContentOf, Settled;
    Facts(g, d, ch, k);
  }

  /** With segments unlinked oldest first, a segment still named whose successor is not published is the newest. */
  lemma StillNewest(g: Geometry, d: Disk, ch: History, k: nat, i: InstanceId)
    requires Inv(g, d, ch) && Tracks(g, d, ch, k, i) && OldestFirst(d.names, |ch|) && !Newer(d, k)
    ensures k + 1 == |ch|
  {
    hide Inv, Members;
    if k + 1 < |ch| {
      NewerAt(g, d, ch, k);
    }
  }

  lemma TrackedSound(g: Geometry, d: Disk, ch: History, k: nat, i: InstanceId)
    requires Inv(g, d, ch) && Tracks(g, d, ch, k, i)
    ensures g.Valid() && Sound(g, d.files[i]) && |d.files[i].mem| % g.region == 0
  {
    hide Inv, Members, EndOf, Linked, Geometry.Prealloc;
    AlwaysSound(g, d, ch, k);
  }

  datatype Live = Start(slot: nat, position: nat) | Stale | PastEnd | OffChain

  /** A header slot of a region that lies inside the file. */
  predicate InFile(r: nat, slot: nat, n: nat)
    requires r > 0
    ensures InFile(r, slot, n) ==> slot + HEADER_SLOT <= n
  {
    RegionStart(slot, r) + r <= n && slot % r + HEADER_SLOT <= r
  }

  /** The slot a write position publishes. */
  function SlotOf(wp: nat): nat {
    if wp >= HEADER_SLOT then wp - HEADER_SLOT else 0
  }

  /**
   * What is made of a position and a count loaded earlier, and of the segment as it is when the slot is
   * looked at: with a record there, the count is taken afresh from the chain, if the slot is on it.
   */
  ghost function LiveAt(g: Geometry, wp: nat, count: nat, u: Segment): Live
    requires g.Valid()
  {
    var slot := SlotOf(wp);
    if !InFile(g.region, slot, |u.mem|) then PastEnd
    else
      var h := HeaderAt(u.mem, slot);
      if h.committed > 1 || (h.committed == 1 && h.kind > ROLL) then OffChain
      else if h.committed == 0 || h.kind == ROLL then Start(slot, u.base + count)
      else if Linked(u.mem, g.region, 0, slot) then Start(slot, u.base + |Records(u.mem, g.region, 0, slot)|)
      else OffChain
  }

  /** A start on the record chain of segment `k`, file `i`, with the index of the record there. */
  ghost predicate Right(g: Geometry, d: Disk, ch: History, k: nat, i: InstanceId, r: Live)
    requires g.Valid()
  {
    r.Start? && On(g, d, ch, Cursor(k, i, r.slot, r.position))
  }

  /** With the position and the count loaded while the segment was open, the start is right. */
  lemma StartFound(g: Geometry, s: Segment, t: Segment, d: Disk, ch: History, k: nat, i: InstanceId)
    requires Inv(g, d, ch) && Tracks(g, d, ch, k, i)
    requires g.Valid() && Open(g, s) && Open(g, t) && Evolves(g, s, t) && Evolves(g, t, d.files[i])
    ensures Right(g, d, ch, k, i, LiveAt(g, s.writePosition, t.messageCount, d.files[i]))
  {
    hide Inv, Members, Open, Evolves, Steppable, HeaderAt, Linked, Records, EndOf, Rolled, RegionStart;
    PairConsistent(g, s, t, d.files[i]);
    var u, p := d.files[i], s.writePosition - HEADER_SLOT;
    var c := Cursor(k, i, p, u.base + |Records(u.mem, g.region, 0, p)|);
    var f := SlotHolds(g, d, ch, c);
    TrackedSound(g, d, ch, k, i);
    SlotMapped(g, u, p);
  }

  // ---------- the loads, one by one ----------

  /**
   * The moments at which a `Live` open loads the position and the count, asks for a newer segment and for
   * this one's name, and looks at the slot.
   */
  datatype Loads = Loads(position: nat, count: nat, newer: nat, name: nat, slot: nat)
  {
    predicate Within(from: nat, n: nat) {
      from <= position <= count <= newer <= name <= slot < n
    }
  }

  /** What was loaded of segment `k`, file `i`, at those moments: no newer segment, and answer `r`. */
  ghost predicate Answered(g: Geometry, past: seq<Moment>, k: nat, i: InstanceId, l: Loads, r: Live)
    requires g.Valid() && l.Within(0, |past|)
  {
    && i in past[l.position].disk.files && i in past[l.count].disk.files && i in past[l.slot].disk.files
    && !PublishedAt(past[l.newer].disk, k + 1) && k in past[l.name].disk.names
    && r == LiveAt(g, past[l.position].disk.files[i].writePosition, past[l.count].disk.files[i].messageCount,
        past[l.slot].disk.files[i])
  }

  /** Between any two moments a file stays the segment it was, evolving, and a name once gone stays gone. */
  lemma Meantime(g: Geometry, past: seq<Moment>, a: nat, b: nat, k: nat, i: InstanceId)
    requires Recorded(g, past) && a <= b < |past| && Tracks(g, past[a].disk, past[a].chain, k, i)
    ensures g.Valid() && Inv(g, past[a].disk, past[a].chain) && Inv(g, past[b].disk, past[b].chain)
    ensures Tracks(g, past[b].disk, past[b].chain, k, i) && Evolves(g, past[a].disk.files[i], past[b].disk.files[i])
    ensures |past[a].chain| <= |past[b].chain|
    ensures k in past[b].disk.names ==> k in past[a].disk.names
  {
    hide Inv, Evolves, Tracks;
    assert Inv(g, past[a].disk, past[a].chain);
    Tracked(g, past[a].disk, past[a].chain, past[b].disk, past[b].chain, k, i);
    NameKept(g, past[a].disk, past[a].chain, past[b].disk, past[b].chain, k, i);
  }

  lemma NameKept(g: Geometry, d: Disk, ch: History, e: Disk, dh: History, k: nat, i: InstanceId)
    requires g.Valid() && Advances(g, d, ch, e, dh) && Tracks(g, d, ch, k, i)
    ensures |ch| <= |dh| && (k in e.names ==> k in d.names)
  {
    hide Evolves;
  }

  /** With segments unlinked oldest first when the newer one was asked for, the answer is right. */
  lemma AnswerRight(g: Geometry, past: seq<Moment>, k: nat, i: InstanceId, l: Loads, r: Live)
    requires Recorded(g, past) && g.Valid() && l.Within(0, |past|) && Answered(g, past, k, i, l, r)
    requires Tracks(g, past[l.position].disk, past[l.position].chain, k, i)
    requires OldestFirst(past[l.newer].disk.names, |past[l.newer].chain|)
    ensures Right(g, past[l.slot].disk, past[l.slot].chain, k, i, r)
  {
    hide Recorded, Inv, Evolves, Tracks, OldestFirst, Open, LiveAt, PublishedAt, Right;
    Meantime(g, past, l.position, l.count, k, i);
    Meantime(g, past, l.count, l.newer, k, i);
    Meantime(g, past, l.newer, l.name, k, i);
    Meantime(g, past, l.count, l.slot, k, i);
    TrackedIndex(g, past[l.position].disk, past[l.position].chain, k, i);
    StillNewest(g, past[l.newer].disk, past[l.newer].chain, k, i);
    NewestIsOpen(g, past[l.position].disk, past[l.position].chain, k, i);
    NewestIsOpen(g, past[l.count].disk, past[l.count].chain, k, i);
    StartFound(g, past[l.position].disk.files[i], past[l.count].disk.files[i], past[l.slot].disk, past[l.slot].chain,
        k, i);
  }

  lemma TrackedIndex(g: Geometry, d: Disk, ch: History, k: nat, i: InstanceId)
    requires Tracks(g, d, ch, k, i)
    ensures k < |ch|
  {
  }

  /** At every moment from `from` on, segments had been unlinked oldest first. */
  ghost predicate Orderly(past: seq<Moment>, from: nat) {
    forall m :: from <= m < |past| ==> OldestFirst(past[m].disk.names, |past[m].chain|)
  }

  /** At some moment the segment after `k` was published, or later `k`'s name gone. */
  ghost predicate Superseded(past: seq<Moment>, from: nat, k: nat) {
    || (exists m :: from <= m < |past| && PublishedAt(past[m].disk, k + 1))
    || (exists m :: from <= m < |past| && k !in past[m].disk.names)
  }

  /** What a `Live` open answers is what its loads come to. */
  ghost predicate Explained(g: Geometry, past: seq<Moment>, from: nat, k: nat, i: InstanceId, r: Live)
    requires g.Valid()
  {
    if r.Stale? then Superseded(past, from, k)
    else exists l: Loads :: l.Within(from, |past|) && Answered(g, past, k, i, l, r)
  }

  /** The newest moment is now. */
  lemma Now(files: ChannelFiles)
    requires files.Valid()
    ensures files.past != [] && files.past[|files.past| - 1] == Moment(files.disk, files.chain)
    ensures Recorded(files.g, files.past)
    ensures files.g.Valid()
  {
    hide Inv, Recorded;
  }

  /** The loads before the slot, `named` leaving open what the name's was: the position and the count as loaded. */
  ghost predicate Loaded(g: Geometry, past: seq<Moment>, from: nat, k: nat, i: InstanceId, l: Loads, wp: nat,
      count: nat) {
    && from <= l.position <= l.count <= l.newer <= l.name < |past|
    && Tracks(g, past[l.position].disk, past[l.position].chain, k, i) && i in past[l.count].disk.files
    && wp == past[l.position].disk.files[i].writePosition && count == past[l.count].disk.files[i].messageCount
  }

  /** Whether the answer, at those moments, was that there is a newer segment. */
  ghost predicate SaysNewer(past: seq<Moment>, k: nat, l: Loads)
    requires l.newer < |past| && l.name < |past|
  {
    PublishedAt(past[l.newer].disk, k + 1) || k !in past[l.name].disk.names
  }

  /** `newer_segment_exists`: whether the next segment is published, then whether this one's name is gone. */
  method NewerSegmentExists(files: ChannelFiles, k: nat, i: InstanceId) returns (newer: bool, ghost asked: nat)
    requires files.Valid() && Tracks(files.g, files.disk, files.chain, k, i)
    modifies files
    ensures files.Valid() && old(files.past) <= files.past && Tracks(files.g, files.disk, files.chain, k, i)
    ensures 0 < |old(files.past)| <= asked + 1 <= |files.past|
    ensures newer <==> PublishedAt(files.past[asked].disk, k + 1) || k !in files.past[|files.past| - 1].disk.names
  {
    hide Inv, Members, Evolves, ChannelFiles.Valid, PublishedAt, Tracks, Recorded;
    Now(files);
    Look(files, k, i);
    Now(files);
    asked := |files.past| - 1;
    var published := PublishedAt(files.disk, k + 1);
    ghost var past := files.past;
    Look(files, k, i);
    Now(files);
    assert files.past[asked] == past[asked];
    newer := published || k !in files.disk.names;
  }

  /** The position, then the count, then whether there is a newer segment. */
  method LoadPair(files: ChannelFiles, k: nat, i: InstanceId) returns (wp: nat, count: nat, newer: bool, ghost l: Loads)
    requires files.Valid() && Tracks(files.g, files.disk, files.chain, k, i)
    modifies files
    ensures files.Valid() && old(files.past) <= files.past && Tracks(files.g, files.disk, files.chain, k, i)
    ensures 0 < |old(files.past)| && Loaded(files.g, files.past, |old(files.past)| - 1, k, i, l, wp, count)
    ensures newer <==> SaysNewer(files.past, k, l)
  {
    hide Inv, Members, Evolves, ChannelFiles.Valid, PublishedAt, Tracks, Recorded;
    Now(files);
    Look(files, k, i);
    Now(files);
    wp := files.disk.files[i].writePosition;
    ghost var first := files.past;
    Look(files, k, i);
    Now(files);
    count := files.disk.files[i].messageCount;
    ghost var second := files.past;
    ghost var asked;
    newer, asked := NewerSegmentExists(files, k, i);
    l := Loads(|first| - 1, |second| - 1, asked, |files.past| - 1, 0);
    assert files.past[l.position] == second[l.position] == first[l.position] && files.past[l.count] == second[l.count];
  }

  lemma LoadedStays(g: Geometry, past: seq<Moment>, now: seq<Moment>, from: nat, k: nat, i: InstanceId, l: Loads,
      wp: nat, count: nat)
    requires Loaded(g, past, from, k, i, l, wp, count) && past <= now
    ensures Loaded(g, now, from, k, i, l, wp, count) && SaysNewer(now, k, l) == SaysNewer(past, k, l)
  {
    hide Tracks, PublishedAt;
    assert now[l.position] == past[l.position] && now[l.count] == past[l.count];
    assert now[l.newer] == past[l.newer] && now[l.name] == past[l.name];
  }

  lemma Supersedes(g: Geometry, past: seq<Moment>, from: nat, k: nat, i: InstanceId, l: Loads)
    requires g.Valid() && from <= l.newer < |past| && from <= l.name < |past| && SaysNewer(past, k, l)
    ensures Explained(g, past, from, k, i, Stale)
  {
    hide PublishedAt;
  }

  /** The answer at the slot, now that it is looked at. */
  lemma AnswerFound(files: ChannelFiles, from: nat, k: nat, i: InstanceId, l: Loads, wp: nat, count: nat)
    requires files.Valid() && Tracks(files.g, files.disk, files.chain, k, i)
    requires Loaded(files.g, files.past, from, k, i, l, wp, count) && !SaysNewer(files.past, k, l)
    ensures files.g.Valid()
    ensures var r := LiveAt(files.g, wp, count, files.disk.files[i]);
      && Explained(files.g, files.past, from, k, i, r)
      && (Orderly(files.past, from) ==> Right(files.g, files.disk, files.chain, k, i, r))
  {
    hide Inv, ChannelFiles.Valid, LiveAt, PublishedAt, Right, Tracks, Recorded, OldestFirst;
    Now(files);
    var a := l.(slot := |files.past| - 1);
    var r := LiveAt(files.g, wp, count, files.disk.files[i]);
    NotStale(files.g, wp, count, files.disk.files[i]);
    assert files.past[a.slot] == Moment(files.disk, files.chain);
    assert a.Within(from, |files.past|) && Answered(files.g, files.past, k, i, a, r);
    if Orderly(files.past, from) {
      AnswerRight(files.g, files.past, k, i, a, r);
    }
  }

  lemma NotStale(g: Geometry, wp: nat, count: nat, u: Segment)
    requires g.Valid()
    ensures !LiveAt(g, wp, count, u).Stale?
  {
    hide HeaderAt, Linked, Records;
  }

  /**
   * Where a `Live` reader starts in segment `k`, file `i`: the position, then the count, then whether a
   * newer segment exists, then the slot, with anything happening in between. A committed record at the
   * slot is waited on `spins` times, then the segment is walked.
   */
  method LiveStart(files: ChannelFiles, k: nat, i: InstanceId, spins: nat) returns (r: Live)
    requires files.Valid() && Tracks(files.g, files.disk, files.chain, k, i)
    modifies files
    ensures files.Valid() && old(files.past) <= files.past && files.g.Valid() && old(files.past) != []
    ensures Explained(files.g, files.past, |old(files.past)| - 1, k, i, r)
    ensures Orderly(files.past, |old(files.past)| - 1) && !r.Stale? ==> Right(files.g, files.disk, files.chain, k, i, r)
  {
    hide Inv, Members, Evolves, ChannelFiles.Valid, HeaderAt, InFile, Tracks, Right, Recorded, SaysNewer, Orderly,
      Loaded, Superseded, Explained, Linked, Records, Counted, FoundIn;
    Now(files);
    ghost var from := |files.past| - 1;
    var left := spins;
    while true
      invariant files.Valid() && old(files.past) <= files.past && Tracks(files.g, files.disk, files.chain, k, i)
      decreases left
    {
      ghost var start := files.past;
      var wp, count, newer;
      ghost var l;
      wp, count, newer, l := LoadPair(files, k, i);
      LoadedSince(files.g, files.past, |start| - 1, from, k, i, l, wp, count);
      if newer {
        Supersedes(files.g, files.past, from, k, i, l);
        return Stale;
      }
      ghost var past := files.past;
      Look(files, k, i);
      LoadedStays(files.g, past, files.past, from, k, i, l, wp, count);
      AnswerFound(files, from, k, i, l, wp, count);
      var now := files.disk.files[i];
      var slot := if wp >= HEADER_SLOT then wp - HEADER_SLOT else 0;
      if !InFile(files.g.region, slot, |now.mem|) { return PastEnd; }
      var h := HeaderAt(now.mem, slot);
      if h.committed > 1 || (h.committed == 1 && h.kind > ROLL) { return OffChain; }
      if h.committed == 0 || h.kind == ROLL { return Start(slot, now.base + count); }
      if left == 0 {
        r := WalkToSlot(files, k, i, slot, from, l, wp, count);
        return;
      }
      left := left - 1;
    }
  }

  /** The walk of a `Live` open over a segment whose slot holds a record: the count is that of the records before it. */
  method WalkToSlot(files: ChannelFiles, k: nat, i: InstanceId, slot: nat, ghost from: nat, ghost l: Loads,
      ghost wp: nat, ghost count: nat) returns (r: Live)
    requires files.Valid() && Tracks(files.g, files.disk, files.chain, k, i) && files.g.Valid() && slot == SlotOf(wp)
    requires Loaded(files.g, files.past, from, k, i, l, wp, count)
    requires InFile(files.g.region, slot, |files.disk.files[i].mem|)
    requires HeaderAt(files.disk.files[i].mem, slot).committed == 1
    requires HeaderAt(files.disk.files[i].mem, slot).kind < ROLL
    requires var a := LiveAt(files.g, wp, count, files.disk.files[i]);
      && Explained(files.g, files.past, from, k, i, a)
      && (Orderly(files.past, from) ==> Right(files.g, files.disk, files.chain, k, i, a))
    modifies files
    ensures files.Valid() && old(files.past) <= files.past && Explained(files.g, files.past, from, k, i, r)
    ensures !r.Stale? && (Orderly(files.past, from) ==> Right(files.g, files.disk, files.chain, k, i, r))
  {
    hide Inv, Members, Evolves, ChannelFiles.Valid, HeaderAt, InFile, Tracks, Right, Recorded, Orderly, Loaded,
      Explained, Linked, Records, Counted, FoundIn, Sound, EndOf, Rolled, Placed;
    ghost var past, u, a := files.past, files.disk.files[i], LiveAt(files.g, wp, count, files.disk.files[i]);
    PlaceFound(files, from, k, i, l, wp, count);
    LookedSound(files, k, i);
    Now(files);
    NotStale(files.g, wp, count, u);
    var base := files.disk.files[i].base;
    var w := WalkOn(files, k, i, From(slot));
    WalkAnswers(files.g, u, files.disk.files[i], slot, w);
    AnswerKept(files, past, from, k, i, a);
    if w.Corrupt? || w.pos != slot { return OffChain; }
    return Start(slot, base + w.users);
  }

  /** Where a segment's position leads: no further than its chain, unless the chain has ended on a Roll. */
  ghost predicate Placed(g: Geometry, u: Segment, slot: nat)
    requires g.Valid()
  {
    slot <= EndOf(g, u) || Rolled(g, u)
  }

  lemma PositionPlaced(g: Geometry, d: Disk, ch: History, k: nat, i: InstanceId)
    requires Inv(g, d, ch) && Tracks(g, d, ch, k, i)
    ensures g.Valid() && Placed(g, d.files[i], SlotOf(d.files[i].writePosition))
  {
    hide Inv, Members, Member, Leads, ContentOf, EndOf, Settled, Orphaned, Rolled, RollAt, Sound;
    Facts(g, d, ch, k);
    if Open(g, d.files[i]) { OpenPlaced(g, d.files[i]); }
  }

  lemma LookedSound(files: ChannelFiles, k: nat, i: InstanceId)
    requires files.Valid() && Tracks(files.g, files.disk, files.chain, k, i) && files.g.Valid()
    ensures var u := files.disk.files[i];
      Sound(files.g, u) && u.mem[EndOf(files.g, u)] == if Rolled(files.g, u) then 1 else 0
  {
    hide Inv, Members, ChannelFiles.Valid, EndOf, Rolled, Sound, ContentOf, Log;
    EndState(files.g, files.disk, files.chain, k);
  }

  lemma OpenPlaced(g: Geometry, s: Segment)
    requires g.Valid() && Open(g, s)
    ensures SlotOf(s.writePosition) <= EndOf(g, s)
  {
    hide Open, Records, Steppable, Linked;
    PositionOnChain(g, s);
  }

  lemma PlacedStays(g: Geometry, s: Segment, u: Segment, slot: nat)
    requires g.Valid() && Evolves(g, s, u) && Placed(g, s, slot)
    ensures Placed(g, u, slot)
  {
    hide EndOf, Rolled, Frozen;
  }

  /** The position loaded some moments ago is still placed so. */
  lemma PlaceFound(files: ChannelFiles, from: nat, k: nat, i: InstanceId, l: Loads, wp: nat, count: nat)
    requires files.Valid() && Tracks(files.g, files.disk, files.chain, k, i)
    requires Loaded(files.g, files.past, from, k, i, l, wp, count)
    ensures files.g.Valid() && Placed(files.g, files.disk.files[i], SlotOf(wp))
  {
    hide Inv, ChannelFiles.Valid, Tracks, Recorded, Placed, Evolves;
    Now(files);
    var m := files.past[l.position];
    Meantime(files.g, files.past, l.position, |files.past| - 1, k, i);
    PositionPlaced(files.g, m.disk, m.chain, k, i);
    PlacedStays(files.g, m.disk.files[i], files.disk.files[i], SlotOf(wp));
  }

  /** The walk made while others act comes to the answer that the chain gave when the slot was looked at. */
  lemma WalkAnswers(g: Geometry, u: Segment, t: Segment, slot: nat, w: Walked)
    requires g.Valid() && Evolves(g, u, t) && Placed(g, u, slot) && FoundIn(g, u, From(slot), w)
    requires Counted(g, t, w.pos, w.users) && slot + HEADER_SLOT <= |u.mem|
    requires HeaderAt(u.mem, slot).committed == 1 && HeaderAt(u.mem, slot).kind < ROLL && Sound(g, u)
    requires u.mem[EndOf(g, u)] == if Rolled(g, u) then 1 else 0
    ensures w.Walked? && (w.pos == slot <==> Linked(u.mem, g.region, 0, slot))
    ensures w.pos == slot ==> w.users == |Records(u.mem, g.region, 0, slot)|
  {
    hide Steppable, Records, Linked, EndOf, Evolves, Placed, Rolled, ContentOf, Sound, HeaderAt;
    if Linked(u.mem, g.region, 0, slot) {
      RecordHeld(g, u, slot);
      ChainStays(g, u, t, slot, u.base + |Records(u.mem, g.region, 0, slot)|);
      BaseStays(g, u, t);
    } else if w.pos == slot {
      LinkedBack(g, u, t, slot);
    }
  }

  lemma BaseStays(g: Geometry, s: Segment, t: Segment)
    requires g.Valid() && Evolves(g, s, t)
    ensures t.base == s.base
  {
    hide EndOf, Frozen, Rolled;
  }

  /** A committed slot of the chain that holds no Roll is one of its records. */
  lemma RecordHeld(g: Geometry, u: Segment, slot: nat)
    requires g.Valid() && Linked(u.mem, g.region, 0, slot) && slot + HEADER_SLOT <= |u.mem|
    requires HeaderAt(u.mem, slot).committed == 1 && HeaderAt(u.mem, slot).kind < ROLL && Sound(g, u)
    requires u.mem[EndOf(g, u)] == if Rolled(g, u) then 1 else 0
    ensures HeldAt(g, u, slot)
  {
    hide Steppable, Records, Linked, EndOf, ContentOf, Sound;
    BeforeEnd(g, u, slot);
  }

  /** A slot that a segment's position was placed at is on the chain only if it was. */
  lemma LinkedBack(g: Geometry, u: Segment, t: Segment, slot: nat)
    requires g.Valid() && Evolves(g, u, t) && Placed(g, u, slot) && Linked(t.mem, g.region, 0, slot)
    ensures Linked(u.mem, g.region, 0, slot)
  {
    hide Steppable, Records, Linked, EndOf, RollAt, ContentOf, Sound;
    BeforeEnd(g, t, slot);
    var f := Frozen(g, u);
    assert slot <= f;
    assert u.mem[..slot] == u.mem[..f][..slot] == t.mem[..f][..slot] == t.mem[..slot];
    SameChain(t.mem, u.mem, g.region, 0, slot);
  }

  /** An answer given stays explained, and right if it was. */
  lemma AnswerKept(files: ChannelFiles, past: seq<Moment>, from: nat, k: nat, i: InstanceId, r: Live)
    requires files.Valid() && past != [] && past <= files.past && files.g.Valid()
    requires Explained(files.g, past, from, k, i, r) && !r.Stale?
    requires var m := past[|past| - 1]; Orderly(past, from) ==> Right(files.g, m.disk, m.chain, k, i, r)
    ensures Explained(files.g, files.past, from, k, i, r)
    ensures Orderly(files.past, from) ==> Right(files.g, files.disk, files.chain, k, i, r)
  {
    hide Inv, ChannelFiles.Valid, LiveAt, PublishedAt, OldestFirst, On, Advances;
    Now(files);
    var l: Loads :| l.Within(from, |past|) && Answered(files.g, past, k, i, l, r);
    var now := files.past;
    assert now[l.position] == past[l.position] && now[l.count] == past[l.count] && now[l.newer] == past[l.newer];
    assert now[l.name] == past[l.name] && now[l.slot] == past[l.slot];
    assert Answered(files.g, now, k, i, l, r);
    if Orderly(now, from) {
      OrderlyBefore(past, now, from);
      var m := past[|past| - 1];
      assert now[|past| - 1] == m;
      assert Advances(files.g, m.disk, m.chain, files.disk, files.chain);
      OnStays(files.g, m.disk, m.chain, files.disk, files.chain, Cursor(k, i, r.slot, r.position));
    }
  }

  lemma OrderlyBefore(past: seq<Moment>, now: seq<Moment>, from: nat)
    requires past <= now && Orderly(now, from)
    ensures Orderly(past, from)
  {
    hide OldestFirst;
    forall m | from <= m < |past|
      ensures OldestFirst(past[m].disk.names, |past[m].chain|)
    {
      assert now[m] == past[m];
    }
  }

  lemma LoadedSince(g: Geometry, past: seq<Moment>, start: nat, from: nat, k: nat, i: InstanceId, l: Loads, wp: nat,
      count: nat)
    requires Loaded(g, past, start, k, i, l, wp, count) && from <= start
    ensures Loaded(g, past, from, k, i, l, wp, count)
    ensures from <= l.newer < |past| && from <= l.name < |past|
  {
    hide Tracks;
  }

  // ---------- when a start is right ----------

  /** On a disk at rest, a `Live` open of segment `k` goes on to a newer one or starts right. */
  ghost predicate StartsWell(g: Geometry, d: Disk, ch: History, k: nat)
    requires g.Valid() && k < |ch| && ch[k] in d.files
  {
    || Newer(d, k)
    || Right(g, d, ch, k, ch[k], LiveAt(g, Seg(d, ch, k).writePosition, Seg(d, ch, k).messageCount, Seg(d, ch, k)))
  }

  ghost predicate AllStartWell(g: Geometry, d: Disk, ch: History)
    requires Inv(g, d, ch)
  {
    forall k {:trigger ch[k]} :: 0 <= k < |ch| ==> StartsWell(g, d, ch, k)
  }

  /** Past a gap a finished segment passes for the newest, and its position leads off the record chain. */
  lemma HoleMisleads(g: Geometry, d: Disk, ch: History, k: nat)
    requires Inv(g, d, ch) && k + 1 < |ch| && k in d.names && k + 1 !in d.names
    ensures ch[k] in d.files && !StartsWell(g, d, ch, k)
  {
    hide Inv, Members, LiveAt, Done, PublishedAt, Right;
    HoleDone(g, d, ch, k);
    DoneMisleads(g, d, ch, k);
  }

  lemma HoleDone(g: Geometry, d: Disk, ch: History, k: nat)
    requires Inv(g, d, ch) && k + 1 < |ch| && k in d.names && k + 1 !in d.names
    ensures ch[k] in d.files && Done(g, Seg(d, ch, k)) && !Newer(d, k)
  {
    hide Inv, Members, Done, ContentOf, Leads, Closing, Settled, Open, Member;
    Facts(g, d, ch, k);
    NewestNamed(g, d, ch);
  }

  /** The slot one past a finished Roll is never on the chain, whatever bytes are there. */
  lemma DoneMisleads(g: Geometry, d: Disk, ch: History, k: nat)
    requires Inv(g, d, ch) && k < |ch| && ch[k] in d.files && Done(g, Seg(d, ch, k))
    ensures var s := Seg(d, ch, k);
      g.Valid() && !Right(g, d, ch, k, ch[k], LiveAt(g, s.writePosition, s.messageCount, s))
  {
    hide Inv, Members, Steppable, Linked, Records, RollAt, ContentOf, HeaderAt, Walk, InFile;
    var s := Seg(d, ch, k);
    var slot := s.writePosition - HEADER_SLOT;
    if Linked(s.mem, g.region, 0, slot) {
      BeforeEnd(g, s, slot);
    }
  }

  /** Opens at rest all go well if and only if segments have been unlinked oldest first. */
  lemma StartsExact(g: Geometry, d: Disk, ch: History)
    requires Inv(g, d, ch)
    ensures AllStartWell(g, d, ch) <==> OldestFirst(d.names, |ch|)
  {
    hide Inv, Members, StartsWell;
    if OldestFirst(d.names, |ch|) {
      forall k | 0 <= k < |ch|
        ensures StartsWell(g, d, ch, k)
      {
        MemberFiles(g, d, ch, k);
        OrderStartsWell(g, d, ch, k);
      }
    }
    if AllStartWell(g, d, ch) {
      forall k | k in d.names && k + 1 < |ch|
        ensures k + 1 in d.names
      {
        var _ := ch[k];
        if k + 1 !in d.names { HoleMisleads(g, d, ch, k); }
      }
    }
  }

  lemma OrderStartsWell(g: Geometry, d: Disk, ch: History, k: nat)
    requires Inv(g, d, ch) && k < |ch| && ch[k] in d.files && OldestFirst(d.names, |ch|)
    ensures StartsWell(g, d, ch, k)
  {
    hide Inv, Members, LiveAt, Right, PublishedAt, OldestFirst, Open, Evolves;
    if !Newer(d, k) {
      assert Tracks(g, d, ch, k, ch[k]);
      StillNewest(g, d, ch, k, ch[k]);
      NewestIsOpen(g, d, ch, k, ch[k]);
      FrozenInside(g, d, ch, k);
      EvolvesReflexive(g, Seg(d, ch, k));
      StartFound(g, Seg(d, ch, k), Seg(d, ch, k), d, ch, k, ch[k]);
    }
  }

  /**
   * Opens after a roll and its retention all go well if and only if nothing older was left than the segment
   * retention drops.
   */
  lemma RollStartsExact(g: Geometry, d: Disk, ch: History, e: Disk, dh: History, keep: nat)
    requires Inv(g, d, ch) && Inv(g, e, dh) && OldestFirst(d.names, |ch|)
    requires |dh| == |ch| + 1 && e.names == Pruned(d.names[|ch| := dh[|ch|]], |ch|, keep)
    ensures AllStartWell(g, e, dh) <==> Spent(d.names, |ch|, keep)
  {
    hide Inv, Members, AllStartWell, OldestFirst, Pruned, Spent;
    NewestNamed(g, d, ch);
    StartsExact(g, e, dh);
    PruneExact(d.names, |ch|, keep, dh[|ch|]);
  }
}
