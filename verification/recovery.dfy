/**
 * What a writer makes of the files it finds: whatever point the last writer died at, in a commit, in
 * a roll or in a recovery, opening the channel again keeps exactly the committed records.
 */
module Recovery {
  import opened Bytes
  import opened Layout
  import opened Chain
  import opened Linking
  import opened SegmentWalk
  import opened Segments
  import opened Channel
  import opened Histories
  import opened SharedFiles
  import opened Writers

  // ---------- the end of the newest segment ----------

  /**
   * What `open_file` makes of the slot the write position names: free, or a record whose publication the last
   * writer died in.
   */
  datatype Tail = Free(slot: nat) | Orphan(slot: nat, users: nat) | Unrecoverable

  function ReadTail(g: Geometry, s: Segment): Tail
    requires g.Valid()
  {
    var next := if s.writePosition >= HEADER_SLOT then s.writePosition - HEADER_SLOT else 0;
    var off := next % g.region;
    // `open_file` maps the region and reads the slot unchecked.
    if next - off + g.region > |s.mem| || off + HEADER_SLOT > g.region then Unrecoverable
    else
      var h := HeaderAt(s.mem, next);
      if h.committed > 1 then Unrecoverable
      else if h.committed == 0 then Free(next)
      else
        var advance := HEADER_SLOT + AlignUp(h.length);
        if h.kind == USER then
          if off + advance + HEADER_SLOT > g.region then Unrecoverable
          else if HeaderAt(s.mem, next + advance) != PREINSTALL then Unrecoverable
          else Recount(g, s, next + advance)
        else if h.kind == SKIP then
          if off + advance != g.region then Unrecoverable
          else if next + advance + g.region > |s.mem| then Unrecoverable
          else if HeaderAt(s.mem, next + advance) != PREINSTALL then Unrecoverable
          else Recount(g, s, next + advance)
        else Unrecoverable
  }

  /** The count is taken afresh from the whole chain. */
  function Recount(g: Geometry, s: Segment, slot: nat): Tail
    requires g.Valid()
  {
    var w := Walk(s.mem, g.region, 0, 0, Never);
    if w.Corrupt? || w.pos != slot then Unrecoverable else Orphan(slot, w.users)
  }

  /** The same, the segment being walked where its count is taken afresh. */
  method FindTail(g: Geometry, s: Segment) returns (t: Tail)
    requires g.Valid()
    ensures t == ReadTail(g, s)
  {
    hide HeaderAt, Walk;
    var next := if s.writePosition >= HEADER_SLOT then s.writePosition - HEADER_SLOT else 0;
    var off := next % g.region;
    if next - off + g.region > |s.mem| || off + HEADER_SLOT > g.region { return Unrecoverable; }
    var h := HeaderAt(s.mem, next);
    if h.committed > 1 { return Unrecoverable; }
    if h.committed == 0 { return Free(next); }
    var advance := HEADER_SLOT + AlignUp(h.length);
    if h.kind == USER {
      if off + advance + HEADER_SLOT > g.region { return Unrecoverable; }
    } else if h.kind == SKIP {
      if off + advance != g.region || next + advance + g.region > |s.mem| { return Unrecoverable; }
    } else {
      return Unrecoverable;
    }
    if HeaderAt(s.mem, next + advance) != PREINSTALL { return Unrecoverable; }
    var w := WalkSegment(s.mem, g.region, 0, Never);
    if w.Corrupt? || w.pos != next + advance { return Unrecoverable; }
    return Orphan(next + advance, w.users);
  }

  lemma Settles(g: Geometry, s: Segment)
    requires g.Valid() && Settled(g, s)
    ensures ReadTail(g, s) == Free(EndOf(g, s))
  {
    hide Linked, Geometry.Prealloc, End, Records, Recount, Nat;
    EndIsSlot(g, s);
  }

  /** The advance that recovery makes is the chain's own step. */
  lemma AdvanceIsNext(m: seq<byte>, p: nat)
    requires p % 8 == 0 && p + HEADER_SLOT <= |m|
    ensures p + HEADER_SLOT + AlignUp(HeaderAt(m, p).length) == Next(m, p)
  {
    hide HeaderAt;
  }

  /** Where an orphan lies and what follows it. */
  lemma OrphanShape(g: Geometry, s: Segment, o: nat)
    requires g.Valid() && Sound(g, s) && OrphanAt(g, s, o)
    ensures g.Slot(o) && o < EndOf(g, s) == Next(s.mem, o) && o + HEADER_SLOT <= |s.mem|
    ensures o - o % g.region + g.region <= |s.mem|
    ensures HeaderAt(s.mem, o).committed == 1 && (HeaderAt(s.mem, o).kind == USER || HeaderAt(s.mem, o).kind == SKIP)
    ensures HeaderAt(s.mem, o).kind == USER ==> o % g.region + (Next(s.mem, o) - o) + ROLL_TOTAL <= g.region
    ensures HeaderAt(s.mem, o).kind == SKIP ==>
      Next(s.mem, o) == o + (g.region - o % g.region) && Next(s.mem, o) % g.region == 0
  {
    hide End, Linked, Geometry.Prealloc, HeaderAt, Records, Next, AlignUp, Content;
    FirstSlots(g);
    SlotsHold(g, s.mem, 0, o);
    EndIsSlot(g, s);
    NextSlot(g, s.mem, o);
    SlotInside(g, o, |s.mem|);
  }

  /** The walk counts a segment whose next slot is free exactly. */
  lemma CountsAll(g: Geometry, s: Segment)
    requires g.Valid() && Sound(g, s) && s.mem[EndOf(g, s)] == 0
    ensures Walk(s.mem, g.region, 0, 0, Never) == Walked(EndOf(g, s), |ContentOf(g, s)|, Uncommitted)
  {
    hide Geometry.Prealloc, Geometry.Slot, Walk, End, Linked, Records;
    EndIsSlot(g, s);
    WalkWhole(g, s.mem, 0, EndOf(g, s));
  }

  lemma OrphanFound(g: Geometry, s: Segment)
    requires g.Valid() && Orphaned(g, s)
    ensures ReadTail(g, s) == Orphan(EndOf(g, s), |ContentOf(g, s)|)
  {
    hide EndOf, ContentOf, Linked, Geometry.Prealloc, Sound, HeaderAt, Walk, AlignUp, Next, Steppable, Preinstalled;
    var o := s.writePosition - HEADER_SLOT;
    OrphanShape(g, s, o);
    AdvanceIsNext(s.mem, o);
    PreinstalledHeader(s.mem, EndOf(g, s));
    EndIsSlot(g, s);
    CountsAll(g, s);
  }

  // ---------- a roll the last writer left unfinished ----------

  /**
   * What `commit_stranded_roll` finds of the segment before the newest: its roll complete, or committed but
   * not positioned, or staged.
   */
  datatype Stranded = Complete | Unpositioned(slot: nat) | StagedAt(slot: nat) | Mismatch

  /** Segment `s`, numbered `sequence`, against `t`, the one that follows it. */
  function ReadRoll(g: Geometry, s: Segment, t: Segment, sequence: nat): Stranded
    requires g.Valid()
  {
    if |s.mem| < g.region then Complete
    else if !s.published then Mismatch
    else if s.generation != t.generation || t.identity.predecessor != s.identity.instance
      || t.identity.predecessorSequence != sequence then Mismatch
    else if s.base + s.messageCount > U64_MAX || s.base + s.messageCount != t.base then Mismatch
    else StoppedAt(g, s, t, sequence)
  }

  /** How far that segment's roll came: where its record chain stops, against its write position. */
  function StoppedAt(g: Geometry, s: Segment, t: Segment, sequence: nat): Stranded
    requires g.Valid()
  {
    var wp := s.writePosition;
    var earliest := if wp >= HEADER_SLOT + ROLL_TOTAL then wp - HEADER_SLOT - ROLL_TOTAL else 0;
    var w := Walk(s.mem, g.region, RegionStart(earliest, g.region), 0, Never);
    if w.Corrupt? then Mismatch
    else if w.stop == AtRoll && wp == w.pos + HEADER_SLOT + ROLL_TOTAL then NamedRoll(s, t, sequence, w.pos, Complete)
    else if w.stop == AtRoll && wp == w.pos + HEADER_SLOT then NamedRoll(s, t, sequence, w.pos, Unpositioned(w.pos))
    else if w.stop == Uncommitted && wp == w.pos + HEADER_SLOT then NamedRoll(s, t, sequence, w.pos, StagedAt(w.pos))
    else Mismatch
  }

  /** `found`, if the slot holds a Roll that names `t` as the file after `s`, and where `t` starts. */
  function NamedRoll(s: Segment, t: Segment, sequence: nat, slot: nat, found: Stranded): Stranded {
    if slot + ROLL_TOTAL > |s.mem| then Mismatch
    else if HeaderAt(s.mem, slot).kind != ROLL || HeaderAt(s.mem, slot).length != Layout.ROLL_PAYLOAD then Mismatch
    else
      var edge := Decode(RollBody(s.mem, slot));
      if edge.Err? || sequence > U64_MAX then Mismatch
      else if !edge.value.Names(sequence, s.identity.instance, t.identity) then Mismatch
      else if edge.value.nextBase != t.base then Mismatch
      else found
  }

  /** The Roll that leads on decodes to an edge that names its successor. */
  lemma LeadingRoll(g: Geometry, s: Segment, t: Segment, sequence: nat, found: Stranded)
    requires g.Valid() && Leads(g, s, t) && RollAt(s.mem, EndOf(g, s))
    requires sequence < U64_MAX && t.sequence == sequence + 1 && t.identity.instance != NONE
    requires t.identity.predecessor == s.identity.instance && t.identity.predecessorSequence == sequence
    ensures NamedRoll(s, t, sequence, EndOf(g, s), found) == found
  {
    hide EndOf, ContentOf, RollBody, RollEdge.Encode, Decode;
    DecodeOfEncode(RollEdge(t.sequence, t.identity.instance, t.base));
  }

  /** The walk from the region the position points into comes to the end of the chain. */
  lemma EndFound(g: Geometry, s: Segment, earliest: nat)
    requires g.Valid() && Sound(g, s) && earliest <= EndOf(g, s)
    requires s.mem[EndOf(g, s)] == 0 || (s.mem[EndOf(g, s)] == 1 && RollAt(s.mem, EndOf(g, s)))
    ensures var w := Walk(s.mem, g.region, RegionStart(earliest, g.region), 0, Never);
      w.Walked? && w.pos == EndOf(g, s) && w.stop == if s.mem[EndOf(g, s)] == 0 then Uncommitted else AtRoll
  {
    hide Geometry.Prealloc, Geometry.Slot, Walk, End, Linked, Records, RegionStart;
    var start := RegionStart(earliest, g.region);
    EndIsSlot(g, s);
    RegionOnChain(g, s.mem, 0, EndOf(g, s), start);
    WalkWhole(g, s.mem, start, EndOf(g, s));
  }

  /** What a rolled or staged segment's fields say. */
  lemma ClosingSays(g: Geometry, s: Segment, t: Segment)
    requires g.Valid() && Leads(g, s, t) && (Rolled(g, s) || Staged(g, s))
    ensures s.base + s.messageCount == t.base <= U64_MAX && Sound(g, s) && RollAt(s.mem, EndOf(g, s))
    ensures s.mem[EndOf(g, s)] == if Rolled(g, s) then 1 else 0
    ensures s.writePosition == EndOf(g, s) + HEADER_SLOT + if Done(g, s) then ROLL_TOTAL else 0
    ensures Done(g, s) ==> Rolled(g, s)
  {
    hide EndOf, ContentOf, RollBody, RollEdge.Encode, Linked, Geometry.Prealloc, RollAt;
  }

  lemma StopFound(g: Geometry, s: Segment, t: Segment, sequence: nat)
    requires g.Valid() && Leads(g, s, t) && (Rolled(g, s) || Staged(g, s))
    requires sequence < U64_MAX && t.sequence == sequence + 1 && t.identity.instance != NONE
    requires t.identity.predecessor == s.identity.instance && t.identity.predecessorSequence == sequence
    ensures StoppedAt(g, s, t, sequence) ==
      if Done(g, s) then Complete else if Rolled(g, s) then Unpositioned(EndOf(g, s)) else StagedAt(EndOf(g, s))
  {
    hide EndOf, NamedRoll, Walk, RollAt, RegionStart, Rolled, Staged, Done, Leads, Sound;
    ClosingSays(g, s, t);
    EndIsSlot(g, s);
    var e := EndOf(g, s);
    LeadingRoll(g, s, t, sequence,
        if Done(g, s) then Complete else if Rolled(g, s) then Unpositioned(e) else StagedAt(e));
    EndFound(g, s, if Done(g, s) then e else e - ROLL_TOTAL);
  }

  /** Whatever point of a roll the last writer died at, the next one finds exactly that point, and never refuses it. */
  lemma RollFound(g: Geometry, s: Segment, t: Segment, sequence: nat)
    requires g.Valid() && Leads(g, s, t) && (Rolled(g, s) || Staged(g, s)) && s.published
    requires s.generation == t.generation && sequence < U64_MAX && t.sequence == sequence + 1
    requires t.identity.instance != NONE
    requires t.identity.predecessor == s.identity.instance && t.identity.predecessorSequence == sequence
    ensures ReadRoll(g, s, t, sequence) ==
      if Done(g, s) then Complete else if Rolled(g, s) then Unpositioned(EndOf(g, s)) else StagedAt(EndOf(g, s))
  {
    hide EndOf, StoppedAt, RollAt, Rolled, Staged, Done, Leads, Sound;
    ClosingSays(g, s, t);
    EndIsSlot(g, s);
    StopFound(g, s, t, sequence);
  }

  // ---------- the steps of opening ----------

  /** The segment with the Roll at its end committed and its position behind that. */
  function Completing(g: Geometry, s: Segment): Segment
    requires g.Valid() && EndOf(g, s) < |s.mem|
  {
    s.(mem := s.mem[EndOf(g, s) := 1], writePosition := EndOf(g, s) + HEADER_SLOT + ROLL_TOTAL)
  }

  /** The same, the readers asleep on it woken. */
  function Finished(g: Geometry, s: Segment): Segment
    requires g.Valid() && EndOf(g, s) < |s.mem|
  {
    Woken(Completing(g, s))
  }

  /** The newest segment, published, its count and position those of its chain. */
  function Opened(g: Geometry, s: Segment): Segment
    requires g.Valid()
  {
    s.(published := true, messageCount := |ContentOf(g, s)|, writePosition := EndOf(g, s) + HEADER_SLOT)
  }

  lemma OpenedAlready(g: Geometry, s: Segment)
    requires g.Valid() && Settled(g, s)
    ensures Opened(g, s) == s.(published := true)
  {
  }

  /** Disk `e`, with the roll that disk `d` has unfinished, if it has one, finished. */
  ghost function RollDone(g: Geometry, d: Disk, ch: History, e: Disk): Disk
    requires Inv(g, d, ch)
  {
    if |ch| >= 2 && !Done(g, Seg(d, ch, |ch| - 2)) then
      StrandedEnds(g, d, ch);
      Put(e, ch[|ch| - 2], Finished(g, Seg(d, ch, |ch| - 2)))
    else e
  }

  lemma StrandedEnds(g: Geometry, d: Disk, ch: History)
    requires Inv(g, d, ch) && |ch| >= 2
    ensures ch[|ch| - 2] in d.files && EndOf(g, Seg(d, ch, |ch| - 2)) < |Seg(d, ch, |ch| - 2).mem|
  {
    hide Inv, Members, EndOf, Staged, Rolled, Leads, ReadRoll;
    LastRoll(g, d, ch);
    SlotOfRoll(g, Seg(d, ch, |ch| - 2));
  }

  /** What opening leaves of a channel. */
  ghost function Recovered(g: Geometry, d: Disk, ch: History, wake: bool): Disk
    requires Inv(g, d, ch)
  {
    var newest := Opened(g, Newest(d, ch)).(wakes := wake);
    RollDone(g, d, ch, Disk(d.files[ch[|ch| - 1] := newest], d.names - {|ch|}))
  }

  /** The names of a channel end at its newest segment, or at a file installed after it that was never published. */
  lemma LatestName(g: Geometry, d: Disk, ch: History)
    requires Inv(g, d, ch)
    ensures |ch| - 1 in d.names && d.names[|ch| - 1] == ch[|ch| - 1]
    ensures forall n :: n in d.names ==> n <= |ch|
    ensures |ch| in d.names ==> d.names[|ch|] in d.files && !d.files[d.names[|ch|]].published
    ensures |ch| >= 2 ==> ch[|ch| - 1] in d.files && Newest(d, ch).published
  {
    hide Links, Open, Members, Traceable, Fresh, Settled, ContentOf, Sole;
    if |ch| in d.names { SpareSettled(g, d, ch, d.names[|ch|]); }
    if |ch| >= 2 { var _ := ch[|ch| - 1]; }
  }

  lemma NothingYet(files: ChannelFiles)
    requires files.Valid()
    ensures files.past != [] && files.past[|files.past| - 1] == Moment(files.disk, files.chain)
    ensures NoneWoken(files.past, files.past)
  {
    hide Inv, ChannelFiles.Valid;
    files.Now();
  }

  /** The newest segment, once a newer file that was never published is unlinked. */
  method DiscardUnpublishedTail(files: ChannelFiles) returns (sequence: nat, i: InstanceId)
    requires files.Valid()
    modifies files
    ensures files.Heads(i) && sequence == |files.chain| - 1
    ensures files.chain == old(files.chain) && old(files.past) <= files.past && files.Logged() == old(files.Logged())
    ensures files.disk == old(files.disk).(names := old(files.disk).names - {|files.chain|})
    ensures sequence > 0 ==> files.disk.files[i].published
    ensures NoneWoken(old(files.past), files.past)
  {
    hide Inv, Members, ChannelFiles.Valid, ChannelFiles.Logged, Open, ChannelFiles.Ready, ChannelFiles.Heads, Latest,
      NoneWoken;
    NothingYet(files);
    while true
      invariant files.Valid() && files.chain == old(files.chain) && old(files.past) <= files.past
      invariant files.Logged() == old(files.Logged())
      invariant files.disk == old(files.disk) || files.disk ==
        old(files.disk).(names := old(files.disk).names - {|files.chain|})
      invariant NoneWoken(old(files.past), files.past)
      decreases |files.chain| in files.disk.names
    {
      var n: nat := LatestOf(files);
      i := files.disk.names[n];
      if n == 0 || files.disk.files[i].published {
        return n, i;
      }
      ghost var d, past := files.disk, files.past;
      NothingYet(files);
      files.Unlink(n);
      NoneWokenStill(past, d, files.chain, files.disk);
      NoneWokenOn(old(files.past), past, files.past);
    }
  }

  /** The latest name: the newest segment's, or that of a file not published. */
  method LatestOf(files: ChannelFiles) returns (n: nat)
    requires files.Valid()
    ensures n in files.disk.names && files.disk.names[n] in files.disk.files && Latest(files.disk.names, n)
    ensures n == |files.chain| || n == |files.chain| - 1
    ensures var i := files.disk.names[n];
      if n == |files.chain| then n > 0 && !files.disk.files[i].published
      else files.Heads(i) && |files.chain| !in files.disk.names && (n > 0 ==> files.disk.files[i].published)
  {
    hide Inv, Members, ChannelFiles.Valid, Open;
    LatestName(files.g, files.disk, files.chain);
    AlwaysOpen(files.g, files.disk, files.chain);
    assert exists k: nat :: Latest(files.disk.names, k) by {
      assert Latest(files.disk.names, |files.chain|) || Latest(files.disk.names, |files.chain| - 1);
    }
    n :| n in files.disk.names && forall m :: m in files.disk.names ==> m <= n;
  }

  predicate Latest(names: map<nat, InstanceId>, n: nat) {
    n in names && forall m :: m in names ==> m <= n
  }

  /** Publishing a first file that its creator installed but never published. */
  lemma GenesisKeeps(g: Geometry, d: Disk, ch: History)
    requires Inv(g, d, ch) && |ch| == 1
    ensures var t := Newest(d, ch).(published := true); var e := Put(d, ch[0], t);
      && Inv(g, e, ch) && Advances(g, d, ch, e, ch) && Log(g, e, ch) == Log(g, d, ch) && Newest(e, ch) == t
      && Settled(g, t) == Settled(g, Newest(d, ch)) && EndOf(g, t) == EndOf(g, Newest(d, ch))
  {
    hide Inv, Members, Fits, Evolves, ContentOf, Settled, EndOf, Open, Advances, Frozen;
    var s := Newest(d, ch);
    var t := s.(published := true);
    FrozenInside(g, d, ch, 0);
    Facts(g, d, ch, 0);
    SettledFields(g, s, t);
    PublishedEvolves(g, s);
    assert Fits(g, d, ch, 0, t) by { PublishedFits(g, d, ch, t); }
    StoreKeeps(g, d, ch, 0, t);
    LogOfLast(g, d, ch, Put(d, ch[0], t));
  }

  lemma PublishedFits(g: Geometry, d: Disk, ch: History, t: Segment)
    requires g.Valid() && Members(g, d, ch) && |ch| == 1 && t.published && Open(g, t)
    ensures Fits(g, d, ch, 0, t)
  {
    hide Open, Members;
  }

  lemma PublishedEvolves(g: Geometry, s: Segment)
    requires g.Valid() && Frozen(g, s) <= |s.mem|
    ensures var t := s.(published := true);
      Evolves(g, s, t) && (Open(g, s) ==> Open(g, t)) && ContentOf(g, t) == ContentOf(g, s)
  {
    hide End, Linked, Records, Steppable, HeaderAt, Geometry.Prealloc, Geometry.Slot;
  }

  /** A newest segment with an orphan follows a committed Roll. */
  lemma OrphanFirm(g: Geometry, d: Disk, ch: History)
    requires Inv(g, d, ch) && Newest(d, ch).published && Orphaned(g, Newest(d, ch))
    ensures Firm(g, d, ch)
  {
    hide Inv, Members, Orphaned, Settled, Rolled, ContentOf, Leads, Open, Done, Staged, Member;
    if |ch| >= 2 {
      Facts(g, d, ch, |ch| - 2);
      OrphanUnsettled(g, Seg(d, ch, |ch| - 1));
      assert Closing(g, Seg(d, ch, |ch| - 2), Seg(d, ch, |ch| - 1));
    }
  }

  lemma OrphanUnsettled(g: Geometry, s: Segment)
    requires g.Valid() && Orphaned(g, s)
    ensures !Settled(g, s)
  {
    hide EndOf, ContentOf, Linked, Geometry.Prealloc;
    PreinstalledHeader(s.mem, EndOf(g, s));
    OrphanShape(g, s, s.writePosition - HEADER_SLOT);
  }

  /** The newest segment, published and settled. */
  ghost predicate Resumed(files: ChannelFiles, i: InstanceId)
    reads files
    ensures Resumed(files, i) ==> files.Heads(i) && files.g.Valid()
  {
    files.Heads(i) && files.disk.files[i].published && Settled(files.g, files.disk.files[i])
  }

  lemma OpenedSame(g: Geometry, s: Segment)
    requires g.Valid()
    ensures Opened(g, s.(published := true)) == Opened(g, s)
  {
    hide EndOf, ContentOf;
    SameChainFields(g, s, s.(published := true));
  }

  /** `open_file` on a file that exists: publish it if it is a first file that was not, and step over an orphan. */
  method OpenFile(files: ChannelFiles, sequence: nat, i: InstanceId) returns (next: nat)
    requires files.Heads(i) && sequence == |files.chain| - 1 && (sequence > 0 ==> files.disk.files[i].published)
    modifies files
    ensures Resumed(files, i) && next == EndOf(files.g, files.disk.files[i])
    ensures files.chain == old(files.chain) && old(files.past) <= files.past && files.Logged() == old(files.Logged())
    ensures files.disk == Put(old(files.disk), i, old(Opened(files.g, files.disk.files[i])))
    ensures NoneWoken(old(files.past), files.past)
  {
    hide Inv, Members, ChannelFiles.Valid, ChannelFiles.Logged, Settled, Orphaned, EndOf, ContentOf, ChannelFiles.Heads,
      NoneWoken, Opened;
    NothingYet(files);
    OpenedSame(files.g, files.disk.files[i]);
    if !files.disk.files[i].published {
      PublishFirst(files, i);
    }
    ghost var past := files.past;
    var tail := FindTail(files.g, files.disk.files[i]);
    if Settled(files.g, files.disk.files[i]) {
      Settles(files.g, files.disk.files[i]);
      OpenedAlready(files.g, files.disk.files[i]);
    } else {
      OrphanFound(files.g, files.disk.files[i]);
    }
    assert !tail.Unrecoverable?;
    if tail.Orphan? {
      Republish(files, i, tail.slot, tail.users);
      NoneWokenOn(old(files.past), past, files.past);
    }
    next := tail.slot;
  }

  /** The publishing store of a first file. */
  method PublishFirst(files: ChannelFiles, i: InstanceId)
    requires files.Heads(i) && |files.chain| == 1
    modifies files
    ensures files.Heads(i) && files.disk == Put(old(files.disk), i, old(files.disk).files[i].(published := true))
    ensures Settled(files.g, files.disk.files[i]) == old(Settled(files.g, files.disk.files[i]))
    ensures files.chain == old(files.chain) && old(files.past) <= files.past && files.Logged() == old(files.Logged())
    ensures NoneWoken(old(files.past), files.past)
  {
    hide Inv, Members, ChannelFiles.Valid, Open, Advances, Settled, Log, NoneWoken;
    GenesisKeeps(files.g, files.disk, files.chain);
    AlwaysOpen(files.g, Put(files.disk, i, files.disk.files[i].(published := true)), files.chain);
    NothingYet(files);
    files.Store(Put(files.disk, i, files.disk.files[i].(published := true)), files.chain);
    NoneWokenStill(old(files.past), old(files.disk), files.chain, files.disk);
  }

  /** The newest segment ends on a record whose publication its writer died in. */
  ghost predicate Lagging(files: ChannelFiles, i: InstanceId)
    reads files
    ensures Lagging(files, i) ==> files.Heads(i) && files.g.Valid() && Orphaned(files.g, files.disk.files[i])
  {
    files.Heads(i) && Firm(files.g, files.disk, files.chain) && files.disk.files[i].published
      && Orphaned(files.g, files.disk.files[i])
  }

  method StoreCount(files: ChannelFiles, i: InstanceId, users: nat)
    requires Lagging(files, i) && users == |ContentOf(files.g, files.disk.files[i])|
    modifies files
    ensures Lagging(files, i) && files.disk == Put(old(files.disk), i, old(files.disk).files[i].(messageCount := users))
    ensures files.chain == old(files.chain) && files.Logged() == old(files.Logged())
    ensures files.past == old(files.past) + [Moment(files.disk, files.chain)]
  {
    hide Inv, Members, ChannelFiles.Valid, Advances, Settled, Orphaned, Log, LogTo, EndOf, ContentOf, Evolves, Firm;
    LogIs(files.g, files.disk, files.chain);
    CountCatchesUp(files.g, files.disk.files[i]);
    files.StoreInto(i, files.disk.files[i].(messageCount := users));
    AlwaysOpen(files.g, files.disk, files.chain);
  }

  method StorePosition(files: ChannelFiles, i: InstanceId, slot: nat)
    requires Lagging(files, i) && files.disk.files[i].messageCount == |ContentOf(files.g, files.disk.files[i])|
    requires slot == EndOf(files.g, files.disk.files[i])
    modifies files
    ensures Resumed(files, i)
    ensures files.disk == Put(old(files.disk), i, old(files.disk).files[i].(writePosition := slot + HEADER_SLOT))
    ensures slot == EndOf(files.g, files.disk.files[i])
    ensures files.chain == old(files.chain) && files.Logged() == old(files.Logged())
    ensures files.past == old(files.past) + [Moment(files.disk, files.chain)]
  {
    hide Inv, Members, ChannelFiles.Valid, Advances, Settled, Orphaned, Log, LogTo, EndOf, ContentOf, Evolves, Firm;
    LogIs(files.g, files.disk, files.chain);
    PublishSettles(files.g, files.disk.files[i]);
    files.StoreInto(i, files.disk.files[i].(writePosition := slot + HEADER_SLOT));
    AlwaysOpen(files.g, files.disk, files.chain);
  }

  lemma CountStored(d: Disk, i: InstanceId, users: nat, e: Disk)
    requires i in d.files && e == Put(d, i, d.files[i].(messageCount := users))
    ensures i in e.files && e.files[i] == d.files[i].(messageCount := users) && SameWords(d, e)
  {
  }

  lemma PositionStored(g: Geometry, d: Disk, i: InstanceId, users: nat, slot: nat, e: Disk, f: Disk)
    requires g.Valid() && i in d.files && d.files[i].published
    requires users == |ContentOf(g, d.files[i])| && slot == EndOf(g, d.files[i])
    requires e == Put(d, i, d.files[i].(messageCount := users)) && i in e.files
    requires f == Put(e, i, e.files[i].(writePosition := slot + HEADER_SLOT))
    ensures f == Put(d, i, Opened(g, d.files[i])) && SameWords(e, f)
  {
    hide EndOf, ContentOf;
    var t := e.files[i].(writePosition := slot + HEADER_SLOT);
    assert e.files[i := t] == d.files[i := t];
  }

  /** The count, then the position, of a segment whose last record was not published. */
  method Republish(files: ChannelFiles, i: InstanceId, slot: nat, users: nat)
    requires files.Heads(i) && files.disk.files[i].published && Orphaned(files.g, files.disk.files[i])
    requires slot == EndOf(files.g, files.disk.files[i]) && users == |ContentOf(files.g, files.disk.files[i])|
    modifies files
    ensures Resumed(files, i) && slot == EndOf(files.g, files.disk.files[i])
    ensures files.chain == old(files.chain) && old(files.past) <= files.past && files.Logged() == old(files.Logged())
    ensures files.disk == Put(old(files.disk), i, old(Opened(files.g, files.disk.files[i])))
    ensures NoneWoken(old(files.past), files.past)
  {
    hide Inv, Members, ChannelFiles.Valid, ChannelFiles.Logged, Settled, Orphaned, EndOf, ContentOf, Lagging, Resumed,
      NoneWoken, Put, SameWords, Opened;
    OrphanLags(files, i);
    SameChainFields(files.g, files.disk.files[i], files.disk.files[i].(messageCount := users));
    NothingYet(files);
    StoreCount(files, i, users);
    ghost var counted, past := files.disk, files.past;
    CountStored(old(files.disk), i, users, counted);
    NoneWokenStill(old(files.past), old(files.disk), files.chain, counted);
    NothingYet(files);
    StorePosition(files, i, slot);
    PositionStored(files.g, old(files.disk), i, users, slot, counted, files.disk);
    NoneWokenStill(past, counted, files.chain, files.disk);
    NoneWokenOn(old(files.past), past, files.past);
  }

  lemma OrphanLags(files: ChannelFiles, i: InstanceId)
    requires files.Heads(i) && files.disk.files[i].published && Orphaned(files.g, files.disk.files[i])
    ensures Lagging(files, i)
  {
    hide Inv, Members, ChannelFiles.Valid, Orphaned, Firm, HeadOpen;
    OrphanFirm(files.g, files.disk, files.chain);
  }

  /** `set_wake_flag`: readers trust the flag of the segment they read. */
  method SetWakeFlag(files: ChannelFiles, i: InstanceId, wake: bool)
    requires Resumed(files, i)
    modifies files
    ensures Resumed(files, i) && EndOf(files.g, files.disk.files[i]) == old(EndOf(files.g, files.disk.files[i]))
    ensures old(files.Ready(i)) ==> files.Ready(i)
    ensures files.disk == Put(old(files.disk), i, old(files.disk).files[i].(wakes := wake))
    ensures files.chain == old(files.chain) && old(files.past) <= files.past && files.Logged() == old(files.Logged())
    ensures NoneWoken(old(files.past), files.past)
  {
    hide Inv, Members, ChannelFiles.Valid, ChannelFiles.Logged, Settled, EndOf, Open, NoneWoken;
    var s := files.disk.files[i];
    NothingYet(files);
    NoneWokenStill(old(files.past), files.disk, files.chain, Put(files.disk, i, s.(wakes := wake)));
    SameFields(files.g, s, s.(wakes := wake));
    files.StoreFields(i, |files.chain| - 1, wake, s.wakeWord);
    AlwaysOpen(files.g, files.disk, files.chain);
  }

  /** The segment before the newest, against the newest: what `RollFound` needs. */
  lemma LastRoll(g: Geometry, d: Disk, ch: History)
    requires Inv(g, d, ch) && |ch| >= 2
    ensures ch[|ch| - 2] in d.files && ch[|ch| - 1] in d.files
    ensures var k, s, t := |ch| - 2, Seg(d, ch, |ch| - 2), Seg(d, ch, |ch| - 1);
      && k < U64_MAX
      && (Rolled(g, s) || Staged(g, s)) && Leads(g, s, t) && s.published && s.generation == t.generation
      && ReadRoll(g, s, t, k) ==
         if Done(g, s) then Complete else if Rolled(g, s) then Unpositioned(EndOf(g, s)) else StagedAt(EndOf(g, s))
  {
    hide Inv, Members, Member, Rolled, Staged, Done, Settled, Leads, ContentOf, EndOf, Open, ReadRoll;
    Facts(g, d, ch, |ch| - 2);
    Facts(g, d, ch, |ch| - 1);
    Relatives(g, d, ch, |ch| - 2);
    RollFound(g, Seg(d, ch, |ch| - 2), Seg(d, ch, |ch| - 1), |ch| - 2);
  }

  /** With nothing left unfinished behind it, a resumed segment is ready to be written. */
  lemma ResumedReady(files: ChannelFiles, i: InstanceId)
    requires Resumed(files, i)
    requires |files.chain| >= 2 ==>
      files.chain[|files.chain| - 2] in files.disk.files
    requires |files.chain| >= 2 ==>
      Done(files.g, Seg(files.disk, files.chain, |files.chain| - 2))
    ensures files.Ready(i)
  {
    hide Inv, Members, ChannelFiles.Valid, Settled, Done, HeadOpen;
  }

  lemma ResumedCrosses(files: ChannelFiles, i: InstanceId, j: InstanceId)
    requires Resumed(files, j) && |files.chain| >= 2 && files.chain[|files.chain| - 2] == i
    ensures files.Crossing(i, j)
  {
    hide Inv, Members, ChannelFiles.Valid, Settled, HeadOpen;
    MemberFiles(files.g, files.disk, files.chain, |files.chain| - 2);
    if i == j { OneFileEach(files.g, files.disk, files.chain, |files.chain| - 2, |files.chain| - 1); }
  }

  /** A name below the newest is that segment's; one that is gone was of a complete roll. */
  lemma OldName(g: Geometry, d: Disk, ch: History)
    requires Inv(g, d, ch) && |ch| >= 2
    ensures ch[|ch| - 2] in d.files
    ensures if |ch| - 2 in d.names then d.names[|ch| - 2] == ch[|ch| - 2] else Done(g, Seg(d, ch, |ch| - 2))
  {
    hide Links, Published, Open, Members, Done, Spare, Sole;
    var _ := ch[|ch| - 2];
  }

  /** The disk once the Roll of segment `i` is committed, if it was not before. */
  predicate RollStored(g: Geometry, d: Disk, i: InstanceId, e: Disk)
    requires g.Valid()
    ensures RollStored(g, d, i, e) ==> i in d.files && i in e.files && e.files[i].wakeWord == d.files[i].wakeWord
  {
    && i in d.files && i in e.files && EndOf(g, d.files[i]) < |d.files[i].mem|
    && e.files[i] == d.files[i].(mem := d.files[i].mem[EndOf(g, d.files[i]) := 1])
    && e == Put(d, i, e.files[i])
  }

  lemma RollCommitted(g: Geometry, d: Disk, i: InstanceId, e: Disk)
    requires g.Valid() && i in d.files && EndOf(g, d.files[i]) < |d.files[i].mem|
    requires e == Put(d, i, Committed(g, d.files[i]))
    ensures RollStored(g, d, i, e)
  {
    hide EndOf;
  }

  lemma NothingCommitted(g: Geometry, d: Disk, i: InstanceId)
    requires g.Valid() && i in d.files && EndOf(g, d.files[i]) < |d.files[i].mem|
    requires d.files[i].mem[EndOf(g, d.files[i]) := 1] == d.files[i].mem
    ensures RollStored(g, d, i, d)
  {
    hide EndOf;
    assert d.files[i := d.files[i]] == d.files;
  }

  lemma RollPositioned(d: Disk, i: InstanceId, wp: nat, e: Disk)
    requires i in d.files && e == Put(d, i, d.files[i].(writePosition := wp))
    ensures i in e.files && e.files[i] == d.files[i].(writePosition := wp)
  {
  }

  lemma RollFilled(g: Geometry, c: Disk, i: InstanceId, wp: nat, d: Disk, e: Disk)
    requires g.Valid() && RollStored(g, c, i, d) && wp == EndOf(g, c.files[i]) + HEADER_SLOT + ROLL_TOTAL
    requires e == Put(d, i, d.files[i].(writePosition := wp)) && i in e.files
    ensures EndOf(g, c.files[i]) < |c.files[i].mem| && e == Put(c, i, Completing(g, c.files[i]))
  {
    hide EndOf;
    assert e.files == c.files[i := e.files[i]];
  }

  /** Commit the Roll of `i`, if that was not done, and move the position behind it. */
  method CompleteLeft(files: ChannelFiles, i: InstanceId, j: InstanceId, slot: nat, staged: bool)
    requires files.Crossing(i, j) && slot == EndOf(files.g, files.disk.files[i])
    requires if staged then Staged(files.g, files.disk.files[i]) else Rolled(files.g, files.disk.files[i])
    modifies files
    ensures files.Crossing(i, j) && files.Ready(j)
    ensures files.chain == old(files.chain) && files.Logged() == old(files.Logged())
    ensures slot < |old(files.disk).files[i].mem|
    ensures files.disk == Put(old(files.disk), i, Completing(files.g, old(files.disk).files[i]))
    ensures Unwoken(old(files.past), files.past, i)
  {
    hide Inv, Members, ChannelFiles.Valid, ChannelFiles.Logged, ChannelFiles.Crossing, ChannelFiles.Ready, Settled,
      EndOf, Rolled, Staged, Done, Unwoken, Put, Completing, Committed;
    CrossingNow(files, i, j);
    SlotOfRoll(files.g, files.disk.files[i]);
    if staged {
      files.CommitRoll(i, j);
      RollCommitted(files.g, old(files.disk), i, files.disk);
    } else {
      NothingCommitted(files.g, files.disk, i);
    }
    ghost var d, committed := files.disk, files.past;
    var wp := slot + HEADER_SLOT + ROLL_TOTAL;
    files.CompleteRoll(i, j, wp);
    RollPositioned(d, i, wp, files.disk);
    UnwokenOn(old(files.past), committed, files.past, i);
    RollFilled(files.g, old(files.disk), i, wp, d, files.disk);
  }

  lemma RollWoken(g: Geometry, c: Disk, i: InstanceId, j: InstanceId, s: Segment, word: nat, d: Disk, e: Disk)
    requires g.Valid() && i in c.files && EndOf(g, c.files[i]) < |c.files[i].mem|
    requires d == Put(c, i, Completing(g, c.files[i])) && i in d.files && s == d.files[i]
    requires e == Put(d, i, s.(wakes := s.wakes, wakeWord := word)) && word == (s.wakeWord + 1) % 0x1_0000_0000
    requires j in c.files && i != j
    ensures e == Put(c, i, Finished(g, c.files[i])) && i in e.files && j in e.files && e.files[j] == c.files[j]
  {
    hide EndOf;
    assert e.files == c.files[i := e.files[i]];
  }

  /** The roll into `j` was left at its committing store, or at the one that moves the position: readers are woken. */
  method FinishRoll(files: ChannelFiles, i: InstanceId, j: InstanceId, slot: nat, staged: bool)
    requires files.Crossing(i, j) && slot == EndOf(files.g, files.disk.files[i])
    requires if staged then Staged(files.g, files.disk.files[i]) else Rolled(files.g, files.disk.files[i])
    modifies files
    ensures files.Ready(j) && files.disk.files[j] == old(files.disk).files[j]
    ensures files.chain == old(files.chain) && files.Logged() == old(files.Logged())
    ensures slot < |old(files.disk).files[i].mem|
    ensures files.disk == Put(old(files.disk), i, Finished(files.g, old(files.disk).files[i]))
    ensures WokenLast(old(files.past), files.past, i)
  {
    hide Inv, Members, ChannelFiles.Valid, ChannelFiles.Logged, ChannelFiles.Crossing, ChannelFiles.Ready, Settled,
      EndOf, Rolled, Staged, Done, Unwoken, WokenLast, Completing, Finished, Put;
    CompleteLeft(files, i, j, slot, staged);
    ghost var d, completed := files.disk, files.past;
    files.CrossingFrom(i, j);
    var s := files.disk.files[i];
    var word := (s.wakeWord + 1) % 0x1_0000_0000;
    files.StoreFields(i, |files.chain| - 2, s.wakes, word);
    RollWoken(files.g, old(files.disk), i, j, s, word, d, files.disk);
    BumpedNow(old(files.past), completed, i, Moment(files.disk, files.chain));
  }

  lemma CrossingNow(files: ChannelFiles, i: InstanceId, j: InstanceId)
    requires files.Crossing(i, j)
    ensures files.past != [] && files.past[|files.past| - 1] == Moment(files.disk, files.chain)
    ensures Unwoken(files.past, files.past, i)
  {
    hide Inv, ChannelFiles.Valid, Settled;
    files.Now();
  }

  lemma SlotOfRoll(g: Geometry, s: Segment)
    requires g.Valid() && (Staged(g, s) || Rolled(g, s))
    ensures EndOf(g, s) < |s.mem|
    ensures Rolled(g, s) ==> s.mem[EndOf(g, s) := 1] == s.mem
  {
    hide EndOf, Linked, Geometry.Prealloc, RollAt, ContentOf;
  }

  /** Finish the roll into the newest segment, whatever point of it the last writer died at. */
  method CommitStrandedRoll(files: ChannelFiles, sequence: nat, j: InstanceId)
    requires Resumed(files, j) && sequence + 2 == |files.chain|
    modifies files
    ensures files.Ready(j) && files.disk.files[j] == old(files.disk).files[j]
    ensures files.chain == old(files.chain) && files.Logged() == old(files.Logged())
    ensures files.disk == old(RollDone(files.g, files.disk, files.chain, files.disk))
    ensures WokenLast(old(files.past), files.past, files.chain[sequence])
  {
    hide Inv, Members, ChannelFiles.Valid, ChannelFiles.Logged, ChannelFiles.Crossing, ChannelFiles.Ready, Settled,
      EndOf, Rolled, Staged, Resumed, Writable, Leads, ReadRoll, WokenLast, Done, Finished;
    OldName(files.g, files.disk, files.chain);
    LastRoll(files.g, files.disk, files.chain);
    NewestOf(files, j);
    ResumedCrosses(files, files.chain[sequence], j);
    CrossingNow(files, files.chain[sequence], j);
    BumpedNow(files.past, files.past, files.chain[sequence], Moment(files.disk, files.chain));
    if sequence !in files.disk.names {
      ResumedReady(files, j);
      return;
    }
    var i := files.disk.names[sequence];
    var found := ReadRoll(files.g, files.disk.files[i], files.disk.files[j], sequence);
    assert found != Mismatch;
    if found.Complete? {
      ResumedReady(files, j);
      return;
    }
    FinishRoll(files, i, j, found.slot, found.StagedAt?);
  }

  lemma NewestOf(files: ChannelFiles, i: InstanceId)
    requires Resumed(files, i)
    ensures files.chain[|files.chain| - 1] == i
  {
    hide Inv, Members, ChannelFiles.Valid, Settled, HeadOpen;
  }

  /** Nothing is unfinished, and no unpublished file is left: what opening leaves, and what a second opening finds. */
  ghost predicate Clean(files: ChannelFiles, i: InstanceId)
    reads files
  {
    files.Ready(i) && |files.chain| !in files.disk.names
  }

  /**
   * Open an existing channel, whatever state its last writer left it in. It never fails, and keeps
   * the log exactly; an unpublished successor goes, a published one stays and its roll is finished.
   */
  method Reopen(files: ChannelFiles, mtu: nat, keep: nat, wake: bool) returns (w: Writer, ghost i: InstanceId)
    requires files.Valid()
    modifies files
    ensures fresh(w) && w.Valid() && w.files == files && w.mtu == mtu && w.keep == keep && w.wake == wake
    ensures w.pending == Nothing
    ensures w.instance == i && Clean(files, i) && files.chain == old(files.chain)
    ensures files.Logged() == old(files.Logged()) && old(files.past) <= files.past
    ensures files.disk.names == old(files.disk.names) - {|files.chain|}
    ensures files.disk.files[i].wakes == wake
    ensures old(Clean(files, i)) ==> files.disk == Put(old(files.disk), i, old(files.disk.files[i]).(wakes := wake))
    ensures files.disk == old(Recovered(files.g, files.disk, files.chain, wake))
    ensures |files.chain| >= 2 ==> WokenLast(old(files.past), files.past, files.chain[|files.chain| - 2])
  {
    hide Inv, Members, ChannelFiles.Valid, ChannelFiles.Logged, ChannelFiles.Ready, Settled, EndOf, WokenLast, Opened,
      RollDone, Recovered, Clean, Done, Finished, Writer.Valid, Writer.AtEnd;
    ghost var last := files.chain[|files.chain| - 1];
    if Clean(files, last) { CleanRests(files, last, wake); }
    var sequence, newest, next := Restore(files, wake);
    i := newest;
    ReadyClean(files, newest);
    w := new Writer(files, newest, sequence, next, mtu, keep, wake);
  }

  /** The files of a channel brought to where a writer can go on. */
  method Restore(files: ChannelFiles, wake: bool) returns (sequence: nat, i: InstanceId, next: nat)
    requires files.Valid()
    modifies files
    ensures files.Ready(i) && sequence == |files.chain| - 1 && files.chain[sequence] == i
    ensures next == EndOf(files.g, files.disk.files[i]) && files.disk.files[i].wakes == wake
    ensures files.chain == old(files.chain) && old(files.past) <= files.past && files.Logged() == old(files.Logged())
    ensures files.disk.names == old(files.disk.names) - {|files.chain|}
    ensures files.disk == old(Recovered(files.g, files.disk, files.chain, wake))
    ensures |files.chain| >= 2 ==> WokenLast(old(files.past), files.past, files.chain[|files.chain| - 2])
  {
    hide Inv, Members, ChannelFiles.Valid, ChannelFiles.Logged, Rested, ChannelFiles.Heads, Settled, EndOf, Resumed,
      NoneWoken, WokenLast, Opened, RollDone, Recovered, Done, Finished;
    ghost var d, ch := files.disk, files.chain;
    NothingYet(files);
    ghost var left := if |ch| >= 2 then ch[|ch| - 2] else ch[0];
    MemberFiles(files.g, d, ch, if |ch| >= 2 then |ch| - 2 else 0);
    sequence, i, next := OpenNewest(files, wake);
    ghost var flagged := files.past;
    RecoveredBy(files.g, d, ch, files.disk, wake);
    RollDoneNames(files.g, files.disk, ch);
    if sequence > 0 {
      CommitStrandedRoll(files, sequence - 1, i);
      NoneWokenThen(d, ch, old(files.past), flagged, files.past, left);
    } else {
      ResumedReady(files, i);
    }
  }

  /** The newest published segment, opened and its flag set, without what was never published behind it. */
  method OpenNewest(files: ChannelFiles, wake: bool) returns (sequence: nat, i: InstanceId, next: nat)
    requires files.Valid()
    modifies files
    ensures Resumed(files, i) && sequence == |files.chain| - 1 && files.chain[sequence] == i
    ensures next == EndOf(files.g, files.disk.files[i])
    ensures files.chain == old(files.chain) && old(files.past) <= files.past && files.Logged() == old(files.Logged())
    ensures files.disk == Disk(old(files.disk).files[i := old(Opened(files.g, Newest(files.disk, files.chain))).(
        wakes := wake)], old(files.disk).names - {|files.chain|})
    ensures NoneWoken(old(files.past), files.past)
  {
    hide Inv, Members, ChannelFiles.Valid, ChannelFiles.Logged, Rested, ChannelFiles.Heads, Settled, EndOf, Resumed,
      NoneWoken, Opened;
    sequence, i := DiscardUnpublishedTail(files);
    HeadIs(files, i);
    ghost var discarded := files.past;
    next := OpenFile(files, sequence, i);
    NoneWokenOn(old(files.past), discarded, files.past);
    ghost var resumed := files.past;
    SetWakeFlag(files, i, wake);
    NoneWokenOn(old(files.past), resumed, files.past);
  }

  lemma RollDoneNames(g: Geometry, d: Disk, ch: History)
    requires Inv(g, d, ch)
    ensures RollDone(g, d, ch, d).names == d.names && (|ch| == 1 ==> RollDone(g, d, ch, d) == d)
  {
    hide Inv, Members, Done, Finished;
  }

  lemma HeadIs(files: ChannelFiles, i: InstanceId)
    requires files.Heads(i)
    ensures files.chain[|files.chain| - 1] == i
  {
    hide Inv, Members, ChannelFiles.Valid, HeadOpen;
  }

  lemma ReadyClean(files: ChannelFiles, i: InstanceId)
    requires files.Ready(i) && |files.chain| !in files.disk.names
    ensures Clean(files, i)
  {
    hide Inv, Members, ChannelFiles.Valid;
  }

  /** The newest segment opened and its flag set, finishing the last roll is all that is left. */
  lemma RecoveredBy(g: Geometry, d: Disk, ch: History, e: Disk, wake: bool)
    requires Inv(g, d, ch) && Inv(g, e, ch)
    requires e == Disk(d.files[ch[|ch| - 1] := Opened(g, Newest(d, ch)).(wakes := wake)], d.names - {|ch|})
    ensures RollDone(g, e, ch, e) == Recovered(g, d, ch, wake)
  {
    hide Inv, Members, Opened, Done, Finished;
    if |ch| >= 2 {
      MemberFiles(g, d, ch, |ch| - 2);
      if ch[|ch| - 2] == ch[|ch| - 1] { OneFileEach(g, d, ch, |ch| - 2, |ch| - 1); }
      assert Seg(e, ch, |ch| - 2) == Seg(d, ch, |ch| - 2);
    }
  }

  lemma CleanRests(files: ChannelFiles, i: InstanceId, wake: bool)
    requires Clean(files, i)
    ensures Recovered(files.g, files.disk, files.chain, wake)
      == Put(files.disk, i, files.disk.files[i].(wakes := wake))
  {
    hide Inv, Members, ChannelFiles.Valid, Settled, Recovered, Rested;
    CleanRecovered(files.g, files.disk, files.chain, i, wake);
  }

  lemma CleanRecovered(g: Geometry, d: Disk, ch: History, i: InstanceId, wake: bool)
    requires Inv(g, d, ch) && Rested(g, d, ch, i) && |ch| !in d.names
    ensures Recovered(g, d, ch, wake) == Put(d, i, d.files[i].(wakes := wake))
  {
    hide Inv, Members, Opened, Done, Finished, Settled;
    OpenedAlready(g, d.files[i]);
    assert d.names - {|ch|} == d.names;
  }

  /**
   * A process may die at any moment ever recorded, in a commit, a roll or a recovery: opening what it
   * leaves gives a writer whose log is that moment's, to the record.
   */
  method ReopenAt(files: ChannelFiles, d: Disk, ghost ch: History, ghost k: nat, mtu: nat, keep: nat, wake: bool)
      returns (w: Writer)
    requires files.Valid() && k < |files.past| && files.past[k] == Moment(d, ch)
    ensures fresh(w) && fresh(w.files) && w.Valid() && w.pending == Nothing
    ensures Inv(files.g, d, ch) && w.files.Logged() == Log(files.g, d, ch)
    ensures w.files.Logged() <= files.Logged() && w.files.disk == Recovered(files.g, d, ch, wake)
  {
    hide Inv, Members, ChannelFiles.Logged, Log, Clean, Writer.AtEnd, Writer.Valid, Recovered, WokenLast;
    LogsGrow(files.g, files.past, k, |files.past| - 1);
    LoggedIs(files);
    var again := new ChannelFiles(files.g, d, ch);
    LoggedIs(again);
    ghost var i;
    w, i := Reopen(again, mtu, keep, wake);
  }

  /** A channel with nothing in it but its first file, not yet published. */
  function Created(g: Geometry, file: InstanceId, base: nat, generation: nat): Disk
    requires g.Valid()
  {
    Disk(map[file := Segments.Fresh(g, base, 0, generation, Initial(file))], map[0 := file])
  }

  lemma CreatedHolds(g: Geometry, file: InstanceId, base: nat, generation: nat)
    requires g.Valid() && file != NONE && base <= U64_MAX
    ensures var d := Created(g, file, base, generation);
      && Inv(g, d, [file]) && Log(g, d, [file]) == [] && Genesis(d, [file]) == base
      && Settled(g, d.files[file]) && !d.files[file].published
  {
    hide Settled, ContentOf, EndOf, Segments.Fresh, Linked;
    var d := Created(g, file, base, generation);
    FreshIsSettled(g, base, 0, generation, Initial(file));
    FreshFields(g, base, 0, generation, Initial(file));
    assert Member(g, d, [file], 0);
    assert LogTo(g, d, [file], 0) == [];
  }

  /** The same, published, with the wake flag set. */
  function Founded(g: Geometry, file: InstanceId, base: nat, generation: nat, wake: bool): Disk
    requires g.Valid()
  {
    var d := Created(g, file, base, generation);
    Put(d, file, d.files[file].(published := true, wakes := wake))
  }

  lemma FoundedSteps(d: Disk, i: InstanceId, wake: bool)
    requires i in d.files
    ensures var e := Put(d, i, d.files[i].(published := true));
      Put(e, i, e.files[i].(wakes := wake)) == Put(d, i, d.files[i].(published := true, wakes := wake))
  {
  }

  /** Create a channel, its first record to have index `base`. */
  method Create(g: Geometry, file: InstanceId, base: nat, generation: nat, mtu: nat, keep: nat, wake: bool)
      returns (w: Writer)
    requires g.Valid() && file != NONE && base <= U64_MAX
    ensures fresh(w) && fresh(w.files) && w.Valid() && w.files.g == g && w.pending == Nothing
    ensures w.files.Logged() == [] && w.files.chain == [file]
    ensures w.files.disk == Founded(g, file, base, generation, wake)
  {
    hide Inv, Members, ChannelFiles.Valid, ChannelFiles.Logged, Settled, EndOf, Resumed, Created, ChannelFiles.Ready,
      Log, Put, Open, Opened, NoneWoken;
    CreatedHolds(g, file, base, generation);
    OpenedAlready(g, Created(g, file, base, generation).files[file]);
    FoundedSteps(Created(g, file, base, generation), file, wake);
    var files := new ChannelFiles(g, Created(g, file, base, generation), [file]);
    AlwaysOpen(g, files.disk, files.chain);
    ghost var log := files.Logged();
    assert log == [] by { LoggedIs(files); }
    CreatedHeads(files, file);
    var next := OpenFile(files, 0, file);
    SetWakeFlag(files, file, wake);
    ResumedReady(files, file);
    w := new Writer(files, file, 0, next, mtu, keep, wake);
  }

  lemma LoggedIs(files: ChannelFiles)
    requires files.Valid()
    ensures files.Logged() == Log(files.g, files.disk, files.chain)
  {
    hide Inv, Log, Members;
  }

  lemma CreatedHeads(files: ChannelFiles, i: InstanceId)
    requires files.Valid() && files.chain == [i]
    ensures files.Heads(i)
  {
    hide Inv, Members, HeadOpen;
    AlwaysOpen(files.g, files.disk, files.chain);
  }
}
