/** What a writer that dies between publishing a successor and retention leaves to the readers that open the channel. */
module Crashes {
  import opened Bytes
  import opened Layout
  import opened Linking
  import opened Segments
  import opened Channel
  import opened SharedFiles
  import opened Writers
  import opened Recovery
  import opened Opening

  /** The segment `s` with a Roll committed at slot `p` and the position past it: nothing else of it has changed. */
  predicate RolledAt(s: Segment, p: nat, t: Segment) {
    && t.writePosition == p + ROLL_TOTAL + HEADER_SLOT && t.base == s.base && t.messageCount == s.messageCount
    && |t.mem| == |s.mem| && p + ROLL_TOTAL <= |s.mem| && t.mem[p + ROLL_TOTAL..] == s.mem[p + ROLL_TOTAL..]
  }

  /** All files but `i` are what they were. */
  predicate Untouched(d: Disk, e: Disk, i: InstanceId) {
    forall f :: f in d.files && f != i ==> f in e.files && e.files[f] == d.files[f]
  }

  /** A file roll, store by store, up to the one that moves the position past the Roll. */
  method CutShort(w: Writer, j: InstanceId)
    requires w.Valid() && w.sequence < U64_MAX && w.sequence + 1 !in w.files.disk.names
    requires j !in w.files.disk.files && j != NONE
    requires w.files.disk.files[w.instance].base + w.files.disk.files[w.instance].messageCount <= U64_MAX
    modifies w.files
    ensures w.files.chain == old(w.files.chain) + [j] && old(w.files.past) <= w.files.past
    ensures w.files.Crossing(w.instance, j) && w.files.Ready(j) && w.sequence + 2 == |w.files.chain|
    ensures EndOf(w.files.g, w.files.disk.files[j]) == FIRST_RECORD
    ensures w.files.disk.names == old(w.files.disk.names)[w.sequence + 1 := j]
    ensures w.files.disk.files.Keys == old(w.files.disk.files.Keys) + {j}
    ensures w.instance in old(w.files.disk.files) && Untouched(old(w.files.disk), w.files.disk, w.instance)
    ensures RolledAt(old(w.files.disk.files[w.instance]), w.next, w.files.disk.files[w.instance])
    ensures var s := old(w.files.disk.files[w.instance]); w.files.disk.files[j].base == s.base + s.messageCount
    ensures w.files.disk.files[j].messageCount == 0
  {
    hide Writer.AtEnd, ChannelFiles.Valid, ChannelFiles.Ready, ChannelFiles.Crossing, EndOf, ChannelFiles.Logged,
      Settled, Inv, Members, ReadyToPublish, RollAt, RollBody, RollEdge.Encode, Writable, Writers.Holds, EndsOnRoll,
      Untouched, RolledAt, Put, Stamped;
    ghost var d0 := w.files.disk;
    w.InstalledAhead(j);
    ghost var d1 := w.files.disk;
    var s := w.files.disk.files[w.instance];
    var edge := After(w.sequence, s.base, s.messageCount, j);
    w.BaseFits();
    w.StageRoll(edge.value);
    ghost var m := w.files.disk.files[w.instance].mem;
    Puts(d1, w.instance, s.(mem := m));
    w.Stamp(edge.value);
    ghost var d3 := w.files.disk;
    w.Cross(j);
    CutShortLeaves(d0, d1, m, d3, w.files.disk, w.instance, j, w.next, edge.value.nextBase, w.wake);
  }

  lemma Puts(d: Disk, i: InstanceId, t: Segment)
    ensures var e := Put(d, i, t); e.names == d.names && e.files == d.files[i := t]
  {
  }

  /** What those stores come to, of the files and the names. */
  lemma CutShortLeaves(d0: Disk, d1: Disk, m: seq<byte>, d3: Disk, e: Disk, i: InstanceId, j: InstanceId, p: nat,
      base: nat, wakes: bool)
    requires i in d0.files && i != j && j !in d0.files && j in d1.files && d1.files == d0.files[j := d1.files[j]]
    requires i in d1.files && j in d1.files[i := d1.files[i].(mem := m)]
    requires d3 == Stamped(Put(d1, i, d1.files[i].(mem := m)), j, base, wakes)
    requires |m| == |d0.files[i].mem| && p + ROLL_TOTAL <= |m|
    requires m[p + ROLL_TOTAL..] == d0.files[i].mem[p + ROLL_TOTAL..]
    requires i in d3.files && j in d3.files && e.names == d3.names
    requires e.files == d3.files[i := d3.files[i].(mem := d3.files[i].mem[p := 1],
      writePosition := p + ROLL_TOTAL + HEADER_SLOT)][j := d3.files[j].(published := true)]
    ensures Untouched(d0, e, i)
    ensures i in e.files && RolledAt(d0.files[i], p, e.files[i])
    ensures e.names == d1.names && e.files.Keys == d0.files.Keys + {j}
    ensures e.files[j].base == base && e.files[j].messageCount == d1.files[j].messageCount
  {
    var t := e.files[i].mem;
    assert t[p + ROLL_TOTAL..] == m[p + ROLL_TOTAL..];
  }

  /** A new channel's first segment: nothing behind the first slot. */
  lemma FoundedSlot(g: Geometry, a: InstanceId, base: nat, generation: nat)
    requires g.Valid() && FIRST_RECORD + ROLL_TOTAL < g.region
    ensures var d := Founded(g, a, base, generation, false); d.files.Keys == {a} && d.names == map[0 := a]
    ensures var s := Founded(g, a, base, generation, false).files[a];
      && EndOf(g, s) == FIRST_RECORD && s.base == base && s.messageCount == 0
      && g.region <= |s.mem| && s.mem[FIRST_RECORD + ROLL_TOTAL] == 0
  {
    hide EndOf, ContentOf, Settled, Geometry.Prealloc;
    FreshIsSettled(g, base, 0, generation, Initial(a));
    SettledFields(g, Created(g, a, base, generation).files[a], Founded(g, a, base, generation, false).files[a]);
    PreallocWhole(g);
  }

  /** A valid writer stands at the end of the newest segment. */
  lemma Stands(w: Writer, i: InstanceId)
    requires w.Valid() && w.files.chain[|w.files.chain| - 1] == i
    ensures w.instance == i && w.sequence == |w.files.chain| - 1 && w.next == EndOf(w.files.g, w.files.disk.files[i])
    ensures w.files.Ready(i)
  {
    hide Inv, Settled, EndOf, Members, Writers.Holds;
    w.files.NewestIs(w.instance);
  }

  /** What a `Live` open makes of a segment rolled at its first slot, with zeros behind the Roll. */
  lemma StartsBehind(g: Geometry, s: Segment, t: Segment)
    requires g.Valid() && FIRST_RECORD + ROLL_TOTAL + HEADER_SLOT <= g.region <= |s.mem|
    requires RolledAt(s, FIRST_RECORD, t) && s.mem[FIRST_RECORD + ROLL_TOTAL] == 0
    ensures LiveAt(g, t.writePosition, t.messageCount, t) == Start(FIRST_RECORD + ROLL_TOTAL, s.base + s.messageCount)
  {
    hide Nat;
    assert t.mem[FIRST_RECORD + ROLL_TOTAL] == t.mem[FIRST_RECORD + ROLL_TOTAL..][0]
        == s.mem[FIRST_RECORD + ROLL_TOTAL..][0];
    SmallMod(FIRST_RECORD + ROLL_TOTAL, g.region);
  }

  lemma OffTheChain(files: ChannelFiles, a: InstanceId)
    requires files.Valid() && |files.chain| == 3 && files.chain[0] == a && 0 in files.disk.names
    requires 1 !in files.disk.names
    ensures files.g.Valid() && a in files.disk.files && !Newer(files.disk, 0)
    ensures var s := files.disk.files[a];
      !Right(files.g, files.disk, files.chain, 0, a, LiveAt(files.g, s.writePosition, s.messageCount, s))
  {
    hide Inv, Right, LiveAt, PublishedAt;
    HoleMisleads(files.g, files.disk, files.chain, 0);
  }

  /** The pair stored in `s` leads a `Live` open to the slot behind its Roll. */
  ghost predicate LeadsAstray(g: Geometry, s: Segment, base: nat)
    requires g.Valid()
  {
    LiveAt(g, s.writePosition, s.messageCount, s) == Start(FIRST_RECORD + ROLL_TOTAL, base)
  }

  /** The first roll of a new channel, cut short before its retention. */
  method FirstRoll(g: Geometry, a: InstanceId, b: InstanceId, base: nat, generation: nat) returns (files: ChannelFiles)
    requires g.Valid() && FIRST_RECORD + ROLL_TOTAL + HEADER_SLOT <= g.region
    requires a != NONE && b != NONE && a != b && base <= U64_MAX
    ensures fresh(files) && files.g == g && files.Ready(b) && files.chain == [a, b]
    ensures files.disk.names == map[0 := a][1 := b] && files.disk.files.Keys == {a, b}
    ensures LeadsAstray(g, files.disk.files[a], base)
    ensures files.disk.files[b].base == base && files.disk.files[b].messageCount == 0
  {
    hide Writer.AtEnd, ChannelFiles.Valid, ChannelFiles.Ready, ChannelFiles.Crossing, ChannelFiles.Logged, EndOf,
      Settled, Inv, Members, Writable, Writers.Holds, LiveAt, Founded, RolledAt;
    var w := Create(g, a, base, generation, 0, 1, false);
    FoundedSlot(g, a, base, generation);
    Stands(w, a);
    CutShort(w, b);
    files := w.files;
    StartsBehind(g, Founded(g, a, base, generation, false).files[a], files.disk.files[a]);
  }

  /** A writer opens the channel as it was left, and rolls once, with its retention. */
  method SecondRoll(files: ChannelFiles, b: InstanceId, c: InstanceId) returns (w: Writer)
    requires files.Ready(b) && |files.chain| == 2 && c !in files.disk.files && c != NONE
    requires 0 in files.disk.names && 1 in files.disk.names && 2 !in files.disk.names
    requires files.disk.files[b].base + files.disk.files[b].messageCount <= U64_MAX
    modifies files
    ensures w.files == files && w.AtEnd() && w.keep == 1 && files.chain == old(files.chain) + [c]
    ensures files.disk.names == old(files.disk.names)[2 := c] - {1}
    ensures Untouched(old(files.disk), files.disk, b)
  {
    hide Writer.AtEnd, ChannelFiles.Valid, ChannelFiles.Ready, ChannelFiles.Crossing, ChannelFiles.Logged, EndOf,
      Settled, Inv, Members, Writable, Writers.Holds, RolledAt, WokenLast, Recovered, Rested;
    files.NewestIs(b);
    assert Clean(files, b);
    ghost var i;
    w, i := Reopen(files, 0, 1, false);
    Stands(w, b);
    CutShort(w, c);
    w.Switch(b, c);
    w.Prune();
  }

  /**
   * With retention at one segment, a writer dies in its first roll before retention and the next writer
   * rolls once, whole: segment 1 is gone and segment 0 is still there. A reader that listed segment 0
   * when it was the newest then starts behind its Roll, off the record chain.
   */
  method CrashLeavesHole(g: Geometry, a: InstanceId, b: InstanceId, c: InstanceId, base: nat, generation: nat)
      returns (w: Writer)
    requires g.Valid() && FIRST_RECORD + ROLL_TOTAL + HEADER_SLOT <= g.region
    requires a != NONE && b != NONE && c != NONE && a != b && a != c && b != c && base <= U64_MAX
    ensures w.AtEnd() && w.keep == 1 && w.files.g == g && w.files.chain == [a, b, c]
    ensures 0 in w.files.disk.names && 1 !in w.files.disk.names && 2 in w.files.disk.names
    ensures a in w.files.disk.files && !Newer(w.files.disk, 0)
    ensures var s := w.files.disk.files[a];
      && LiveAt(g, s.writePosition, s.messageCount, s) == Start(FIRST_RECORD + ROLL_TOTAL, base)
      && !Right(g, w.files.disk, w.files.chain, 0, a, LiveAt(g, s.writePosition, s.messageCount, s))
  {
    hide Writer.AtEnd, ChannelFiles.Valid, ChannelFiles.Ready, EndOf, Settled, Inv, Members, Writable, LiveAt, Right,
      PublishedAt;
    var files := FirstRoll(g, a, b, base, generation);
    w := SecondRoll(files, b, c);
    OffTheChain(w.files, a);
  }
}
