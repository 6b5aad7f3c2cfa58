/**
 * The writer: reserving, committing, rolling over a region and rolling to the next file, one
 * store at a time over the shared files.
 */
module Writers {
  import opened Bytes
  import opened Layout
  import opened Chain
  import opened Linking
  import opened Segments
  import opened Channel
  import opened SharedFiles
  import opened RecordBytes
  import opened Retention
  import opened Moments

  datatype Fault = MtuExceeded | TooLarge | NoReservation | TooLong | Io | Exhausted(error: Error)

  datatype Outcome<+T> = Good(value: T) | Bad(fault: Fault)

  datatype Reservation = Nothing | Reserved(size: nat)

  /** The rolls one reservation makes, in order: at most three, at most one of them to a next file. */
  datatype Path = Straight | Region | File | RegionFile | FileRegion | RegionFileRegion
  {
    predicate NewFile() { File? || RegionFile? || FileRegion? || RegionFileRegion? }

    function Left(): nat {
      match this
      case Straight => 3
      case Region | File => 2
      case RegionFile | FileRegion => 1
      case RegionFileRegion => 0
    }

    function OverRegion(): Path
      requires Straight? || File? || RegionFile?
    {
      if Straight? then Region else if File? then FileRegion else RegionFileRegion
    }

    function ToNextFile(): Path
      requires Straight? || Region?
    {
      if Straight? then File else RegionFile
    }

    /** The slot this leaves a writer at that stood at `next`. */
    function Lands(r: nat, next: nat): nat
      requires r > 0
    {
      match this
      case Straight => next
      case Region => NextStart(r, next)
      case File | RegionFile => FIRST_RECORD
      case FileRegion | RegionFileRegion => r
    }

    /** The slot of the Roll this leaves in the file it goes on from. */
    function RollsAt(r: nat, next: nat): nat
      requires r > 0
    {
      if RegionFile? || RegionFileRegion? then NextStart(r, next) else next
    }

    /** Some, but not all, of the rolls of `whole`, the first ones. */
    predicate CutShort(whole: Path) {
      match this
      case Straight => whole != Straight
      case Region => whole == RegionFile || whole == RegionFileRegion
      case File => whole == FileRegion
      case RegionFile => whole == RegionFileRegion
      case _ => false
    }
  }

  /** The segment, its file `n` bytes long, with zeros behind what it held. */
  function Grown(s: Segment, n: nat): Segment
    requires |s.mem| <= n
  {
    s.(mem := s.mem + Zeros(n - |s.mem|))
  }

  /** Where the region after that of slot `p` starts. */
  function NextStart(r: nat, p: nat): nat
    requires r > 0
  {
    p - p % r + r
  }

  /** Whether a record needing `needed` bytes is past the roll size at slot `p`. */
  predicate PastRoll(g: Geometry, p: nat, needed: nat) {
    g.roll > 0 && p + needed > g.roll
  }

  /** The rolls due before a record needing `needed` bytes goes in, from slot `next` on. */
  function Due(g: Geometry, next: nat, needed: nat): Path
    requires g.Valid()
  {
    var fits := FIRST_RECORD + needed <= g.region;
    if PastRoll(g, next, needed) then if fits then File else FileRegion
    else if g.Room(next, needed) then Straight
    else if !PastRoll(g, NextStart(g.region, next), needed) then Region
    else if fits then RegionFile
    else RegionFileRegion
  }

  /** Bytes a reservation of `size` takes, its header, padding and room for a Roll behind it included. */
  function Needed(size: nat): nat {
    AlignUp(HEADER_SLOT + size) + ROLL_TOTAL
  }

  /** A store into a file just stored into. */
  lemma PokeAgain(d: Disk, i: InstanceId, s: Segment, m: seq<byte>, p: nat, b: seq<byte>)
    requires p + |b| <= |m|
    ensures var t := s.(mem := m);
      Put(Put(d, i, t), i, Poke(Put(d, i, t).files[i], p, b)) == Put(d, i, s.(mem := Splice(m, p, b)))
  {
  }

  /** What the stores of a Skip come to: of the fields beside the bytes the position alone changes. */
  lemma SkipStores(d: Disk, i: InstanceId, p: nat, skip: nat, start: nat)
    requires i in d.files && start == p + HEADER_SLOT + skip && start + HEADER_SLOT <= |d.files[i].mem|
    ensures var s := d.files[i];
      var d1 := Put(d, i, Poke(s, start, Layout.Encode(PREINSTALL)));
      var d2 := Put(d1, i, Poke(d1.files[i], p, Layout.Encode(SkipHeader(skip))));
      var d3 := Put(d2, i, Committing(d2.files[i], p, false, start));
      && d2.files[i].mem
        == Splice(Splice(s.mem, start, Layout.Encode(PREINSTALL)), p, Layout.Encode(SkipHeader(skip)))
      && |d1.files[i].mem| == |s.mem| && |d3.files[i].mem| == |s.mem|
      && d3 == Put(d, i, s.(mem := d3.files[i].mem, writePosition := start + HEADER_SLOT))
  {
    hide Layout.Encode;
    var s := d.files[i];
    var d1 := Put(d, i, Poke(s, start, Layout.Encode(PREINSTALL)));
    var d2 := Put(d1, i, Poke(d1.files[i], p, Layout.Encode(SkipHeader(skip))));
    var t := Committing(d2.files[i], p, false, start);
    assert d2.files[i := t] == d.files[i := t];
  }

  /** The reservation's slot and payload lie in one region, and the slot after it is preinstalled. */
  predicate Holds(g: Geometry, s: Segment, next: nat, r: Reservation)
    requires g.Valid()
  {
    r.Reserved? ==>
      && next % g.region + Needed(r.size) <= g.region
      && Preinstalled(s.mem, next + AlignUp(HEADER_SLOT + r.size))
  }

  /** The segment with a record counted and published. */
  function Counted(s: Segment, user: bool, after: nat): Segment {
    s.(messageCount := if user then s.messageCount + 1 else s.messageCount, writePosition := after + HEADER_SLOT)
  }

  /** The segment with the record at slot `p` committed, counted and published. */
  function Committing(s: Segment, p: nat, user: bool, after: nat): Segment
    requires p < |s.mem|
  {
    Counted(s.(mem := s.mem[p := 1]), user, after)
  }

  /** The record that a header laid at slot `p` makes of the bytes behind it. */
  function Laying(m: seq<byte>, p: nat, h: Header): Record
    requires p + HEADER_SLOT + h.length <= |m|
  {
    Record(h.messageType, h.userMeta, m[p + HEADER_SLOT..p + HEADER_SLOT + h.length])
  }

  /** The wake word is a 32-bit counter. */
  function Woken(s: Segment): Segment {
    s.(wakeWord := (s.wakeWord + 1) % 0x1_0000_0000)
  }

  /**
   * The channel `d` has gone on from file `from` to file `to`, now segment `sequence`: the file
   * already installed under that name, or else `file`.
   */
  predicate Continues(d: Disk, from: InstanceId, e: Disk, to: InstanceId, sequence: nat, file: InstanceId, wake: bool,
      keep: nat) {
    && from in d.files && from in e.files && to in e.files
    && to == (if sequence in d.names then d.names[sequence] else file)
    && e.files[to].base == d.files[from].base + d.files[from].messageCount
    && e.files[to].wakes == wake
    && e.files[from].wakeWord == (if wake then Woken(d.files[from]) else d.files[from]).wakeWord
    && e.names == Pruned(d.names[sequence := to], sequence, keep)
  }

  lemma RetainedOn(d: Disk, from: InstanceId, e: Disk, to: InstanceId, sequence: nat, file: InstanceId, wake: bool,
      keep: nat)
    requires sequence > 0 && Retained(d.names, sequence, keep) && Continues(d, from, e, to, sequence, file, wake, keep)
    ensures Retained(e.names, sequence + 1, keep)
  {
    hide Retained, Pruned;
    RetainedStays(d.names, sequence, keep, to);
  }

  /** There are indices left for the records of a file after this one. */
  predicate IndexLeft(d: Disk, i: InstanceId) {
    i in d.files && d.files[i].base + d.files[i].messageCount <= U64_MAX
  }

  lemma IndexesLeft(d: Disk, e: Disk, i: InstanceId)
    requires i in d.files && i in e.files
    requires e.files[i].base == d.files[i].base && e.files[i].messageCount == d.files[i].messageCount
    ensures IndexLeft(e, i) == IndexLeft(d, i)
  {
  }

  /** Staged and stamped as `d1`, crossed as `d2`, and left as `e`. */
  lemma CrossedContinues(d: Disk, d1: Disk, d2: Disk, e: Disk, i: InstanceId, j: InstanceId, sequence: nat, wake: bool,
      keep: nat)
    requires i in d.files && i in d1.files && j in d1.files && i in d2.files && j in d2.files && i != j
    requires sequence in d.names && d.names[sequence] == j && d1.names == d.names && d2.names == d1.names
    requires d1.files[i].wakeWord == d.files[i].wakeWord && d2.files[i].wakeWord == d1.files[i].wakeWord
    requires d1.files[j].base == d.files[i].base + d.files[i].messageCount && d1.files[j].wakes == wake
    requires d2.files[j].base == d1.files[j].base && d2.files[j].wakes == d1.files[j].wakes
    requires e.files == if wake then d2.files[i := Woken(d2.files[i])] else d2.files
    requires e.names == Pruned(d2.names, sequence, keep)
    ensures Continues(d, i, e, j, sequence, i, wake, keep)
  {
    hide Pruned;
    assert d.names[sequence := j] == d.names;
  }

  lemma PreparedContinues(d: Disk, f: Disk, from: InstanceId, e: Disk, to: InstanceId, sequence: nat, file: InstanceId,
      wake: bool, keep: nat)
    requires from in d.files && from in f.files && d.files[from] == f.files[from]
    requires sequence in f.names && f.names == if sequence in d.names then d.names else d.names[sequence := file]
    requires Continues(f, from, e, to, sequence, from, wake, keep)
    ensures Continues(d, from, e, to, sequence, file, wake, keep)
  {
    hide Pruned;
    assert f.names[sequence := to] == d.names[sequence := to];
  }

  /** What `adopt_successor` makes of a file installed under the next name before this writer got there. */
  datatype Adopting = Adopted | OtherLength | AlreadyPublished | Elsewhere | NotEmpty | NotPreinstalled

  function Adoption(g: Geometry, s: Segment, sequence: nat, generation: nat, parent: InstanceId): Adopting
    requires g.Valid() && sequence > 0
  {
    if |s.mem| != g.Prealloc() then OtherLength
    else if s.published then AlreadyPublished
    else if s.identity.predecessor != parent || s.identity.predecessorSequence != sequence - 1 || s.sequence != sequence
      || s.generation != generation then Elsewhere
    else if s.messageCount != 0 || s.writePosition != FIRST_RECORD + HEADER_SLOT then NotEmpty
    else if !Preinstalled(s.mem, FIRST_RECORD) then NotPreinstalled
    else Adopted
  }

  /** Whatever a crash, a failed roll or the helper left under the next name is fit to be adopted. */
  lemma SpareAdopted(g: Geometry, d: Disk, ch: History)
    requires Inv(g, d, ch) && |ch| in d.names
    ensures d.names[|ch|] in d.files
    ensures Adoption(g, d.files[d.names[|ch|]], |ch|, Newest(d, ch).generation, ch[|ch| - 1]) == Adopted
  {
    hide Inv, Members, Geometry.Prealloc, Preinstalled, Segments.Fresh, Settled, EndOf, ContentOf;
    SpareNamed(g, d, ch);
    var i := d.names[|ch|];
    SpareSettled(g, d, ch, i);
    SameGeneration(g, d, ch, |ch| - 1);
    FreshStart(g, d.files[i].base, |ch|, Seg(d, ch, 0).generation, Successor(i, ch[|ch| - 1], |ch| - 1));
  }

  /** An installed file is new, and holds nothing. */
  lemma InstalledEmpty(g: Geometry, d: Disk, ch: History, i: InstanceId)
    requires Inv(g, d, ch) && |ch| <= U64_MAX && ch[0] in d.files
    ensures var e := Install(g, d, ch, i);
      i in e.files && e.files == d.files[i := e.files[i]] && e.files[i].messageCount == 0
        && e.names == d.names[|ch| := i]
  {
    hide Inv, Members, Segments.Fresh;
    FreshStart(g, 0, |ch|, Seg(d, ch, 0).generation, Successor(i, ch[|ch| - 1], |ch| - 1));
  }

  lemma FreshStart(g: Geometry, base: nat, sequence: nat, generation: nat, identity: Identity)
    requires g.Valid()
    ensures var s := Segments.Fresh(g, base, sequence, generation, identity);
      |s.mem| == g.Prealloc() && s.messageCount == 0 && s.writePosition == FIRST_RECORD + HEADER_SLOT
  {
    hide FreshBytes, Geometry.Prealloc;
    PreallocWhole(g);
  }

  lemma OthersAside(g: Geometry, d: Disk, i: InstanceId, p: nat, j: InstanceId, t: Segment)
    requires EndsOnRoll(g, d, i, p) && i != j
    ensures EndsOnRoll(g, Put(d, j, t), i, p)
  {
    hide Done, EndOf;
  }

  /** The rolls made so far are some of those due, from slot `start` on, or all. */
  predicate OnTheWay(g: Geometry, start: nat, needed: nat, path: Path)
    requires g.Valid()
  {
    path == Due(g, start, needed) || path.CutShort(Due(g, start, needed))
  }

  /** Offsets of the slots that rolls lead to. */
  lemma StartsOf(g: Geometry, p: nat)
    requires g.Valid()
    ensures FIRST_RECORD % g.region == FIRST_RECORD && g.region % g.region == 0
    ensures NextStart(g.region, p) % g.region == 0
    ensures p < g.region ==> NextStart(g.region, p) == g.region
  {
    var r := g.region;
    SmallMod(FIRST_RECORD, r);
    ModUnique(r, 1, 0);
    ModStep(p, r - p % r, r);
    if p < r { SmallMod(p, r); }
  }

  lemma NoneYet(g: Geometry, start: nat, needed: nat)
    requires g.Valid()
    ensures OnTheWay(g, start, needed, Straight) && Straight.Lands(g.region, start) == start
  {
  }

  /** What is due next, of a record that some roll can satisfy: a file roll, a region roll, or nothing more. */
  lemma DueNext(g: Geometry, start: nat, needed: nat, path: Path)
    requires g.Valid() && OnTheWay(g, start, needed, path) && needed <= g.region && !PastRoll(g, FIRST_RECORD, needed)
    ensures var p, due := path.Lands(g.region, start), Due(g, start, needed);
      if PastRoll(g, p, needed) then
        && path.CutShort(due) && (path.Straight? || path.Region?) && OnTheWay(g, start, needed, path.ToNextFile())
        && path.ToNextFile().Lands(g.region, start) == FIRST_RECORD && path.ToNextFile().RollsAt(g.region, start) == p
      else if !g.Room(p, needed) then
        && path.CutShort(due) && (path.Straight? || path.File? || path.RegionFile?)
        && OnTheWay(g, start, needed, path.OverRegion())
        && path.OverRegion().Lands(g.region, start) == NextStart(g.region, p)
        && path.OverRegion().RollsAt(g.region, start) == path.RollsAt(g.region, start)
      else path == due
  {
    StartsOf(g, start);
    StartsOf(g, FIRST_RECORD);
  }

  /** File `i` has ended on a Roll at slot `p`, its roll complete. */
  ghost predicate EndsOnRoll(g: Geometry, d: Disk, i: InstanceId, p: nat) {
    g.Valid() && i in d.files && Done(g, d.files[i]) && EndOf(g, d.files[i]) == p
  }

  /** Flags and the wake word aside, the bytes and counts say where a file has ended. */
  lemma StillEnds(g: Geometry, d: Disk, i: InstanceId, p: nat, t: Segment)
    requires EndsOnRoll(g, d, i, p) && t == d.files[i].(wakes := t.wakes, wakeWord := t.wakeWord)
    ensures EndsOnRoll(g, Put(d, i, t), i, p)
  {
    hide Done, EndOf;
    SameFields(g, d.files[i], t);
  }

  lemma NamesAside(g: Geometry, d: Disk, e: Disk, i: InstanceId, p: nat)
    requires EndsOnRoll(g, d, i, p) && i in e.files && e.files[i] == d.files[i]
    ensures EndsOnRoll(g, e, i, p)
  {
    hide Done, EndOf;
  }

  /** A record of `needed` bytes that no roll could make room for. */
  predicate Unfit(g: Geometry, needed: nat) {
    needed > g.region || (g.roll > 0 && FIRST_RECORD + needed > g.roll)
  }

  /** The least multiple of 8 that is not below a header of 16 bytes and a payload of `size`. */
  predicate Padded(size: nat, p: nat) {
    p % 8 == 0 && 16 + size <= p < 16 + size + 8
  }

  /** Header and payload rounded up to 8 bytes, and 56 more for a Roll. */
  lemma NeededIs(size: nat, p: nat)
    requires Padded(size, p)
    ensures Needed(size) == p + 56
  {
    hide AlignUp;
    var q := AlignUp(HEADER_SLOT + size);
    if p < q { EightApart(p, q); } else { EightApart(q, p); }
  }

  lemma EightApart(p: nat, q: nat)
    requires p % 8 == 0 && q % 8 == 0 && q - 8 < p <= q
    ensures p == q
  {
  }

  /**
   * What comes of reserving `size` bytes from slot `next` on, unless the mtu forbids it: a record of `p` bytes
   * needs 56 more for a Roll behind it. Too large is what fits in no region or in no file; no roll is made
   * where it fits, and else those due, or some of them.
   */
  ghost predicate Answers(g: Geometry, allowed: bool, next: nat, size: nat, r: Outcome<nat>, path: Path)
    requires g.Valid()
  {
    forall p: nat :: Padded(size, p) ==>
      && (r == Bad(TooLarge) <==> allowed && Unfit(g, p + 56))
      && (allowed && !Unfit(g, p + 56) && g.Room(next, p + 56) && !PastRoll(g, next, p + 56) <==>
          r.Good? && path == Straight)
      && (r.Good? ==> path == Due(g, next, p + 56))
      && (r.Good? ==> g.Room(path.Lands(g.region, next), p + 56) && !PastRoll(g, path.Lands(g.region, next), p + 56))
      && (allowed && r.Bad? && r != Bad(TooLarge) ==> path.CutShort(Due(g, next, p + 56)))
  }

  lemma RightAnswer(g: Geometry, allowed: bool, next: nat, size: nat, r: Outcome<nat>, path: Path)
    requires g.Valid() && OnTheWay(g, next, Needed(size), path)
    requires !allowed ==> r.Bad?
    requires r == Bad(TooLarge) <==> allowed && Unfit(g, Needed(size))
    requires r.Good? ==> path == Due(g, next, Needed(size)) && g.Room(path.Lands(g.region, next), Needed(size))
    requires r.Good? ==> !PastRoll(g, path.Lands(g.region, next), Needed(size))
    requires allowed && r.Bad? && r != Bad(TooLarge) ==> path.CutShort(Due(g, next, Needed(size)))
    ensures Answers(g, allowed, next, size, r, path)
  {
    hide Path.Lands, Padded, Needed;
    forall p: nat | Padded(size, p)
      ensures Needed(size) == p + 56
    {
      NeededIs(size, p);
    }
  }

  /** What a record of `size` bytes is refused for, whatever has been written before it, and else what may fail. */
  ghost predicate Refusal(g: Geometry, mtu: nat, size: nat, r: Outcome<nat>) {
    && (r == Bad(MtuExceeded) <==> mtu > 0 && size > mtu)
    && (forall p: nat :: Padded(size, p) ==>
        (r == Bad(TooLarge) <==> (mtu == 0 || size <= mtu) && Unfit(g, p + 56)))
    && (r.Bad? ==> r.fault != NoReservation && r.fault != TooLong)
  }

  lemma RefusalOf(g: Geometry, mtu: nat, next: nat, size: nat, reserved: Outcome<nat>, path: Path, r: Outcome<nat>)
    requires g.Valid() && Answers(g, mtu == 0 || size <= mtu, next, size, reserved, path)
    requires reserved == Bad(MtuExceeded) <==> mtu > 0 && size > mtu
    requires reserved.Bad? ==> reserved.fault != NoReservation && reserved.fault != TooLong
    requires if reserved.Bad? then r == reserved else r.Good?
    ensures Refusal(g, mtu, size, r)
  {
    hide Padded, Due, Path.CutShort, Path.Lands;
  }

  /** A file roll needs a sequence and an index for what it leads to; an exhausted one lacks them. */
  predicate RunsOut(d: Disk, i: InstanceId, sequence: nat, r: Outcome<nat>, path: Path) {
    && (r == Bad(Exhausted(SequenceExhausted)) ==> sequence >= U64_MAX)
    && (r == Bad(Exhausted(IndexExhausted)) ==> !IndexLeft(d, i))
    && (path.NewFile() ==> sequence < U64_MAX && IndexLeft(d, i))
    && (r.Bad? && r.fault.Exhausted? ==>
        r.fault.error == SequenceExhausted || r.fault.error == IndexExhausted)
  }

  /** The rolls of `path`, made from slot `from` of file `i` with wake word `word`, have led to file `j`. */
  ghost predicate Leaves(g: Geometry, path: Path, i: InstanceId, from: nat, word: nat, wakes: bool, d: Disk,
      j: InstanceId)
    requires g.Valid()
  {
    && i in d.files
    && d.files[i].wakeWord == (if path.NewFile() && wakes then (word + 1) % 0x1_0000_0000 else word)
    && (if path.NewFile() then i != j && EndsOnRoll(g, d, i, path.RollsAt(g.region, from)) else i == j)
  }

  /** Stores into the file the writer is in, not to its wake word, those of a region roll among them. */
  lemma LeavesStill(g: Geometry, path: Path, more: Path, i: InstanceId, from: nat, word: nat, wakes: bool, d: Disk,
      j: InstanceId, t: Segment)
    requires g.Valid() && Leaves(g, path, i, from, word, wakes, d, j) && j in d.files
    requires t.wakeWord == d.files[j].wakeWord
    requires more.NewFile() == path.NewFile() && more.RollsAt(g.region, from) == path.RollsAt(g.region, from)
    ensures Leaves(g, more, i, from, word, wakes, Put(d, j, t), j)
  {
    hide EndsOnRoll, Path.RollsAt;
    if path.NewFile() { OthersAside(g, d, i, path.RollsAt(g.region, from), j, t); }
  }

  lemma LeavesNone(g: Geometry, d: Disk, i: InstanceId, from: nat, wakes: bool)
    requires g.Valid() && i in d.files
    ensures Leaves(g, Straight, i, from, d.files[i].wakeWord, wakes, d, i)
  {
  }

  lemma LeavesIn(g: Geometry, path: Path, i: InstanceId, from: nat, word: nat, wakes: bool, d: Disk, j: InstanceId)
    requires g.Valid() && Leaves(g, path, i, from, word, wakes, d, j) && !path.NewFile()
    ensures i == j
  {
  }

  lemma LeavesHere(g: Geometry, path: Path, d: Disk, e: Disk, i: InstanceId, from: nat, word: nat, wakes: bool)
    requires g.Valid() && Leaves(g, path, i, from, word, wakes, d, i) && !path.NewFile()
    requires i in d.files && i in e.files && e.files[i] == d.files[i]
    ensures Leaves(g, path, i, from, word, wakes, e, i)
  {
  }

  /** A file roll. */
  lemma LeavesFile(g: Geometry, path: Path, i: InstanceId, from: nat, word: nat, d: Disk, e: Disk, j: InstanceId,
      sequence: nat, file: InstanceId, wakes: bool, keep: nat)
    requires g.Valid() && (path.Straight? || path.Region?) && Leaves(g, path, i, from, word, wakes, d, i) && i != j
    requires Continues(d, i, e, j, sequence, file, wakes, keep)
    requires EndsOnRoll(g, e, i, path.ToNextFile().RollsAt(g.region, from))
    ensures Leaves(g, path.ToNextFile(), i, from, word, wakes, e, j)
  {
    hide EndsOnRoll, Path.RollsAt, Pruned;
  }

  class Writer {
    const files: ChannelFiles
    const mtu: nat
    /** How many segments retention keeps; 0 for all. */
    const keep: nat
    const wake: bool
    var sequence: nat
    var instance: InstanceId
    var next: nat
    var pending: Reservation
    /** How many calls to the system have failed this writer. */
    ghost var faults: nat

    constructor (files: ChannelFiles, instance: InstanceId, sequence: nat, next: nat, mtu: nat, keep: nat, wake: bool)
      requires files.Ready(instance) && sequence == |files.chain| - 1
      requires next == EndOf(files.g, files.disk.files[instance])
      ensures Valid() && this.files == files && this.instance == instance && this.sequence == sequence
      ensures this.next == next
      ensures this.mtu == mtu && this.keep == keep && this.wake == wake && pending == Nothing
    {
      hide ChannelFiles.Ready, ChannelFiles.Valid, EndOf, Inv, Settled, Members, Writable;
      this.files, this.mtu, this.keep, this.wake := files, mtu, keep, wake;
      this.sequence, this.instance, this.next, pending := sequence, instance, next, Nothing;
    }

    /** The writer stands at the end of the newest segment, with no roll unfinished. */
    ghost predicate AtEnd()
      reads `sequence, `instance, `next, files
      ensures AtEnd() ==> files.Valid() && files.g.Valid() && instance in files.disk.files
    {
      && files.Ready(instance)
      && sequence == |files.chain| - 1
      && next == EndOf(files.g, files.disk.files[instance])
    }

    ghost predicate Valid()
      reads this, files
      ensures Valid() ==> AtEnd()
    {
      AtEnd() && Holds(files.g, files.disk.files[instance], next, pending)
    }

    /** A call to the system that creates, grows or maps a file. */
    method Attempt() returns (ok: bool)
      modifies `faults
      ensures faults == old(faults) + if ok then 0 else 1
    {
      ok := *;
      if !ok { faults := faults + 1; }
    }

    /** One store past the chain, in a file that so far differs from `s` of disk `d` in holding bytes `m`. */
    method Patch(p: nat, b: seq<byte>, ghost d: Disk, ghost s: Segment, ghost m: seq<byte>,
        ghost was: seq<Moment>)
      requires AtEnd() && files.disk == Put(d, instance, s.(mem := m))
      requires Unwoken(was, files.past, instance)
      requires next <= p && p + |b| <= |m| && (p == next && b != [] ==> b[0] == 0)
      modifies files
      ensures files.disk == Put(d, instance, s.(mem := Splice(m, p, b)))
      ensures AtEnd() && files.chain == old(files.chain) && old(files.past) <= files.past
      ensures files.Logged() == old(files.Logged())
      ensures Unwoken(was, files.past, instance)
    {
      hide ChannelFiles.Ready, ChannelFiles.Valid, EndOf, ChannelFiles.Logged, Splice, Inv, Settled, Writable, Members,
        Unwoken;
      PokeAgain(d, instance, s, m, p, b);
      files.Now();
      ghost var before := files.past;
      files.Write(instance, p, b);
      UnwokenStill(was, before, instance, Moment(files.disk, files.chain));
    }

    lemma NothingStored()
      requires AtEnd()
      ensures Unwoken(files.past, files.past, instance)
      ensures files.past[|files.past| - 1] == Moment(files.disk, files.chain)
    {
      hide ChannelFiles.Ready, ChannelFiles.Valid, EndOf, Settled, Inv, Members, Writable;
      files.Now();
    }

    lemma BaseFits()
      requires AtEnd()
      ensures files.disk.files[instance].base <= U64_MAX
    {
      hide ChannelFiles.Ready, ChannelFiles.Valid, EndOf, Settled, Inv, Members, Writable;
      files.BaseFits(instance);
    }

    /** A header stored field by field past the chain, its committed byte clear. */
    method StoreHeader(p: nat, h: Header)
      requires AtEnd() && next <= p && p + HEADER_SLOT <= |files.disk.files[instance].mem| && h.committed == 0
      modifies files
      ensures files.disk == Put(old(files.disk), instance, Poke(old(files.disk).files[instance], p, Layout.Encode(h)))
      ensures AtEnd() && files.chain == old(files.chain) && old(files.past) <= files.past
      ensures files.Logged() == old(files.Logged())
      ensures Unwoken(old(files.past), files.past, instance)
    {
      hide Le, AtEnd, ChannelFiles.Valid, EndOf, ChannelFiles.Logged, Layout.Encode, Splice, Inv, Settled, Writable,
        Members, Unwoken;
      ghost var was := files.past;
      NothingStored();
      ghost var d, s := files.disk, files.disk.files[instance];
      ghost var m1 := Splice(s.mem, p, [h.committed]);
      ghost var m2 := Splice(m1, p + 4, Le(h.length, 4));
      ghost var m3 := Splice(m2, p + 1, [h.kind]);
      ghost var m4 := Splice(m3, p + 2, Le(h.messageType, 2));
      FilledHeader(s.mem, p, h);
      assert d == Put(d, instance, s.(mem := s.mem));
      Patch(p, [h.committed], d, s, s.mem, was);
      Patch(p + 4, Le(h.length, 4), d, s, m1, was);
      Patch(p + 1, [h.kind], d, s, m2, was);
      Patch(p + 2, Le(h.messageType, 2), d, s, m3, was);
      Patch(p + 8, Le(h.userMeta, 8), d, s, m4, was);
    }

    /** Between the store of the committed byte and that of the position. */
    ghost predicate Uncounted(after: nat)
      reads `sequence, `instance, files
      ensures Uncounted(after) ==> files.Valid() && files.g.Valid() && instance in files.disk.files
    {
      && files.Behind(instance)
      && sequence == |files.chain| - 1
      && EndOf(files.g, files.disk.files[instance]) == after
    }

    /** `MessageHeader::commit` on the record laid at the next slot. */
    method SetCommitted(user: bool, ghost h: Header, ghost after: nat)
      requires AtEnd() && Laid(files.g, files.disk.files[instance], h, after) && user == (h.kind == USER)
      modifies files
      ensures files.chain == old(files.chain) && old(files.past) <= files.past
      ensures files.disk == Put(old(files.disk), instance,
          old(files.disk.files[instance].(mem := files.disk.files[instance].mem[next := 1])))
      ensures Uncounted(after)
      ensures |ContentOf(files.g, files.disk.files[instance])| == files.disk.files[instance].messageCount
        + if user then 1 else 0
      ensures files.Logged() == old(files.Logged())
        + if user then [Laying(old(files.disk).files[instance].mem, next, h)] else []
      ensures files.past == old(files.past) + [Moment(files.disk, files.chain)]
    {
      hide ChannelFiles.Valid, EndOf, ContentOf, ChannelFiles.Logged, Inv, Settled, Orphaned, Laid, ReadyToCommit,
        Steppable, Step, Next, ChannelFiles.Ready, ChannelFiles.Behind, Writable, Members;
      ghost var s := files.disk.files[instance];
      LaidIsReady(files.g, s, h, after);
      SettledSays(files.g, s);
      LaidFits(files.g, s, h, after);
      files.CommitNext(instance);
    }

    /** The count if the record is a user's, then the position. */
    method Publish(user: bool, after: nat)
      requires Uncounted(after)
      requires |ContentOf(files.g, files.disk.files[instance])| == files.disk.files[instance].messageCount
        + if user then 1 else 0
      modifies files, `next
      ensures AtEnd() && next == after && files.chain == old(files.chain) && old(files.past) <= files.past
      ensures files.disk == Put(old(files.disk), instance, Counted(old(files.disk).files[instance], user, after))
      ensures files.Logged() == old(files.Logged())
      ensures Unwoken(old(files.past), files.past, instance)
    {
      hide ChannelFiles.Valid, EndOf, ContentOf, ChannelFiles.Logged, Inv, Settled, Orphaned, ChannelFiles.Ready,
        ChannelFiles.Behind, Writable, Members;
      files.Now();
      if user {
        files.CountOne(instance);
      }
      next := after;
      files.PublishPosition(instance, after + HEADER_SLOT);
    }

    /** `MessageHeader::commit`, then the count if the record is a user's, then the position. */
    method CommitLaid(user: bool, after: nat, ghost h: Header)
      requires AtEnd() && Laid(files.g, files.disk.files[instance], h, after) && user == (h.kind == USER)
      modifies files, `next
      ensures AtEnd() && next == after && files.chain == old(files.chain) && old(files.past) <= files.past
      ensures files.disk == Put(old(files.disk), instance,
          Committing(old(files.disk).files[instance], old(next), user, after))
      ensures files.Logged() == old(files.Logged())
        + if user then [Laying(old(files.disk).files[instance].mem, old(next), h)] else []
      ensures Unwoken(old(files.past), files.past, instance)
    {
      hide AtEnd, Uncounted, ChannelFiles.Valid, EndOf, ContentOf, ChannelFiles.Logged, Laid, Writable, Inv, Members,
        Unwoken;
      LaidFits(files.g, files.disk.files[instance], h, after);
      NothingStored();
      SetCommitted(user, h, after);
      ghost var committed := files.past;
      UnwokenStill(old(files.past), old(files.past), instance, Moment(files.disk, files.chain));
      Publish(user, after);
      UnwokenOn(old(files.past), committed, files.past, instance);
    }

    /** `region_at`: the file is grown to hold the region that starts at `start`, if it does not yet. */
    method GrowTo(start: nat)
      requires AtEnd() && start % files.g.region == 0
      requires files.g.roll != 0 ==> start + files.g.region <= |files.disk.files[instance].mem|
      modifies files
      ensures AtEnd() && files.chain == old(files.chain) && old(files.past) <= files.past
      ensures files.Logged() == old(files.Logged())
      ensures files.disk == if start + files.g.region <= |old(files.disk).files[instance].mem| then old(files.disk)
        else Put(old(files.disk), instance, Grown(old(files.disk).files[instance], start + files.g.region))
    {
      hide ChannelFiles.Ready, ChannelFiles.Valid, EndOf, ChannelFiles.Logged, Zeros, Settled, Geometry.Prealloc, Inv,
        Members, Sound, Writable;
      var needed := start + files.g.region;
      ModMultiple(start, 0, files.g.region);
      SettledSays(files.g, files.disk.files[instance]);
      if needed > |files.disk.files[instance].mem| {
        files.Grow(instance, needed);
      }
    }

    /** Preinstall the first slot of the next region, and commit the Skip that leads there. */
    method LaySkip(skip: nat, start: nat)
      requires AtEnd() && next % files.g.region + HEADER_SLOT + skip == files.g.region
      requires start == next + HEADER_SLOT + skip && start + HEADER_SLOT <= |files.disk.files[instance].mem|
      modifies files, `next
      ensures AtEnd() && next == start && files.chain == old(files.chain) && old(files.past) <= files.past
      ensures files.Logged() == old(files.Logged())
      ensures files.disk == Put(old(files.disk), instance, old(files.disk).files[instance].(
          mem := files.disk.files[instance].mem, writePosition := start + HEADER_SLOT))
      ensures |files.disk.files[instance].mem| == |old(files.disk).files[instance].mem|
    {
      hide AtEnd, ChannelFiles.Ready, ChannelFiles.Valid, EndOf, ChannelFiles.Logged, Settled, Laid, Layout.Encode,
        Splice, Inv, Members, Writable, Unwoken, Put, Poke, Committing;
      ghost var d, s := files.disk, files.disk.files[instance];
      SkipStores(d, instance, next, skip, start);
      StoreHeader(start, PREINSTALL);
      StoreHeader(next, SkipHeader(skip));
      StandsAtEnd();
      SkipLaid(files.g, s.mem, files.disk.files[instance], next, skip, start);
      CommitLaid(false, start, SkipHeader(skip));
    }

    lemma StandsAtEnd()
      requires AtEnd()
      ensures Settled(files.g, files.disk.files[instance]) && EndOf(files.g, files.disk.files[instance]) == next
    {
      hide Inv, Settled, EndOf, Members, Writable, ChannelFiles.Valid, ChannelFiles.Ready;
    }

    /**
     * Fill the rest of the region with a Skip and go on in the next one. May fail to grow the file or to map
     * the region.
     */
    method RollOverRegion() returns (r: Outcome<nat>)
      requires AtEnd()
      requires files.g.roll != 0 ==>
        next - next % files.g.region + 2 * files.g.region <= |files.disk.files[instance].mem|
      modifies this, files
      ensures AtEnd() && pending == Nothing && instance == old(instance) && sequence == old(sequence)
      ensures files.chain == old(files.chain) && old(files.past) <= files.past && files.Logged() == old(files.Logged())
      ensures files.g.roll != 0 ==> |files.disk.files[instance].mem| == old(|files.disk.files[instance].mem|)
      ensures files.disk == Put(old(files.disk), instance, files.disk.files[instance])
      ensures r.Good? ==> next == old(next) - old(next) % files.g.region + files.g.region
      ensures r.Bad? ==> r.fault == Io && next == old(next)
      ensures faults == old(faults) + if r.Bad? then 1 else 0
      ensures files.disk.files[instance] == old(files.disk).files[instance].(mem := files.disk.files[instance].mem,
          writePosition := if r.Good? then next + HEADER_SLOT else old(files.disk).files[instance].writePosition)
      ensures r.Good? && next + files.g.region > |old(files.disk).files[instance].mem| ==>
        |files.disk.files[instance].mem| == next + files.g.region
      ensures r.Good? && next + files.g.region <= |old(files.disk).files[instance].mem| ==>
        |files.disk.files[instance].mem| == |old(files.disk).files[instance].mem|
    {
      hide ChannelFiles.Ready, ChannelFiles.Valid, EndOf, ChannelFiles.Logged, Settled, Laid, Holds, Layout.Encode,
        Splice, Geometry.Prealloc, Inv, Members, Sound, Writable;
      pending := Nothing;
      var wp := next;
      var off := wp % files.g.region;
      EndIsSlot(files.g, files.disk.files[instance]);
      // `roll_over_region`'s branch for a region with no room left for a header is never taken.
      assert off + ROLL_TOTAL <= files.g.region;
      var skip := files.g.region - off - HEADER_SLOT;
      var start := wp + HEADER_SLOT + skip;
      ModStep(wp, HEADER_SLOT + skip, files.g.region);
      var grown := Attempt();
      if !grown { return Bad(Io); }
      GrowTo(start);
      var mapped := Attempt();
      if !mapped { return Bad(Io); }
      LaySkip(skip, start);
      return Good(start);
    }

    /**
     * Fill in the header of a user record and, if it is shorter than what was reserved, preinstall the slot
     * after it anew.
     */
    method LayUser(h: Header, size: nat)
      requires AtEnd() && Holds(files.g, files.disk.files[instance], next, Reservation.Reserved(size))
      requires h.kind == USER && h.committed == 0 && Representable(h) && h.length <= size
      modifies files
      ensures AtEnd() && files.chain == old(files.chain) && old(files.past) <= files.past
      ensures files.Logged() == old(files.Logged())
      ensures Laid(files.g, files.disk.files[instance], h, AlignUp(next + HEADER_SLOT + h.length))
      ensures next + HEADER_SLOT + h.length <= |files.disk.files[instance].mem| == |old(files.disk).files[instance].mem|
      ensures Laying(files.disk.files[instance].mem, next, h) == Laying(old(files.disk).files[instance].mem, next, h)
      ensures files.disk == Put(old(files.disk), instance,
          old(files.disk).files[instance].(mem := files.disk.files[instance].mem))
      ensures Unwoken(old(files.past), files.past, instance)
    {
      hide ChannelFiles.Ready, ChannelFiles.Valid, EndOf, ChannelFiles.Logged, Settled, Laid, Layout.Encode, Splice,
        AlignUp, Geometry.Prealloc, Inv, Members, Sound, Preinstalled, Writable, Unwoken;
      ghost var s := files.disk.files[instance];
      var after := AlignUp(next + HEADER_SLOT + h.length);
      EndIsSlot(files.g, s);
      AlignFrom(next, h.length, size);
      StoreHeader(next, h);
      if h.length < size {
        ghost var was := files.past;
        StoreHeader(after, PREINSTALL);
        UnwokenOn(old(files.past), was, files.past, instance);
      }
      UserLaid(files.g, s.mem, files.disk.files[instance], next, size, h);
    }

    /** Bump the newest segment's wake word, if this writer wakes its readers. */
    method Wake()
      requires AtEnd()
      modifies files
      ensures AtEnd() && files.chain == old(files.chain) && old(files.past) <= files.past
      ensures files.Logged() == old(files.Logged())
      ensures files.disk == if wake then Put(old(files.disk), instance, Woken(old(files.disk).files[instance]))
        else old(files.disk)
      ensures files.past == if wake then old(files.past) + [Moment(files.disk, files.chain)] else old(files.past)
    {
      hide ChannelFiles.Ready, ChannelFiles.Valid, EndOf, ChannelFiles.Logged, Settled, Inv, Members, Writable;
      if wake {
        files.NewestIs(instance);
        var s := files.disk.files[instance];
        files.StoreFields(instance, |files.chain| - 1, s.wakes, Woken(s).wakeWord);
      }
    }

    /**
     * Commit the reserved record: a header and, for a short commit, a preinstalled slot, then the
     * committed byte, the count, the position and the wake word.
     */
    method Commit(messageType: nat, length: nat, userMeta: nat) returns (r: Outcome<nat>)
      requires Valid() && messageType <= 0xFFFF && length <= U32_MAX && userMeta <= U64_MAX
      modifies `pending, `next, files
      ensures Valid() && pending == Nothing && instance == old(instance) && sequence == old(sequence)
      ensures files.chain == old(files.chain) && old(files.past) <= files.past
      ensures r.Bad? <==> old(pending) == Nothing || length > old(pending).size
      ensures r.Bad? ==> r.fault == (if old(pending) == Nothing then NoReservation else TooLong)
      ensures r.Bad? ==> files.disk == old(files.disk) && files.past == old(files.past)
      ensures r.Good? ==> next == r.value == AlignUp(old(next) + HEADER_SLOT + length)
      ensures r.Good? ==>
        && old(next) + HEADER_SLOT + length <= |old(files.disk).files[instance].mem|
        && files.Logged() == old(files.Logged())
          + [Laying(old(files.disk).files[instance].mem, old(next), UserHeader(messageType, length, userMeta))]
      ensures r.Good? ==> files.disk == Put(old(files.disk), instance, files.disk.files[instance])
      ensures r.Good? ==>
        files.disk.files[instance] == Committing(old(files.disk).files[instance], old(next), true, r.value).(
            mem := files.disk.files[instance].mem,
            wakeWord := (if wake then Woken(old(files.disk).files[instance])
                else old(files.disk).files[instance]).wakeWord)
      ensures r.Good? ==> WokenLast(old(files.past), files.past, instance)
      ensures files.disk.names == old(files.disk.names)
    {
      hide AtEnd, EndOf, ChannelFiles.Valid, ChannelFiles.Logged, Laid, Layout.Encode, Splice, AlignUp, Inv, Members,
        Preinstalled, Writable, Unwoken, WokenLast;
      var reserved := pending;
      pending := Nothing;
      if reserved == Nothing { return Bad(NoReservation); }
      if length > reserved.size { return Bad(TooLong); }
      var h := UserHeader(messageType, length, userMeta);
      var after := AlignUp(next + HEADER_SLOT + length);
      LayUser(h, reserved.size);
      ghost var laid := files.past;
      CommitLaid(true, after, h);
      ghost var committed := files.past;
      UnwokenOn(old(files.past), laid, committed, instance);
      Wake();
      BumpedNow(old(files.past), committed, instance, Moment(files.disk, files.chain));
      return Good(after);
    }

    /** Lay down a whole Roll at the next slot, uncommitted, touching no other byte. */
    method StageRoll(edge: RollEdge)
      requires AtEnd()
      modifies files
      ensures AtEnd() && files.chain == old(files.chain) && old(files.past) <= files.past
      ensures files.Logged() == old(files.Logged())
      ensures RollAt(files.disk.files[instance].mem, next)
      ensures RollBody(files.disk.files[instance].mem, next) == edge.Encode()
      ensures files.disk == Put(old(files.disk), instance,
          old(files.disk).files[instance].(mem := files.disk.files[instance].mem))
      ensures var m, n := old(files.disk).files[instance].mem, files.disk.files[instance].mem;
        |n| == |m| && n[..next] == m[..next] && next + ROLL_TOTAL <= |m|
          && n[next + ROLL_TOTAL..] == m[next + ROLL_TOTAL..]
      ensures Unwoken(old(files.past), files.past, instance)
    {
      hide ChannelFiles.Ready, ChannelFiles.Valid, EndOf, ChannelFiles.Logged, Settled, RollEdge.Encode, Layout.Encode,
        Splice, Geometry.Prealloc, Inv, Members, Sound, RollAt, RollBody, Writable, Unwoken;
      ghost var s := files.disk.files[instance];
      EndIsSlot(files.g, s);
      RollStaged(s.mem, next, edge.Encode());
      NothingStored();
      files.Write(instance, next + HEADER_SLOT, edge.Encode());
      ghost var body := files.past;
      UnwokenStill(old(files.past), old(files.past), instance, Moment(files.disk, files.chain));
      StoreHeader(next, ROLL_HEADER);
      UnwokenOn(old(files.past), body, files.past, instance);
    }

    /**
     * The successor, installed under its final name and not yet published: `file`, installed here,
     * or the one the helper or a failed roll installed first. What `adopt_successor` checks of such a
     * file never refuses it.
     */
    method PrepareSuccessor(file: InstanceId) returns (r: Outcome<InstanceId>)
      requires AtEnd() && sequence < U64_MAX && file !in files.disk.files && file != NONE
      modifies files, `faults
      ensures AtEnd() && files.chain == old(files.chain) && old(files.past) <= files.past
      ensures files.Logged() == old(files.Logged()) && files.disk.files[instance] == old(files.disk).files[instance]
      ensures r.Good? ==> sequence + 1 in files.disk.names && files.disk.names[sequence + 1] == r.value
      ensures r.Good? && sequence + 1 in old(files.disk.names) ==> files.disk == old(files.disk)
      ensures r.Good? && sequence + 1 !in old(files.disk.names) ==>
        r.value == file && files.disk.names == old(files.disk.names)[sequence + 1 := file]
      ensures r.Bad? ==> r.fault == Io && files.disk == old(files.disk)
      ensures faults == old(faults) + if r.Bad? then 1 else 0
      ensures Unwoken(old(files.past), files.past, instance)
    {
      hide ChannelFiles.Valid, EndOf, ChannelFiles.Logged, Settled, Inv, Members, Spare, Fresh, Writable;
      NothingStored();
      var ok := Attempt();
      if !ok { return Bad(Io); }
      if sequence + 1 in files.disk.names {
        var i := files.disk.names[sequence + 1];
        SpareAdopted(files.g, files.disk, files.chain);
        assert Adoption(files.g, files.disk.files[i], sequence + 1, files.disk.files[instance].generation, instance)
            == Adopted;
        return Good(i);
      }
      files.InstallNext(file, sequence + 1, instance, instance, files.disk.files[instance].generation);
      return Good(file);
    }

    /** The base and wake flag of the file installed next, which the staged Roll names. */
    method Stamp(edge: RollEdge)
      requires AtEnd() && sequence < U64_MAX && files.disk.files[instance].base <= U64_MAX
      requires sequence + 1 in files.disk.names
      requires After(sequence, files.disk.files[instance].base, files.disk.files[instance].messageCount,
          files.disk.names[sequence + 1]) == Ok(edge)
      requires RollAt(files.disk.files[instance].mem, next)
      requires RollBody(files.disk.files[instance].mem, next) == edge.Encode()
      modifies files
      ensures AtEnd() && files.chain == old(files.chain) && old(files.past) <= files.past
      ensures files.Logged() == old(files.Logged())
      ensures files.disk.names == old(files.disk.names) && files.disk.files[instance] == old(files.disk).files[instance]
      ensures files.disk.names[sequence + 1] in files.disk.files
      ensures files.disk.files[files.disk.names[sequence + 1]].base == edge.nextBase
      ensures files.disk.files[files.disk.names[sequence + 1]].wakes == wake
      ensures old(files.disk).names[sequence + 1] in old(files.disk).files
      ensures files.disk == Stamped(old(files.disk), old(files.disk).names[sequence + 1], edge.nextBase, wake)
      ensures ReadyToPublish(files.g, files.disk, files.chain)
      ensures files.past == old(files.past) + [Moment(files.disk, files.chain)]
    {
      hide ChannelFiles.Ready, ChannelFiles.Valid, EndOf, ChannelFiles.Logged, Settled, Inv, Members, ReadyToPublish,
        RollAt, RollBody, RollEdge.Encode, After, Writable;
      files.StampNext(sequence + 1, edge.nextBase, wake, instance);
      files.Stageable(instance, edge);
    }

    /** Publish the staged successor `j`, then commit the Roll that leads to it and move the position past it. */
    method Cross(j: InstanceId)
      requires AtEnd() && ReadyToPublish(files.g, files.disk, files.chain) && files.disk.names[sequence + 1] == j
      modifies files
      ensures files.chain == old(files.chain) + [j] && old(files.past) <= files.past
      ensures j in old(files.disk).files && files.Crossing(instance, j) && files.Ready(j)
      ensures sequence + 2 == |files.chain|
      ensures next < |old(files.disk).files[instance].mem|
      ensures files.disk.files[instance] ==
        old(files.disk).files[instance].(mem := old(files.disk).files[instance].mem[next := 1], writePosition := next
            + ROLL_TOTAL + HEADER_SLOT)
      ensures files.disk.files == old(files.disk).files[instance := files.disk.files[instance]][j :=
          files.disk.files[j]]
      ensures EndOf(files.g, files.disk.files[j]) == FIRST_RECORD && EndsOnRoll(files.g, files.disk, instance, next)
      ensures instance != j
      ensures files.disk.files[j] == old(files.disk).files[j].(published := true)
      ensures files.disk.names == old(files.disk.names)
      ensures files.Logged() == old(files.Logged())
      ensures Enters(old(files.past), files.past, instance, j)
    {
      hide ChannelFiles.Ready, ChannelFiles.Valid, ChannelFiles.Crossing, EndOf, ChannelFiles.Logged, Settled, Inv,
        Members, ReadyToPublish, Staged, Rolled, Done, Preinstalled, Writable, Enters;
      NothingStored();
      files.PublishNext(sequence + 1, instance, j);
      ghost var d := files.disk;
      files.CommitRoll(instance, j);
      ghost var e, rolled := files.disk, files.disk.files[instance];
      files.CompleteRoll(instance, j, next + ROLL_TOTAL + HEADER_SLOT);
      SameChainFields(files.g, rolled, files.disk.files[instance]);
      ThreeStores(old(files.past), old(files.disk), old(files.chain), instance, j, d, e, files.disk);
    }

    /** Wake the readers asleep on the segment left, and go on in the new one. */
    method Switch(left: InstanceId, i: InstanceId)
      requires files.Crossing(left, i) && files.Ready(i) && sequence + 2 == |files.chain|
      requires EndOf(files.g, files.disk.files[i]) == FIRST_RECORD
      modifies `sequence, `instance, `next, files
      ensures AtEnd() && instance == i && sequence == old(sequence) + 1 && next == FIRST_RECORD
      ensures pending == old(pending)
      ensures files.chain == old(files.chain) && old(files.past) <= files.past
      ensures files.Logged() == old(files.Logged())
      ensures left in old(files.disk.files)
      ensures files.disk == if wake then Put(old(files.disk), left, Woken(old(files.disk).files[left]))
        else old(files.disk)
      ensures files.past == if wake then old(files.past) + [Moment(files.disk, files.chain)] else old(files.past)
    {
      hide ChannelFiles.Ready, ChannelFiles.Valid, EndOf, ChannelFiles.Logged, Settled, Inv, Members,
        ChannelFiles.Crossing, Writable;
      if wake {
        files.CrossingFrom(left, i);
        var s := files.disk.files[left];
        files.StoreFields(left, |files.chain| - 2, s.wakes, Woken(s).wakeWord);
      }
      sequence, instance, next := sequence + 1, i, FIRST_RECORD;
    }

    /** The helper installs the next segment ahead of the roll, between two of the writer's calls. */
    method InstalledAhead(file: InstanceId)
      requires Valid() && sequence < U64_MAX && sequence + 1 !in files.disk.names
      requires file !in files.disk.files && file != NONE
      modifies files
      ensures Valid() && files.chain == old(files.chain) && old(files.past) <= files.past
      ensures files.Logged() == old(files.Logged()) && files.disk.files[instance] == old(files.disk).files[instance]
      ensures files.disk.names == old(files.disk.names)[sequence + 1 := file]
      ensures file in files.disk.files && files.disk.files == old(files.disk.files)[file := files.disk.files[file]]
      ensures files.disk.files[file].messageCount == 0
    {
      hide ChannelFiles.Valid, EndOf, ChannelFiles.Logged, Settled, Inv, Members, Spare, Install, Writable,
        Preinstalled;
      ghost var d, ch := files.disk, files.chain;
      files.InstallNext(file, sequence + 1, instance, instance, files.disk.files[instance].generation);
      MemberFiles(files.g, d, ch, 0);
      InstalledEmpty(files.g, d, ch, file);
    }

    /** Retention: drop the segment that `keep` no longer covers. */
    method Prune()
      requires AtEnd()
      modifies files
      ensures AtEnd() && files.chain == old(files.chain) && old(files.past) <= files.past
      ensures files.Logged() == old(files.Logged())
      ensures files.disk == old(files.disk).(names := Pruned(old(files.disk).names, sequence, keep))
      ensures files.past == old(files.past) || files.past == old(files.past) + [Moment(files.disk, files.chain)]
    {
      hide ChannelFiles.Ready, ChannelFiles.Valid, EndOf, ChannelFiles.Logged, Settled, Inv, Members, Writable;
      if keep > 0 && sequence >= keep {
        files.Unlink(sequence - keep);
      }
    }

    /** Wake the readers asleep on the segment left, go on in the new one, and drop what retention drops. */
    method Leave(left: InstanceId, i: InstanceId)
      requires files.Crossing(left, i) && files.Ready(i) && sequence + 2 == |files.chain|
      requires EndOf(files.g, files.disk.files[i]) == FIRST_RECORD && EndsOnRoll(files.g, files.disk, left, next)
      modifies `sequence, `instance, `next, files
      ensures AtEnd() && instance == i && sequence == old(sequence) + 1 && next == FIRST_RECORD
      ensures files.chain == old(files.chain) && Rests(old(files.past), files.past)
      ensures files.Logged() == old(files.Logged())
      ensures files.disk.files == if wake then old(files.disk).files[left := Woken(old(files.disk).files[left])]
        else old(files.disk).files
      ensures files.disk.names == Pruned(old(files.disk).names, sequence, keep)
      ensures EndsOnRoll(files.g, files.disk, left, old(next))
    {
      hide AtEnd, ChannelFiles.Valid, ChannelFiles.Ready, ChannelFiles.Crossing, EndOf, ChannelFiles.Logged, Inv,
        Members, Settled, Writable, EndsOnRoll, Rests, Pruned;
      if wake { StillEnds(files.g, files.disk, left, next, Woken(files.disk.files[left])); }
      Switch(left, i);
      ghost var switched, d := files.past, files.disk;
      Prune();
      files.Now();
      RestsThen(old(files.past), switched, files.past, d, files.chain, files.disk);
      NamesAside(files.g, d, files.disk, left, old(next));
    }

    /** The Roll laid down and the file it names stamped: all but the publishing store. */
    method StageAndStamp(edge: RollEdge)
      requires AtEnd() && sequence < U64_MAX && files.disk.files[instance].base <= U64_MAX
      requires sequence + 1 in files.disk.names
      requires After(sequence, files.disk.files[instance].base, files.disk.files[instance].messageCount,
          files.disk.names[sequence + 1]) == Ok(edge)
      modifies files
      ensures AtEnd() && old(files.past) <= files.past && files.chain == old(files.chain)
      ensures files.Logged() == old(files.Logged()) && files.disk.names == old(files.disk.names)
      ensures ReadyToPublish(files.g, files.disk, files.chain)
      ensures files.disk.names[sequence + 1] in files.disk.files
      ensures files.disk.files[files.disk.names[sequence + 1]].base == edge.nextBase
      ensures files.disk.files[files.disk.names[sequence + 1]].wakes == wake
      ensures files.disk.files[instance].wakeWord == old(files.disk.files[instance].wakeWord)
      ensures Unwoken(old(files.past), files.past, instance)
    {
      hide AtEnd, ChannelFiles.Valid, ChannelFiles.Ready, EndOf, ChannelFiles.Logged, Settled, Inv, Members,
        ReadyToPublish, RollAt, RollBody, RollEdge.Encode, Writable, Unwoken;
      StageRoll(edge);
      ghost var staged := files.past;
      NothingStored();
      Stamp(edge);
      UnwokenStill(old(files.past), staged, instance, Moment(files.disk, files.chain));
    }

    /** From the successor being installed to the writer standing in it. */
    method CrossOver(edge: RollEdge)
      requires AtEnd() && sequence < U64_MAX && files.disk.files[instance].base <= U64_MAX
      requires sequence + 1 in files.disk.names
      requires After(sequence, files.disk.files[instance].base, files.disk.files[instance].messageCount,
          files.disk.names[sequence + 1]) == Ok(edge)
      modifies `sequence, `instance, `next, files
      ensures AtEnd() && pending == old(pending) && old(files.past) <= files.past
      ensures files.Logged() == old(files.Logged())
      ensures sequence == old(sequence) + 1 && next == FIRST_RECORD && files.chain == old(files.chain) + [instance]
      ensures Continues(old(files.disk), old(instance), files.disk, instance, sequence, old(instance), wake, keep)
      ensures EndsOnRoll(files.g, files.disk, old(instance), old(next)) && instance != old(instance)
      ensures WokenLast(old(files.past), files.past, old(instance)) && JoinsWhole(old(files.past), files.past, instance)
    {
      hide AtEnd, ChannelFiles.Valid, ChannelFiles.Ready, ChannelFiles.Crossing, EndOf, ChannelFiles.Logged, Settled,
        Inv, Members, ReadyToPublish, RollAt, RollBody, RollEdge.Encode, Writable, EndsOnRoll, Unwoken, WokenLast,
        JoinsWhole, Enters, Continues;
      NothingStored();
      StageAndStamp(edge);
      var left, i := instance, files.disk.names[sequence + 1];
      ghost var staged, d := files.past, files.disk;
      Cross(i);
      ghost var crossed, e := files.past, files.disk;
      files.Now();
      Leave(left, i);
      CrossedContinues(old(files.disk), d, e, files.disk, left, i, sequence, wake, keep);
      files.Now();
      WokenAcross(old(files.past), staged, crossed, files.past, left, i);
    }

    /**
     * Roll to the next file: prepare the successor, stage the Roll, stamp, publish, commit, move the
     * position, switch, retention. A failure before the publishing store leaves the writer where it was.
     */
    method RollFile(file: InstanceId) returns (r: Outcome<nat>)
      requires AtEnd() && file !in files.disk.files && file != NONE
      modifies this, files
      ensures AtEnd() && pending == Nothing && old(files.past) <= files.past && files.Logged() == old(files.Logged())
      ensures r.Good? ==> sequence == r.value == old(sequence) + 1 && next == FIRST_RECORD
      ensures r.Good? ==> files.chain == old(files.chain) + [instance]
      ensures r.Good? ==> Continues(old(files.disk), old(instance), files.disk, instance, sequence, file, wake, keep)
      ensures r.Good? ==> EndsOnRoll(files.g, files.disk, old(instance), old(next)) && instance != old(instance)
      ensures old(Retained(files.disk.names, |files.chain|, keep)) ==> Retained(files.disk.names, |files.chain|, keep)
      ensures r.Bad? ==>
        files.chain == old(files.chain) && instance == old(instance) && sequence == old(sequence) && next == old(next)
      ensures r.Bad? ==>
        r.fault == Io || r.fault == Exhausted(SequenceExhausted) || r.fault == Exhausted(IndexExhausted)
      ensures r == Bad(Exhausted(SequenceExhausted)) <==> old(sequence) >= U64_MAX
      ensures r == Bad(Exhausted(IndexExhausted)) ==> !IndexLeft(old(files.disk), old(instance))
      ensures r.Good? ==> IndexLeft(old(files.disk), old(instance))
      ensures faults == old(faults) + if r == Bad(Io) then 1 else 0
      ensures r.Good? ==>
        WokenLast(old(files.past), files.past, old(instance)) && JoinsWhole(old(files.past), files.past, instance)
      ensures r.Bad? ==>
        Unwoken(old(files.past), files.past, instance) && files.disk.files[instance] == old(files.disk).files[instance]
    {
      hide AtEnd, ChannelFiles.Valid, ChannelFiles.Ready, ChannelFiles.Crossing, EndOf, ChannelFiles.Logged, Settled,
        Inv, Members, ReadyToPublish, RollAt, RollBody, RollEdge.Encode, Writable, EndsOnRoll, Retained, Unwoken,
        WokenLast, JoinsWhole, Continues;
      pending := Nothing;
      SlotHere();
      NothingStored();
      ghost var held := Retained(files.disk.names, |files.chain|, keep);
      RetainedBelow(files.disk.names, |files.chain|, keep, file);
      // `roll_file`'s check for room for a Roll never fails.
      assert files.g.region - next % files.g.region >= ROLL_TOTAL;
      if sequence >= U64_MAX { return Bad(Exhausted(SequenceExhausted)); }
      var prepared := PrepareSuccessor(file);
      if prepared.Bad? { return Bad(prepared.fault); }
      var s := files.disk.files[instance];
      BaseFits();
      var edge := After(sequence, s.base, s.messageCount, prepared.value);
      if edge.Err? { return Bad(Exhausted(edge.error)); }
      ghost var d, from, installed := files.disk, instance, files.past;
      CrossOver(edge.value);
      PreparedWoken(old(files.past), installed, files.past, from, instance);
      PreparedContinues(old(files.disk), d, from, files.disk, instance, sequence, file, wake, keep);
      if held { RetainedOn(old(files.disk), from, files.disk, instance, sequence, file, wake, keep); }
      return Good(sequence);
    }

    /** Preinstall the slot behind a reservation that fits here, and take it. */
    method Reserve(size: nat)
      requires AtEnd() && next % files.g.region + Needed(size) <= files.g.region
      modifies `pending, files
      ensures Valid() && pending == Reservation.Reserved(size) && next == old(next) && instance == old(instance)
      ensures sequence == old(sequence)
      ensures files.chain == old(files.chain) && old(files.past) <= files.past && files.Logged() == old(files.Logged())
      ensures next + HEADER_SLOT + size <= |files.disk.files[instance].mem|
      ensures files.disk == Put(old(files.disk), instance, files.disk.files[instance])
      ensures files.disk.files[instance].wakeWord == old(files.disk.files[instance].wakeWord)
    {
      hide AtEnd, ChannelFiles.Ready, ChannelFiles.Valid, EndOf, ChannelFiles.Logged, Settled, Layout.Encode, Splice,
        AlignUp, Geometry.Prealloc, Inv, Members, Sound, Writable;
      SlotHere();
      StoreHeader(next + AlignUp(HEADER_SLOT + size), PREINSTALL);
      pending := Reservation.Reserved(size);
    }

    lemma SlotHere()
      requires AtEnd()
      ensures sequence == |files.chain| - 1
      ensures next % 8 == 0 && next % files.g.region + ROLL_TOTAL <= files.g.region
      ensures next - next % files.g.region + files.g.region <= |files.disk.files[instance].mem|
      ensures |files.disk.files[instance].mem| % files.g.region == 0
      ensures files.g.roll != 0 ==> |files.disk.files[instance].mem| == files.g.Prealloc()
    {
      hide ChannelFiles.Ready, ChannelFiles.Valid, EndOf, Settled, Inv, Members, Sound, Geometry.Prealloc, Writable;
      EndIsSlot(files.g, files.disk.files[instance]);
      SettledSays(files.g, files.disk.files[instance]);
    }

    /** With no file roll due, the next region lies inside the file's preallocated length. */
    lemma NextRegionInside(size: nat)
      requires AtEnd() && files.g.roll != 0 && next + Needed(size) <= files.g.roll
      requires next % files.g.region + Needed(size) > files.g.region
      ensures next - next % files.g.region + 2 * files.g.region <= |files.disk.files[instance].mem|
    {
      hide AtEnd, Geometry.Prealloc, AlignUp, Needed;
      SlotHere();
      RollsWithin(files.g, next, Needed(size));
    }

    /**
     * After the rolls of `path`, made from slot `from` of file `i` with wake word `word`, the writer is where
     * they lead, and the file it left ends on its Roll, its readers woken.
     */
    ghost predicate Moved(path: Path, i: InstanceId, from: nat, word: nat)
      reads `instance, `next, files
    {
      && files.g.Valid() && next == path.Lands(files.g.region, from)
      && Leaves(files.g, path, i, from, word, wake, files.disk, instance)
    }

    /** The region roll of a reservation. */
    method NextRegion(size: nat, ghost path: Path, ghost from: InstanceId, ghost start: nat, ghost word: nat)
        returns (r: Outcome<nat>)
      requires AtEnd() && Leaves(files.g, path, from, start, word, wake, files.disk, instance)
      requires files.g.roll > 0 ==> next + Needed(size) <= files.g.roll
      requires next % files.g.region + Needed(size) > files.g.region
      requires path.Straight? || path.File? || path.RegionFile?
      requires path.OverRegion().RollsAt(files.g.region, start) == path.RollsAt(files.g.region, start)
      modifies this, files
      ensures AtEnd() && instance == old(instance) && sequence == old(sequence) && pending == Nothing
      ensures Leaves(files.g, if r.Good? then path.OverRegion() else path, from, start, word, wake, files.disk,
          instance)
      ensures files.chain == old(files.chain) && old(files.past) <= files.past && files.Logged() == old(files.Logged())
      ensures files.disk.names == old(files.disk.names) && files.disk.files.Keys == old(files.disk.files.Keys)
      ensures IndexLeft(files.disk, instance) == old(IndexLeft(files.disk, instance))
      ensures next == if r.Good? then NextStart(files.g.region, old(next)) else old(next)
      ensures r.Bad? ==> r.fault == Io
      ensures faults == old(faults) + if r.Bad? then 1 else 0
    {
      hide AtEnd, ChannelFiles.Ready, ChannelFiles.Valid, EndOf, ChannelFiles.Logged, Settled, Inv, Members, Needed,
        IndexLeft, Leaves, Path.RollsAt;
      if files.g.roll > 0 { NextRegionInside(size); }
      ghost var d := files.disk;
      r := RollOverRegion();
      IndexesLeft(d, files.disk, instance);
      LeavesStill(files.g, path, if r.Good? then path.OverRegion() else path, from, start, word, wake, d, instance,
          files.disk.files[instance]);
    }

    /** Make the rolls that are due before a reservation that some file has room for, and take it. */
    method MakeRoom(size: nat, needed: nat, file: InstanceId) returns (r: Outcome<nat>, ghost path: Path)
      requires Valid() && file !in files.disk.files && file != NONE
      requires needed == Needed(size) && !Unfit(files.g, needed)
      modifies this, files
      ensures Valid() && old(files.past) <= files.past && files.Logged() == old(files.Logged()) && files.g.Valid()
      ensures OnTheWay(files.g, old(next), needed, path)
      ensures r.Good? ==> path == Due(files.g, old(next), needed)
      ensures r.Good? ==> files.g.Room(next, needed) && !PastRoll(files.g, next, needed)
      ensures r.Bad? ==> path.CutShort(Due(files.g, old(next), needed))
      ensures RunsOut(old(files.disk), old(instance), old(sequence), r, path)
      ensures faults == old(faults) + if r == Bad(Io) then 1 else 0
      ensures r.Bad? ==> r.fault == Io || r.fault.Exhausted?
      ensures r.Good? ==> pending == Reservation.Reserved(size) && r.value == next + HEADER_SLOT
      ensures r.Good? ==> r.value + size <= |files.disk.files[instance].mem|
      ensures Moved(path, old(instance), old(next), old(files.disk.files[instance].wakeWord))
      ensures files.chain == if path.NewFile() then old(files.chain) + [instance] else old(files.chain)
      ensures old(Retained(files.disk.names, |files.chain|, keep)) ==> Retained(files.disk.names, |files.chain|, keep)
    {
      hide AtEnd, ChannelFiles.Ready, ChannelFiles.Valid, EndOf, ChannelFiles.Logged, Settled, Inv, Members, AlignUp,
        Continues, Geometry.Prealloc, Preinstalled, Writable, EndsOnRoll, Retained, Due, Path.CutShort, Path.Lands,
        Path.RollsAt, OnTheWay, Needed, IndexLeft, Leaves;
      path := Straight;
      ghost var from, start, word := instance, next, files.disk.files[instance].wakeWord;
      NoneYet(files.g, start, needed);
      LeavesNone(files.g, files.disk, instance, start, wake);
      while true
        invariant AtEnd() && (path == Straight ==> Valid()) && Moved(path, from, start, word)
        invariant OnTheWay(files.g, start, needed, path)
        invariant old(files.past) <= files.past && files.Logged() == old(files.Logged())
        invariant path.NewFile() || file !in files.disk.files
        invariant faults == old(faults)
        invariant if path.NewFile() then old(sequence) < U64_MAX && IndexLeft(old(files.disk), old(instance))
          else sequence == old(sequence) && IndexLeft(files.disk, instance) == IndexLeft(old(files.disk), old(instance))
        invariant files.chain == if path.NewFile() then old(files.chain) + [instance] else old(files.chain)
        invariant old(Retained(files.disk.names, |files.chain|, keep)) ==>
          Retained(files.disk.names, |files.chain|, keep)
        decreases path.Left()
      {
        var wp := next;
        var off := wp % files.g.region;
        DueNext(files.g, start, needed, path);
        if files.g.roll > 0 && wp + needed > files.g.roll {
          ghost var d := files.disk;
          LeavesIn(files.g, path, from, start, word, wake, d, instance);
          var rolled := RollFile(file);
          if rolled.Bad? {
            LeavesHere(files.g, path, d, files.disk, instance, start, word, wake);
            return Bad(rolled.fault), path;
          }
          LeavesFile(files.g, path, from, start, word, d, files.disk, instance, sequence, file, wake, keep);
          path := path.ToNextFile();
          continue;
        }
        if off + needed > files.g.region {
          var rolled := NextRegion(size, path, from, start, word);
          if rolled.Bad? { return Bad(rolled.fault), path; }
          path := path.OverRegion();
          continue;
        }
        ghost var d := files.disk;
        Reserve(size);
        LeavesStill(files.g, path, path, from, start, word, wake, d, instance, files.disk.files[instance]);
        return Good(next + HEADER_SLOT), path;
      }
    }

    /**
     * Reserve `size` bytes for a payload, making the rolls that are due first; `file` is a fresh instance,
     * for the one file roll among them. `path` says which were made: all, unless one failed.
     */
    method TryReserve(size: nat, file: InstanceId) returns (r: Outcome<nat>, ghost path: Path)
      requires Valid() && file !in files.disk.files && file != NONE
      modifies this, files
      ensures Valid() && old(files.past) <= files.past && files.Logged() == old(files.Logged()) && files.g.Valid()
      ensures r == Bad(MtuExceeded) <==> mtu > 0 && size > mtu
      ensures Answers(files.g, mtu == 0 || size <= mtu, old(next), size, r, path)
      ensures RunsOut(old(files.disk), old(instance), old(sequence), r, path)
      ensures faults == old(faults) + if r == Bad(Io) then 1 else 0
      ensures r == Bad(MtuExceeded) || r == Bad(TooLarge) ==>
        files.disk == old(files.disk) && files.past == old(files.past) && pending == old(pending) && next == old(next)
          && path == Straight
      ensures r.Good? ==> pending == Reservation.Reserved(size) && r.value == next + HEADER_SLOT
      ensures r.Good? ==> r.value + size <= |files.disk.files[instance].mem|
      ensures Moved(path, old(instance), old(next), old(files.disk.files[instance].wakeWord))
      ensures files.chain == if path.NewFile() then old(files.chain) + [instance] else old(files.chain)
      ensures old(Retained(files.disk.names, |files.chain|, keep)) ==> Retained(files.disk.names, |files.chain|, keep)
      ensures r.Bad? ==> r.fault != NoReservation && r.fault != TooLong
    {
      hide AtEnd, ChannelFiles.Ready, ChannelFiles.Valid, EndOf, ChannelFiles.Logged, Settled, Inv, Members, AlignUp,
        Preinstalled, Writable, EndsOnRoll, Retained, Due, Path.CutShort, Path.Lands, Path.RollsAt, OnTheWay, Answers,
        Needed, IndexLeft, Leaves;
      path := Straight;
      ghost var allowed, start := mtu == 0 || size <= mtu, next;
      var needed := Needed(size);
      NoneYet(files.g, start, needed);
      LeavesNone(files.g, files.disk, instance, start, wake);
      if mtu > 0 && size > mtu {
        r := Bad(MtuExceeded);
      } else if needed > files.g.region {
        r := Bad(TooLarge);
      } else if files.g.roll > 0 && FIRST_RECORD + needed > files.g.roll {
        r := Bad(TooLarge);
      } else {
        r, path := MakeRoom(size, needed, file);
      }
      RightAnswer(files.g, allowed, start, size, r, path);
    }

    /** The caller fills in part of the payload slice it was handed. */
    method Fill(from: nat, b: seq<byte>)
      requires Valid() && pending.Reserved? && from + |b| <= pending.size
      modifies files
      ensures Valid() && files.chain == old(files.chain) && old(files.past) <= files.past
      ensures files.Logged() == old(files.Logged())
      ensures next + HEADER_SLOT + from + |b| <= |old(files.disk).files[instance].mem|
      ensures files.disk == Put(old(files.disk), instance,
          Poke(old(files.disk).files[instance], next + HEADER_SLOT + from, b))
    {
      hide ChannelFiles.Ready, ChannelFiles.Valid, EndOf, ChannelFiles.Logged, Settled, Splice, AlignUp,
        Geometry.Prealloc, Inv, Members, Sound, Layout.Encode, Writable;
      SlotHere();
      var p, q := next + HEADER_SLOT + from, next + AlignUp(HEADER_SLOT + pending.size);
      SpliceElsewhere(files.disk.files[instance].mem, p, b, q, q + HEADER_SLOT);
      files.Write(instance, p, b);
    }
  }

  /**
   * Reserving room for `reserve` bytes, filling in a payload no longer than that, and committing it appends
   * just that record.
   */
  method Append(w: Writer, reserve: nat, payload: seq<byte>, messageType: nat, userMeta: nat, file: InstanceId)
      returns (r: Outcome<nat>)
    requires w.Valid() && file !in w.files.disk.files && file != NONE
    requires |payload| <= reserve && |payload| <= U32_MAX && messageType <= 0xFFFF && userMeta <= U64_MAX
    modifies w, w.files
    ensures w.Valid() && old(w.files.past) <= w.files.past && old(w.files.past) != []
    ensures Recorded(w.files.g, w.files.past)
    ensures w.files.Logged() == old(w.files.Logged()) + if r.Good? then [Record(messageType, userMeta, payload)] else []
    ensures SwitchesOnce(w.files.g, w.files.past, |old(w.files.past)| - 1, |w.files.past| - 1)
    ensures Refusal(w.files.g, w.mtu, reserve, r) && w.faults == old(w.faults) + if r == Bad(Io) then 1 else 0
    ensures r.Bad? && r.fault.Exhausted? ==>
      old(w.sequence) >= U64_MAX || !IndexLeft(old(w.files.disk), old(w.instance))
    ensures old(Retained(w.files.disk.names, |w.files.chain|, w.keep)) ==>
      Retained(w.files.disk.names, |w.files.chain|, w.keep)
  {
    hide Writer.AtEnd, Writer.Valid, ChannelFiles.Ready, ChannelFiles.Valid, Inv, Members, Switches, Recorded, Log,
      Refusal, IndexLeft;
    var files := w.files;
    EndLogged(files);
    r := ReserveFillCommit(w, reserve, payload, messageType, userMeta, file);
    EndLogged(files);
    ghost var was, now := |old(files.past)| - 1, |files.past| - 1;
    assert files.past[was] == old(files.past)[was];
    ghost var p := Atomic(files.g, files.past, was, now);
  }

  /** What the log is now is what it is at the last moment recorded. */
  lemma EndLogged(files: ChannelFiles)
    requires files.Valid()
    ensures files.past != [] && Recorded(files.g, files.past)
    ensures Inv(files.g, files.past[|files.past| - 1].disk, files.past[|files.past| - 1].chain)
    ensures LogOf(files.g, files.past[|files.past| - 1]) == files.Logged()
  {
    hide Inv, Log;
  }

  /** The three calls, one after another. */
  method ReserveFillCommit(w: Writer, reserve: nat, payload: seq<byte>, messageType: nat, userMeta: nat,
      file: InstanceId)
      returns (r: Outcome<nat>)
    requires w.Valid() && file !in w.files.disk.files && file != NONE
    requires |payload| <= reserve && |payload| <= U32_MAX && messageType <= 0xFFFF && userMeta <= U64_MAX
    modifies w, w.files
    ensures w.Valid() && old(w.files.past) <= w.files.past
    ensures w.files.Logged() == old(w.files.Logged()) + if r.Good? then [Record(messageType, userMeta, payload)] else []
    ensures Refusal(w.files.g, w.mtu, reserve, r) && w.faults == old(w.faults) + if r == Bad(Io) then 1 else 0
    ensures r.Bad? && r.fault.Exhausted? ==>
      old(w.sequence) >= U64_MAX || !IndexLeft(old(w.files.disk), old(w.instance))
    ensures old(Retained(w.files.disk.names, |w.files.chain|, w.keep)) ==>
      Retained(w.files.disk.names, |w.files.chain|, w.keep)
  {
    hide Writer.AtEnd, ChannelFiles.Ready, ChannelFiles.Valid, ChannelFiles.Logged, Inv, Members, Splice, Writable,
      Retained, Writer.Moved, Answers, Refusal, IndexLeft, WokenLast, Committing, Woken, Writer.Valid, Holds;
    ghost var path;
    r, path := w.TryReserve(reserve, file);
    ghost var reserved := r;
    if r.Bad? {
      RefusalOf(w.files.g, w.mtu, old(w.next), reserve, reserved, path, r);
      return;
    }
    ghost var m := w.files.disk.files[w.instance].mem;
    w.Fill(0, payload);
    FilledPayload(m, w.next, payload);
    r := w.Commit(messageType, |payload|, userMeta);
    RefusalOf(w.files.g, w.mtu, old(w.next), reserve, reserved, path, r);
  }

  lemma FilledPayload(m: seq<byte>, p: nat, b: seq<byte>)
    requires p + HEADER_SLOT + |b| <= |m|
    ensures Splice(m, p + HEADER_SLOT, b)[p + HEADER_SLOT..p + HEADER_SLOT + |b|] == b
  {
  }
}
