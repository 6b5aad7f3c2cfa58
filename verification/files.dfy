/**
 * The channel's files as writers and readers share them: one method per store, each recorded, so
 * that what is proved of every recorded state holds of every point a process may die at and of
 * every moment another process may look.
 */
module SharedFiles {
  import opened Bytes
  import opened Layout
  import opened Chain
  import opened Linking
  import opened Segments
  import opened Channel
  import opened Histories

  datatype Moment = Moment(disk: Disk, chain: History)

  /** The newest segment. */
  function Newest(d: Disk, ch: History): Segment
    requires |ch| >= 1 && ch[|ch| - 1] in d.files
  {
    d.files[ch[|ch| - 1]]
  }

  /** No roll is unfinished, and the newest segment is published: what a writer works on. */
  ghost predicate Writable(g: Geometry, d: Disk, ch: History)
    requires Inv(g, d, ch)
  {
    && Newest(d, ch).published
    && (|ch| >= 2 ==> Done(g, Seg(d, ch, |ch| - 2)))
  }

  lemma WritableDone(g: Geometry, d: Disk, ch: History)
    requires Inv(g, d, ch) && Writable(g, d, ch) && |ch| >= 2
    ensures Done(g, Seg(d, ch, |ch| - 2))
  {
    hide Inv, Done;
  }

  /** A store into one segment leaves the others as they are. */
  lemma OtherSegments(g: Geometry, d: Disk, ch: History, k: nat, t: Segment, j: nat)
    requires Inv(g, d, ch) && k < |ch| && j < |ch|
    ensures Seg(Put(d, ch[k], t), ch, j) == if j == k then t else Seg(d, ch, j)
  {
    hide Inv, Member;
    if ch[j] == ch[k] { OneFileEach(g, d, ch, j, k); }
  }

  /** The newest segment is published, and a committed Roll leads to it. */
  ghost predicate Firm(g: Geometry, d: Disk, ch: History)
    requires Inv(g, d, ch)
  {
    Newest(d, ch).published && (|ch| >= 2 ==> Rolled(g, Seg(d, ch, |ch| - 2)))
  }

  lemma WritableFirm(g: Geometry, d: Disk, ch: History)
    requires Inv(g, d, ch) && Writable(g, d, ch)
    ensures Firm(g, d, ch)
  {
    hide Inv, Rolled;
  }

  /** A store into the newest segment leaves the one before it alone. */
  lemma NewestAlone(g: Geometry, d: Disk, ch: History, t: Segment)
    requires Inv(g, d, ch) && Inv(g, Put(d, ch[|ch| - 1], t), ch) && t.published
    ensures var e := Put(d, ch[|ch| - 1], t);
      && Newest(e, ch) == t
      && (Firm(g, d, ch) ==> Firm(g, e, ch)) && (Writable(g, d, ch) ==> Writable(g, e, ch))
  {
    hide Inv, Rolled, Done, Members;
    if |ch| >= 2 { OtherSegments(g, d, ch, |ch| - 1, t, |ch| - 2); }
  }

  /** Storing into the newest segment of a channel. */
  lemma StoreNewest(g: Geometry, d: Disk, ch: History, t: Segment)
    requires Inv(g, d, ch) && Firm(g, d, ch) && Evolves(g, Newest(d, ch), t) && Open(g, t)
    ensures var e := Put(d, ch[|ch| - 1], t);
      && Inv(g, e, ch) && Advances(g, d, ch, e, ch) && Firm(g, e, ch) && Newest(e, ch) == t
      && (Writable(g, d, ch) ==> Writable(g, e, ch))
      && Log(g, e, ch) == LogTo(g, d, ch, |ch| - 1) + ContentOf(g, t)
  {
    hide Inv, Members, Open, ContentOf, Done, Advances, Evolves, Fits, Writable, Rolled;
    var k := |ch| - 1;
    NewestFits(g, d, ch, t);
    PublishedStays(g, Newest(d, ch), t);
    StoreKeeps(g, d, ch, k, t);
    LogOfLast(g, d, ch, Put(d, ch[k], t));
    NewestAlone(g, d, ch, t);
  }

  lemma NewestFits(g: Geometry, d: Disk, ch: History, t: Segment)
    requires Inv(g, d, ch) && Firm(g, d, ch) && Evolves(g, Newest(d, ch), t) && Open(g, t)
    ensures Fits(g, d, ch, |ch| - 1, t)
  {
    hide Inv, Members, Open, ContentOf, Settled, Leads, Closing, Rolled, Done, Evolves;
    PublishedStays(g, Newest(d, ch), t);
  }

  lemma PublishedStays(g: Geometry, s: Segment, t: Segment)
    requires g.Valid() && Evolves(g, s, t) && s.published
    ensures t.published
  {
    hide EndOf, Frozen, Rolled;
  }

  /** Flags and wake word bear on nothing the invariant says. */
  lemma FieldsKeep(g: Geometry, d: Disk, ch: History, k: nat, wakes: bool, word: nat)
    requires Inv(g, d, ch) && k < |ch|
    ensures var e := Put(d, ch[k], Seg(d, ch, k).(wakes := wakes, wakeWord := word));
      && Inv(g, e, ch) && Advances(g, d, ch, e, ch) && Log(g, e, ch) == Log(g, d, ch)
      && (Writable(g, d, ch) ==> Writable(g, e, ch))
  {
    hide Inv, Members, Fits, Evolves, ContentOf, Done;
    var s := Seg(d, ch, k);
    var t := s.(wakes := wakes, wakeWord := word);
    FrozenInside(g, d, ch, k);
    SameFields(g, s, t);
    FieldsEvolve(g, s, t);
    FieldsFit(g, d, ch, k, t);
    StoreKeeps(g, d, ch, k, t);
    LogOfLast(g, d, ch, Put(d, ch[k], t));
    OtherSegments(g, d, ch, k, t, |ch| - 1);
    if |ch| >= 2 { OtherSegments(g, d, ch, k, t, |ch| - 2); }
  }

  lemma FieldsEvolve(g: Geometry, s: Segment, t: Segment)
    requires g.Valid() && t == s.(wakes := t.wakes, wakeWord := t.wakeWord) && Frozen(g, s) <= |s.mem|
    ensures Evolves(g, s, t)
  {
    hide EndOf, Settled, ContentOf, Staged, Orphaned, Done, Open, Rolled, Frozen;
    SameFields(g, s, t);
  }

  lemma SameFields(g: Geometry, s: Segment, t: Segment)
    requires g.Valid() && t == s.(wakes := t.wakes, wakeWord := t.wakeWord)
    ensures Settled(g, t) == Settled(g, s) && Orphaned(g, t) == Orphaned(g, s) && Rolled(g, t) == Rolled(g, s)
    ensures Staged(g, t) == Staged(g, s) && Done(g, t) == Done(g, s) && Open(g, t) == Open(g, s)
    ensures EndOf(g, t) == EndOf(g, s) && ContentOf(g, t) == ContentOf(g, s) && Frozen(g, t) == Frozen(g, s)
  {
    hide End, Linked, Records, Steppable, HeaderAt, Geometry.Prealloc, Geometry.Slot;
  }

  lemma SameLeads(g: Geometry, s: Segment, t: Segment, u: Segment)
    requires g.Valid() && t.mem == s.mem && t.base == s.base && Leads(g, s, u)
    ensures Leads(g, t, u)
  {
    hide End, Records, RollBody, RollEdge.Encode;
  }

  lemma FieldsFit(g: Geometry, d: Disk, ch: History, k: nat, t: Segment)
    requires Inv(g, d, ch) && k < |ch| && t == Seg(d, ch, k).(wakes := t.wakes, wakeWord := t.wakeWord)
    ensures Fits(g, d, ch, k, t)
  {
    hide Inv, Members, Leads, Open, Settled, Rolled, Staged, Done, ContentOf;
    var s := Seg(d, ch, k);
    Facts(g, d, ch, k);
    SameFields(g, s, t);
    if k + 1 < |ch| { SameLeads(g, s, t, Seg(d, ch, k + 1)); }
    if k + 1 == |ch| && k > 0 { Facts(g, d, ch, k - 1); }
  }

  // ---------- finishing a roll ----------

  /** What a store that leaves segment `k` as `t` keeps, all but `k` being as they were. */
  ghost predicate Kept(g: Geometry, d: Disk, ch: History, k: nat, t: Segment)
    requires Inv(g, d, ch) && k + 1 < |ch|
  {
    var e := Put(d, ch[k], t);
    && Inv(g, e, ch) && Advances(g, d, ch, e, ch) && Log(g, e, ch) == Log(g, d, ch)
    && Seg(e, ch, k) == t && Seg(e, ch, k + 1) == Seg(d, ch, k + 1)
  }

  lemma KeptByFit(g: Geometry, d: Disk, ch: History, k: nat, t: Segment)
    requires Inv(g, d, ch) && k + 1 < |ch| && Fits(g, d, ch, k, t) && Evolves(g, Seg(d, ch, k), t)
    requires ContentOf(g, t) == ContentOf(g, Seg(d, ch, k))
    ensures Kept(g, d, ch, k, t)
  {
    hide Inv, Members, Evolves, ContentOf, Fits, Advances;
    StoreKeeps(g, d, ch, k, t);
    OtherSegments(g, d, ch, k, t, k + 1);
    LogOfLast(g, d, ch, Put(d, ch[k], t));
  }

  /** Committing the staged Roll of the segment before the newest. */
  lemma CommitRollKeeps(g: Geometry, d: Disk, ch: History)
    requires Inv(g, d, ch) && |ch| >= 2 && Staged(g, Seg(d, ch, |ch| - 2))
    ensures var t := Committed(g, Seg(d, ch, |ch| - 2)); Kept(g, d, ch, |ch| - 2, t) && Rolled(g, t)
  {
    hide Inv, Members, Evolves, Rolled, Staged, ContentOf, EndOf, Fits, Kept, Committed;
    var s := Seg(d, ch, |ch| - 2);
    CommitRolls(g, s);
    CommitRollFits(g, d, ch);
    KeptByFit(g, d, ch, |ch| - 2, Committed(g, s));
  }

  lemma CommitRollFits(g: Geometry, d: Disk, ch: History)
    requires Inv(g, d, ch) && |ch| >= 2 && Staged(g, Seg(d, ch, |ch| - 2))
    ensures Fits(g, d, ch, |ch| - 2, Committed(g, Seg(d, ch, |ch| - 2)))
  {
    hide Inv, Members, Rolled, Staged, Done, Settled, Evolves, Leads, Closing, Fits, ContentOf, EndOf, Committed,
      Member, Open, RollAt, Linked, Geometry.Prealloc;
    var k := |ch| - 2;
    Facts(g, d, ch, k);
    CommitRolls(g, Seg(d, ch, k));
    CommittedLeads(g, Seg(d, ch, k), Seg(d, ch, k + 1));
    CommittedFields(g, Seg(d, ch, k));
    RolledFits(g, d, ch, Committed(g, Seg(d, ch, k)));
  }

  lemma CommittedFields(g: Geometry, s: Segment)
    requires g.Valid() && EndOf(g, s) < |s.mem|
    ensures Committed(g, s).published == s.published
  {
  }

  lemma CommittedLeads(g: Geometry, s: Segment, t: Segment)
    requires g.Valid() && Staged(g, s) && Leads(g, s, t)
    ensures Leads(g, Committed(g, s), t)
  {
    hide Rolled, Staged, Done, Evolves, ContentOf, EndOf, RollBody, RollEdge.Encode;
    CommitRolls(g, s);
  }

  /** Moving the position past a committed Roll. */
  lemma CompleteRollKeeps(g: Geometry, d: Disk, ch: History)
    requires Inv(g, d, ch) && |ch| >= 2 && Rolled(g, Seg(d, ch, |ch| - 2))
    ensures var t := Completed(g, Seg(d, ch, |ch| - 2)); Kept(g, d, ch, |ch| - 2, t) && Done(g, t)
  {
    hide Inv, Members, Evolves, Rolled, Done, ContentOf, EndOf, Completed, Fits, Kept;
    var s := Seg(d, ch, |ch| - 2);
    HintCompletes(g, s);
    CompleteRollFits(g, d, ch);
    KeptByFit(g, d, ch, |ch| - 2, Completed(g, s));
  }

  lemma CompleteRollFits(g: Geometry, d: Disk, ch: History)
    requires Inv(g, d, ch) && |ch| >= 2 && Rolled(g, Seg(d, ch, |ch| - 2))
    ensures Fits(g, d, ch, |ch| - 2, Completed(g, Seg(d, ch, |ch| - 2)))
  {
    hide Inv, Members, Rolled, Done, Evolves, Leads, Closing, Fits, ContentOf, EndOf, Completed, LogTo, Settled, Member,
      Open;
    var k := |ch| - 2;
    Facts(g, d, ch, k);
    HintCompletes(g, Seg(d, ch, k));
    CompletedFields(g, Seg(d, ch, k));
    DoneIsRolled(g, Completed(g, Seg(d, ch, k)));
    SameLeads(g, Seg(d, ch, k), Completed(g, Seg(d, ch, k)), Seg(d, ch, k + 1));
    RolledFits(g, d, ch, Completed(g, Seg(d, ch, k)));
  }

  /** What the segment before the newest must be once its Roll is committed. */
  lemma RolledFits(g: Geometry, d: Disk, ch: History, t: Segment)
    requires g.Valid() && Members(g, d, ch) && |ch| >= 2
    requires Rolled(g, t) && t.published && Leads(g, t, Seg(d, ch, |ch| - 1))
    ensures Fits(g, d, ch, |ch| - 2, t)
  {
    hide Members, Leads, Rolled, Settled, ContentOf, Staged, Open, Done;
  }

  lemma CompletedFields(g: Geometry, s: Segment)
    requires g.Valid()
    ensures var t := Completed(g, s); t.mem == s.mem && t.base == s.base && t.published == s.published
  {
  }

  lemma DoneIsRolled(g: Geometry, s: Segment)
    requires g.Valid() && Done(g, s)
    ensures Rolled(g, s)
  {
    hide Rolled;
  }

  // ---------- the record of all stores ----------

  /** Every moment satisfies the invariant, and each advances to all later ones. */
  ghost predicate Recorded(g: Geometry, past: seq<Moment>) {
    && (forall i :: 0 <= i < |past| ==> Inv(g, past[i].disk, past[i].chain))
    && (forall i, j :: 0 <= i <= j < |past| ==> Advances(g, past[i].disk, past[i].chain, past[j].disk, past[j].chain))
  }

  lemma RecordNext(g: Geometry, past: seq<Moment>, m: Moment)
    requires past != [] && Recorded(g, past) && Inv(g, m.disk, m.chain)
    requires var n := past[|past| - 1]; Advances(g, n.disk, n.chain, m.disk, m.chain)
    ensures Recorded(g, past + [m])
  {
    hide Inv, Advances;
    var all, n := past + [m], past[|past| - 1];
    forall i, j | 0 <= i <= j < |all|
      ensures Advances(g, all[i].disk, all[i].chain, all[j].disk, all[j].chain)
    {
      if j == |past| {
        if i == |past| {
          AdvancesReflexive(g, m.disk, m.chain);
        } else {
          AdvancesTransitive(g, past[i].disk, past[i].chain, n.disk, n.chain, m.disk, m.chain);
        }
      }
    }
  }

  /** At any earlier moment the log was a prefix of what it is at a later one. */
  lemma LogsGrow(g: Geometry, past: seq<Moment>, i: nat, j: nat)
    requires Recorded(g, past) && i <= j < |past|
    ensures Log(g, past[i].disk, past[i].chain) <= Log(g, past[j].disk, past[j].chain)
  {
    hide Inv, Advances;
    LogGrows(g, past[i].disk, past[i].chain, past[j].disk, past[j].chain);
  }

  // ---------- what a call's stores do to the wake word ----------

  /** The moments recorded since `was` saw file `i` with the wake word it had then, and the same history. */
  ghost predicate Unwoken(was: seq<Moment>, past: seq<Moment>, i: InstanceId) {
    && was != [] && was <= past && i in was[|was| - 1].disk.files
    && (forall m :: |was| <= m < |past| ==>
        && past[m].chain == was[|was| - 1].chain && i in past[m].disk.files
        && past[m].disk.files[i].wakeWord == was[|was| - 1].disk.files[i].wakeWord)
  }

  /**
   * The moments recorded since `was` saw file `i` with the wake word it had then, but for those at which every
   * store into a file had been made: who finds the word bumped finds the log as the call leaves it.
   */
  ghost predicate WokenLast(was: seq<Moment>, past: seq<Moment>, i: InstanceId) {
    && was != [] && was <= past && i in was[|was| - 1].disk.files
    && (forall m :: |was| <= m < |past| ==>
        && i in past[m].disk.files
        && (past[m].disk.files[i].wakeWord == was[|was| - 1].disk.files[i].wakeWord
            || (past[m].chain == past[|past| - 1].chain && past[m].disk.files == past[|past| - 1].disk.files)))
  }

  /** The moments recorded since `was` saw file `j` join the history at most once, and then as it is now. */
  ghost predicate JoinsWhole(was: seq<Moment>, past: seq<Moment>, j: InstanceId) {
    && was != [] && was <= past && j in past[|past| - 1].disk.files
    && (forall m :: |was| <= m < |past| ==>
        || past[m].chain == was[|was| - 1].chain
        || (past[m].chain == was[|was| - 1].chain + [j] && j in past[m].disk.files
            && past[m].disk.files[j] == past[|past| - 1].disk.files[j]))
  }

  lemma UnwokenStill(was: seq<Moment>, past: seq<Moment>, i: InstanceId, m: Moment)
    requires Unwoken(was, past, i) && m.chain == past[|past| - 1].chain && i in m.disk.files
    requires i in past[|past| - 1].disk.files && m.disk.files[i].wakeWord == past[|past| - 1].disk.files[i].wakeWord
    ensures Unwoken(was, past + [m], i)
  {
  }

  lemma UnwokenNow(past: seq<Moment>, d: Disk, ch: History, i: InstanceId, t: Segment)
    requires past != [] && past[|past| - 1] == Moment(d, ch) && i in d.files && t.wakeWord == d.files[i].wakeWord
    ensures Unwoken(past, past, i) && Unwoken(past, past + [Moment(Put(d, i, t), ch)], i)
  {
  }

  lemma CommittedWord(g: Geometry, s: Segment)
    requires g.Valid() && EndOf(g, s) < |s.mem|
    ensures Committed(g, s).wakeWord == s.wakeWord
  {
    hide EndOf;
  }

  lemma UnwokenOn(was: seq<Moment>, past: seq<Moment>, more: seq<Moment>, i: InstanceId)
    requires Unwoken(was, past, i) && Unwoken(past, more, i)
    ensures Unwoken(was, more, i)
  {
  }

  lemma BumpedNow(was: seq<Moment>, past: seq<Moment>, i: InstanceId, m: Moment)
    requires Unwoken(was, past, i) && i in m.disk.files
    ensures WokenLast(was, past, i) && WokenLast(was, past + [m], i)
  {
  }

  /** Publishing the successor `j` and two stores to file `i`, none of them to its wake word. */
  ghost predicate Enters(was: seq<Moment>, past: seq<Moment>, i: InstanceId, j: InstanceId) {
    && was != [] && was <= past && i in was[|was| - 1].disk.files && j in past[|past| - 1].disk.files
    && (forall m :: |was| <= m < |past| ==>
        && past[m].chain == was[|was| - 1].chain + [j] && i in past[m].disk.files && j in past[m].disk.files
        && past[m].disk.files[i].wakeWord == was[|was| - 1].disk.files[i].wakeWord
        && past[m].disk.files[j] == past[|past| - 1].disk.files[j])
  }

  lemma ThreeStores(was: seq<Moment>, c: Disk, ch: History, i: InstanceId, j: InstanceId, d: Disk, e: Disk, f: Disk)
    requires was != [] && was[|was| - 1] == Moment(c, ch) && i in c.files
    requires i in d.files && j in d.files && i in e.files && j in e.files && i in f.files && j in f.files
    requires c.files[i].wakeWord == d.files[i].wakeWord == e.files[i].wakeWord == f.files[i].wakeWord
    requires d.files[j] == e.files[j] == f.files[j]
    ensures var dh := ch + [j]; Enters(was, was + [Moment(d, dh)] + [Moment(e, dh)] + [Moment(f, dh)], i, j)
  {
  }

  /** Every file of `d` is in `e`, with the wake word it had. */
  predicate SameWords(d: Disk, e: Disk) {
    forall i :: i in d.files ==> i in e.files && e.files[i].wakeWord == d.files[i].wakeWord
  }

  /** The moments recorded since `was` saw every file with the wake word it had then, and the same history. */
  ghost predicate NoneWoken(was: seq<Moment>, past: seq<Moment>) {
    && was != [] && was <= past
    && (forall m :: |was| <= m < |past| ==>
        past[m].chain == was[|was| - 1].chain && SameWords(was[|was| - 1].disk, past[m].disk))
  }

  lemma NoneWokenOn(was: seq<Moment>, past: seq<Moment>, more: seq<Moment>)
    requires NoneWoken(was, past) && NoneWoken(past, more)
    ensures NoneWoken(was, more)
  {
  }

  lemma NoneWokenStill(past: seq<Moment>, d: Disk, ch: History, e: Disk)
    requires past != [] && past[|past| - 1] == Moment(d, ch) && SameWords(d, e)
    ensures NoneWoken(past, past) && NoneWoken(past, past + [Moment(e, ch)])
  {
  }

  lemma NoneWokenThen(d: Disk, ch: History, was: seq<Moment>, past: seq<Moment>, more: seq<Moment>, i: InstanceId)
    requires was != [] && was[|was| - 1] == Moment(d, ch) && i in d.files
    requires NoneWoken(was, past) && WokenLast(past, more, i)
    ensures WokenLast(was, more, i)
  {
  }

  /** The moments recorded since `was` saw every file, and the history, as they are now. */
  ghost predicate Rests(was: seq<Moment>, past: seq<Moment>) {
    && was <= past
    && (forall m :: |was| <= m < |past| ==>
        past[m].chain == past[|past| - 1].chain && past[m].disk.files == past[|past| - 1].disk.files)
  }

  lemma RestsThen(was: seq<Moment>, past: seq<Moment>, more: seq<Moment>, d: Disk, ch: History, e: Disk)
    requires past == was || past == was + [Moment(d, ch)]
    requires more == past || more == past + [Moment(e, ch)]
    requires more != [] && more[|more| - 1] == Moment(e, ch) && e.files == d.files
    ensures Rests(was, more)
  {
  }

  /** Stores that publish nothing, then a roll, then those that wake and that retention makes. */
  lemma WokenAcross(was: seq<Moment>, a: seq<Moment>, b: seq<Moment>, past: seq<Moment>, i: InstanceId, j: InstanceId)
    requires Unwoken(was, a, i) && Enters(a, b, i, j) && Rests(b, past)
    requires i in past[|past| - 1].disk.files && j in past[|past| - 1].disk.files
    requires past[|past| - 1].disk.files[j] == b[|b| - 1].disk.files[j]
    requires past[|past| - 1].chain == b[|b| - 1].chain
    ensures WokenLast(was, past, i) && JoinsWhole(was, past, j)
  {
    assert a[|a| - 1].chain == was[|was| - 1].chain;
  }

  /** The same, other stores that publish nothing before it. */
  lemma PreparedWoken(was: seq<Moment>, past: seq<Moment>, more: seq<Moment>, i: InstanceId, j: InstanceId)
    requires Unwoken(was, past, i) && WokenLast(past, more, i) && JoinsWhole(past, more, j)
    ensures WokenLast(was, more, i) && JoinsWhole(was, more, j)
  {
  }

  lemma SameGeneration(g: Geometry, d: Disk, ch: History, k: nat)
    requires Inv(g, d, ch) && k < |ch|
    ensures Seg(d, ch, k).generation == Seg(d, ch, 0).generation && Seg(d, ch, k).sequence == k
  {
    Facts(g, d, ch, k);
  }

  /** Stores that leave the history's files alone leave the log and the writer's ground alone. */
  lemma WritableSame(g: Geometry, d: Disk, ch: History, e: Disk)
    requires Inv(g, d, ch) && Inv(g, e, ch) && Advances(g, d, ch, e, ch)
    requires forall k {:trigger ch[k]} :: 0 <= k < |ch| ==> ch[k] in e.files && e.files[ch[k]] == d.files[ch[k]]
    ensures Writable(g, e, ch) == Writable(g, d, ch) && Log(g, e, ch) == Log(g, d, ch)
    ensures Newest(e, ch) == Newest(d, ch)
  {
    hide Inv, Members, ContentOf, Evolves, Done;
    LogOfLast(g, d, ch, e);
    var _ := ch[|ch| - 1];
    if |ch| >= 2 { var _ := ch[|ch| - 2]; }
  }

  lemma SameChainFields(g: Geometry, s: Segment, t: Segment)
    requires g.Valid() && t.mem == s.mem
    ensures EndOf(g, t) == EndOf(g, s) && ContentOf(g, t) == ContentOf(g, s)
  {
  }

  lemma LogIs(g: Geometry, d: Disk, ch: History)
    requires Inv(g, d, ch)
    ensures Log(g, d, ch) == LogTo(g, d, ch, |ch| - 1) + ContentOf(g, Newest(d, ch))
  {
    hide Inv, ContentOf, Members;
  }

  lemma ReadyStaged(g: Geometry, d: Disk, ch: History)
    requires Inv(g, d, ch) && ReadyToPublish(g, d, ch)
    ensures Staged(g, Newest(d, ch))
  {
    hide Inv, Staged, Members, Leads, Done;
  }

  /** A file with its base and wake flag stamped. */
  function Stamped(d: Disk, i: InstanceId, base: nat, wakes: bool): Disk
    requires i in d.files
  {
    Put(d, i, d.files[i].(base := base, wakes := wakes))
  }

  /** The newest segment is `j`, settled and published; the roll that leads to it from `i` may be unfinished. */
  predicate Crosses(g: Geometry, d: Disk, ch: History, i: InstanceId, j: InstanceId)
    requires g.Valid()
    ensures Crosses(g, d, ch, i, j) ==> |ch| >= 2 && i in d.files && j in d.files && i != j && Settled(g, d.files[j])
  {
    && |ch| >= 2 && ch[|ch| - 2] == i && ch[|ch| - 1] == j && i != j && i in d.files && j in d.files
    && d.files[j].published && Settled(g, d.files[j])
  }

  lemma PublishCrosses(g: Geometry, d: Disk, ch: History, i: InstanceId, j: InstanceId)
    requires Inv(g, d, ch) && ReadyToPublish(g, d, ch) && d.names[|ch|] == j && ch[|ch| - 1] == i
    ensures var e, dh := Publish(d, j), ch + [j];
      && Inv(g, e, dh) && Advances(g, d, ch, e, dh) && Log(g, e, dh) == Log(g, d, ch)
      && Crosses(g, e, dh, i, j) && e.files[i] == d.files[i] && Staged(g, e.files[i])
      && EndOf(g, e.files[j]) == FIRST_RECORD && Preinstalled(e.files[j].mem, FIRST_RECORD)
  {
    hide LogTo, EndOf, Settled, Inv, Members, Advances, ReadyToPublish, ContentOf, Spare, Staged, Preinstalled, Log;
    ReadyStaged(g, d, ch);
    PublishKeeps(g, d, ch);
    SpareNamed(g, d, ch);
    SpareNew(g, d, ch, j);
    SpareSettled(g, d, ch, j);
    LogOfPublish(g, d, ch, Publish(d, j), ch + [j]);
    assert i in ch;
  }

  lemma CommitRollCrosses(g: Geometry, d: Disk, ch: History, i: InstanceId, j: InstanceId)
    requires Inv(g, d, ch) && Crosses(g, d, ch, i, j) && Staged(g, d.files[i])
    ensures EndOf(g, d.files[i]) < |d.files[i].mem|
    ensures var t := Committed(g, d.files[i]); var e := Put(d, i, t);
      && Inv(g, e, ch) && Advances(g, d, ch, e, ch) && Log(g, e, ch) == Log(g, d, ch) && Crosses(g, e, ch, i, j)
      && e.files[i] == t && Rolled(g, t) && EndOf(g, t) == EndOf(g, d.files[i]) && t.wakeWord == d.files[i].wakeWord
  {
    hide LogTo, EndOf, Settled, Inv, Members, Advances, Staged, Rolled, ContentOf, Committed, Evolves;
    CommitRolls(g, d.files[i]);
    CommitRollKeeps(g, d, ch);
    CommittedWord(g, d.files[i]);
  }

  /** A Roll staged to name the file installed next, stamped to start where the newest segment ends. */
  lemma StagedReady(g: Geometry, d: Disk, ch: History, edge: RollEdge)
    requires Inv(g, d, ch) && Writable(g, d, ch) && Settled(g, Newest(d, ch))
    requires |ch| in d.names && d.names[|ch|] in d.files && d.files[d.names[|ch|]].base == edge.nextBase
    requires |ch| <= U64_MAX && Newest(d, ch).base <= U64_MAX
    requires After(|ch| - 1, Newest(d, ch).base, Newest(d, ch).messageCount, d.names[|ch|]) == Ok(edge)
    requires RollAt(Newest(d, ch).mem, EndOf(g, Newest(d, ch)))
    requires RollBody(Newest(d, ch).mem, EndOf(g, Newest(d, ch))) == edge.Encode()
    ensures ReadyToPublish(g, d, ch)
  {
    hide Inv, Members, Settled, EndOf, ContentOf, Done, RollBody, RollAt, RollEdge.Encode, Spare, Staged, Leads;
    var j := d.names[|ch|];
    SpareNamed(g, d, ch);
    SpareSettled(g, d, ch, j);
    SettledSays(g, Newest(d, ch));
    StagedLeads(g, Newest(d, ch), d.files[j], |ch|, j);
  }

  lemma StagedLeads(g: Geometry, s: Segment, t: Segment, sequence: nat, j: InstanceId)
    requires g.Valid() && Settled(g, s) && RollAt(s.mem, EndOf(g, s)) && s.messageCount == |ContentOf(g, s)|
    requires t.sequence == sequence <= U64_MAX && t.identity.instance == j
    requires t.base == s.base + s.messageCount <= U64_MAX
    requires RollBody(s.mem, EndOf(g, s)) == RollEdge(sequence, j, t.base).Encode()
    ensures Staged(g, s) && Leads(g, s, t)
  {
    hide Settled, EndOf, ContentOf, RollBody, RollAt, RollEdge.Encode;
  }

  ghost predicate Rested(g: Geometry, d: Disk, ch: History, i: InstanceId)
    requires Inv(g, d, ch)
    ensures Rested(g, d, ch, i) ==> i in d.files && Settled(g, d.files[i]) && Writable(g, d, ch)
  {
    Writable(g, d, ch) && ch[|ch| - 1] == i && Settled(g, d.files[i])
  }

  predicate HeadOpen(g: Geometry, d: Disk, ch: History)
    requires g.Valid() && |ch| >= 1
    ensures HeadOpen(g, d, ch) ==> ch[|ch| - 1] in d.files
  {
    ch[|ch| - 1] in d.files && Open(g, d.files[ch[|ch| - 1]])
  }

  lemma AlwaysOpen(g: Geometry, d: Disk, ch: History)
    requires Inv(g, d, ch)
    ensures HeadOpen(g, d, ch)
  {
    hide Inv, Open, Members, ContentOf, Settled;
    Facts(g, d, ch, |ch| - 1);
  }

  class ChannelFiles {
    const g: Geometry
    var disk: Disk
    ghost var chain: History
    ghost var past: seq<Moment>
    /** How many stores others, whoever they are, have yet to make: any number, but not without end. */
    ghost var rest: nat

    /** Since there were `was` such stores left, with files `d` and history `ch`, others made some or did nothing. */
    ghost predicate Since(was: nat, d: Disk, ch: History)
      reads this
    {
      rest <= was && (rest == was ==> disk == d && chain == ch)
    }

    ghost predicate Valid()
      reads this
      ensures Valid() ==> Inv(g, disk, chain)
    {
      && Inv(g, disk, chain)
      && past != [] && past[|past| - 1] == Moment(disk, chain)
      && Recorded(g, past)
    }

    /** The newest segment is `i`, published, with nothing unfinished behind it or in it. */
    ghost predicate Ready(i: InstanceId)
      reads this
      ensures Ready(i) ==> Valid() && i in disk.files && Settled(g, disk.files[i]) && Writable(g, disk, chain)
    {
      Valid() && Rested(g, disk, chain, i)
    }

    /** The newest segment is `i`, and its position, or its count too, has yet to catch up with its last record. */
    ghost predicate Behind(i: InstanceId)
      reads this
      ensures Behind(i) ==> Valid() && i in disk.files && Orphaned(g, disk.files[i])
    {
      && Valid() && Writable(g, disk, chain) && chain[|chain| - 1] == i
      && Orphaned(g, disk.files[i])
    }

    ghost function Logged(): seq<Record>
      reads this
      requires Valid()
    {
      Log(g, disk, chain)
    }

    /** The newest segment is `i`, in whatever state a crash may leave it. */
    ghost predicate Heads(i: InstanceId)
      reads this
      ensures Heads(i) ==> Valid() && i in disk.files && Open(g, disk.files[i])
    {
      Valid() && chain[|chain| - 1] == i && HeadOpen(g, disk, chain)
    }

    /** The last moment recorded is now. */
    lemma Now()
      requires Valid()
      ensures past != [] && past[|past| - 1] == Moment(disk, chain)
    {
      hide Inv, Recorded;
    }

    lemma NewestIs(i: InstanceId)
      requires Ready(i)
      ensures chain[|chain| - 1] == i
    {
      hide Inv, Settled;
    }

    lemma CrossingFrom(i: InstanceId, j: InstanceId)
      requires Crossing(i, j)
      ensures |chain| >= 2 && chain[|chain| - 2] == i
    {
      hide Inv, Settled;
    }

    /** The staged Roll and the stamped file behind it are ready for the publishing store. */
    lemma Stageable(i: InstanceId, edge: RollEdge)
      requires Ready(i) && |chain| in disk.names && disk.names[|chain|] in disk.files
      requires disk.files[disk.names[|chain|]].base == edge.nextBase && |chain| <= U64_MAX
      requires disk.files[i].base <= U64_MAX
      requires After(|chain| - 1, disk.files[i].base, disk.files[i].messageCount, disk.names[|chain|]) == Ok(edge)
      requires RollAt(disk.files[i].mem, EndOf(g, disk.files[i]))
      requires RollBody(disk.files[i].mem, EndOf(g, disk.files[i])) == edge.Encode()
      ensures ReadyToPublish(g, disk, chain)
    {
      hide Settled, Inv, Members, EndOf, RollAt, RollBody, RollEdge.Encode, ReadyToPublish, After;
      assert disk.files[i] == Newest(disk, chain);
      StagedReady(g, disk, chain, edge);
    }

    lemma BaseFits(i: InstanceId)
      requires Ready(i)
      ensures disk.files[i].base <= U64_MAX
    {
      hide Settled, Inv, Members, Member, Writable;
      BaseInRange(g, disk, chain, |chain| - 1);
    }

    /** Files as some earlier process left them, whatever point it died at. */
    constructor (g: Geometry, d: Disk, ghost ch: History)
      requires Inv(g, d, ch)
      ensures Valid() && this.g == g && disk == d && chain == ch && past == [Moment(d, ch)]
    {
      this.g := g;
      disk := d;
      chain := ch;
      past := [Moment(d, ch)];
      rest := *;
      new;
      hide Inv, Advances;
      AdvancesReflexive(g, d, ch);
    }

    /** Any one store, by anyone. */
    method Store(d: Disk, ghost ch: History)
      requires Valid() && Inv(g, d, ch) && Advances(g, disk, chain, d, ch)
      modifies this
      ensures Valid() && disk == d && chain == ch
      ensures past == old(past) + [Moment(d, ch)]
    {
      hide Inv, Advances;
      RecordNext(g, past, Moment(d, ch));
      disk, chain, past := d, ch, past + [Moment(d, ch)];
    }

    /** A store into the newest segment `i`. */
    method StoreInto(i: InstanceId, t: Segment)
      requires Valid() && Firm(g, disk, chain) && chain[|chain| - 1] == i
      requires Evolves(g, disk.files[i], t) && Open(g, t)
      modifies this
      ensures Valid() && Firm(g, disk, chain) && (old(Writable(g, disk, chain)) ==> Writable(g, disk, chain))
      ensures disk == Put(old(disk), i, t) && chain == old(chain) && past == old(past) + [Moment(disk, chain)]
      ensures Logged() == old(LogTo(g, disk, chain, |chain| - 1)) + ContentOf(g, t)
    {
      hide Inv, Advances, Writable, Firm, Evolves, Open, ContentOf, Recorded, LogTo, Members;
      StoreNewest(g, disk, chain, t);
      Store(Put(disk, i, t), chain);
    }

    /** A store of any bytes past the newest segment's chain. */
    method Write(i: InstanceId, p: nat, b: seq<byte>)
      requires Ready(i) && Private(g, disk.files[i], p, b)
      modifies this
      ensures Ready(i) && disk == Put(old(disk), i, Poke(old(disk).files[i], p, b))
      ensures chain == old(chain) && past == old(past) + [Moment(disk, chain)]
      ensures EndOf(g, disk.files[i]) == old(EndOf(g, disk.files[i]))
      ensures Logged() == old(Logged())
    {
      hide Inv, Evolves, Settled, Orphaned, ContentOf, EndOf, Writable, Firm, Private, Recorded, Log, LogTo, Members,
        Poke;
      LogIs(g, disk, chain);
      WritableFirm(g, disk, chain);
      PokeSettled(g, disk.files[i], p, b);
      StoreInto(i, Poke(disk.files[i], p, b));
    }

    /** `ensure_len`: the newest segment's file grows. */
    method Grow(i: InstanceId, n: nat)
      requires Ready(i) && g.roll == 0 && n % g.region == 0 && |disk.files[i].mem| <= n
      modifies this
      ensures Ready(i)
      ensures disk == Put(old(disk), i, old(disk).files[i].(mem := old(disk).files[i].mem
          + Zeros(n - |old(disk).files[i].mem|)))
      ensures chain == old(chain) && past == old(past) + [Moment(disk, chain)]
      ensures EndOf(g, disk.files[i]) == old(EndOf(g, disk.files[i]))
      ensures Logged() == old(Logged())
    {
      hide Inv, Evolves, Settled, Orphaned, ContentOf, EndOf, Writable, Firm, Recorded, Log, LogTo, Members, Zeros;
      LogIs(g, disk, chain);
      WritableFirm(g, disk, chain);
      var s := disk.files[i];
      GrowSettled(g, s, n);
      StoreInto(i, s.(mem := s.mem + Zeros(n - |s.mem|)));
    }

    /** The store that publishes the record at the next slot to readers. */
    method CommitNext(i: InstanceId)
      requires Ready(i) && ReadyToCommit(g, disk.files[i])
      modifies this
      ensures disk == Put(old(disk), i, old(Committed(g, disk.files[i])))
      ensures chain == old(chain) && past == old(past) + [Moment(disk, chain)]
      ensures Behind(i)
      ensures Delivered(old(disk).files[i], disk.files[i], old(Logged()), Logged())
    {
      hide Inv, Evolves, Settled, Orphaned, ContentOf, EndOf, Writable, Firm, Recorded, Log, LogTo, Members, Steppable,
        Step, Next;
      LogIs(g, disk, chain);
      WritableFirm(g, disk, chain);
      ghost var s := disk.files[i];
      CommitOrphans(g, s);
      StoreInto(i, Committed(g, disk.files[i]));
      assert Steppable(Committed(g, s).mem, g.region, EndOf(g, s));
    }

    /** `t` is `s` with the record at its next slot committed, and the log has grown by what that record delivers. */
    ghost predicate Delivered(s: Segment, t: Segment, before: seq<Record>, after: seq<Record>) {
      && g.Valid()
      && Steppable(t.mem, g.region, EndOf(g, s))
      && EndOf(g, t) == Next(t.mem, EndOf(g, s))
      && after == before + Step(t.mem, g.region, EndOf(g, s))
      && |ContentOf(g, t)| == |ContentOf(g, s)| + |Step(t.mem, g.region, EndOf(g, s))|
    }

    /** The count catches up with the record just committed. */
    method CountOne(i: InstanceId)
      requires Behind(i) && disk.files[i].messageCount + 1 == |ContentOf(g, disk.files[i])|
      modifies this
      ensures disk == Put(old(disk), i, old(disk).files[i].(messageCount := old(disk).files[i].messageCount + 1))
      ensures chain == old(chain) && past == old(past) + [Moment(disk, chain)]
      ensures Behind(i)
      ensures ContentOf(g, disk.files[i]) == old(ContentOf(g, disk.files[i]))
      ensures EndOf(g, disk.files[i]) == old(EndOf(g, disk.files[i]))
      ensures Logged() == old(Logged())
    {
      hide Inv, Evolves, Settled, Orphaned, ContentOf, EndOf, Writable, Firm, Recorded, Log, LogTo, Members;
      LogIs(g, disk, chain);
      WritableFirm(g, disk, chain);
      CountCatchesUp(g, disk.files[i]);
      SameChainFields(g, disk.files[i], disk.files[i].(messageCount := disk.files[i].messageCount + 1));
      StoreInto(i, disk.files[i].(messageCount := disk.files[i].messageCount + 1));
    }

    /** The position catches up: the newest segment is settled again. */
    method PublishPosition(i: InstanceId, wp: nat)
      requires Behind(i) && disk.files[i].messageCount == |ContentOf(g, disk.files[i])|
      requires wp == EndOf(g, disk.files[i]) + HEADER_SLOT
      modifies this
      ensures Ready(i)
      ensures disk == Put(old(disk), i, old(disk).files[i].(writePosition := wp))
      ensures chain == old(chain) && past == old(past) + [Moment(disk, chain)]
      ensures EndOf(g, disk.files[i]) == old(EndOf(g, disk.files[i]))
      ensures Logged() == old(Logged())
    {
      hide Inv, Evolves, Settled, Orphaned, ContentOf, EndOf, Writable, Firm, Recorded, Log, LogTo, Members;
      LogIs(g, disk, chain);
      WritableFirm(g, disk, chain);
      PublishSettles(g, disk.files[i]);
      StoreInto(i, disk.files[i].(writePosition := wp));
    }

    /** A store to the flags or the wake word of segment `k`, which is file `i`. */
    method StoreFields(i: InstanceId, ghost k: nat, wakes: bool, word: nat)
      requires Valid() && k < |chain| && chain[k] == i
      modifies this
      ensures Valid() && disk == Put(old(disk), i, old(disk).files[i].(wakes := wakes, wakeWord := word))
      ensures chain == old(chain) && past == old(past) + [Moment(disk, chain)]
      ensures Logged() == old(Logged())
      ensures old(Writable(g, disk, chain)) ==> Writable(g, disk, chain)
      ensures forall j: InstanceId ::
        old(Ready(j)) ==> Ready(j) && EndOf(g, disk.files[j]) == old(EndOf(g, disk.files[j]))
    {
      hide Inv, Evolves, Writable, Recorded, Log, LogTo, Members, EndOf, Settled, Orphaned, Staged, Rolled, Done, Open,
        ContentOf, Frozen;
      FieldsKeep(g, disk, chain, k, wakes, word);
      SameFields(g, disk.files[i], disk.files[i].(wakes := wakes, wakeWord := word));
      Store(Put(disk, i, disk.files[i].(wakes := wakes, wakeWord := word)), chain);
    }

    /** A complete, unpublished file appears under the next name. */
    method InstallNext(file: InstanceId, sequence: nat, ghost i: InstanceId, parent: InstanceId, generation: nat)
      requires Ready(i) && sequence == |chain| <= U64_MAX && sequence !in disk.names && parent == i
      requires file !in disk.files && file != NONE && generation == disk.files[i].generation
      modifies this
      ensures chain == old(chain) && disk == Install(g, old(disk), old(chain), file)
      ensures past == old(past) + [Moment(disk, chain)]
      ensures Ready(i) && Spare(g, disk, chain, file)
      ensures disk.files[i] == old(disk).files[i]
      ensures Logged() == old(Logged())
    {
      hide Evolves, Writable, Recorded, LogTo, EndOf, Settled, Orphaned, Inv, Members, Advances, Member;
      SameGeneration(g, disk, chain, |chain| - 1);
      InstallKeeps(g, disk, chain, file);
      WritableSame(g, disk, chain, Install(g, disk, chain, file));
      var s := Fresh(g, 0, sequence, generation, Successor(file, parent, sequence - 1));
      Store(Disk(disk.files[file := s], disk.names[sequence := file]), chain);
    }

    /** The base and wake flag of the file installed next, while it is still unpublished. */
    method StampNext(sequence: nat, base: nat, wakes: bool, ghost i: InstanceId)
      requires Ready(i) && sequence == |chain| && sequence in disk.names
      modifies this
      ensures chain == old(chain) && past == old(past) + [Moment(disk, chain)]
      ensures old(disk).names[sequence] in old(disk).files
      ensures disk == Stamped(old(disk), old(disk).names[sequence], base, wakes)
      ensures Ready(i) && disk.files[i] == old(disk).files[i] && Logged() == old(Logged())
    {
      hide Evolves, Writable, Recorded, LogTo, EndOf, Settled, Orphaned, Inv, Members, Advances, Member, Spare;
      StampKeeps(g, disk, chain, base, wakes);
      SpareNamed(g, disk, chain);
      SpareNew(g, disk, chain, disk.names[sequence]);
      WritableSame(g, disk, chain, Stamped(disk, disk.names[sequence], base, wakes));
      Store(Stamped(disk, disk.names[sequence], base, wakes), chain);
    }

    /** The store that makes `j`, the file installed next, part of the channel after `i`. */
    method PublishNext(sequence: nat, ghost i: InstanceId, j: InstanceId)
      requires Ready(i) && sequence == |chain| && ReadyToPublish(g, disk, chain) && disk.names[sequence] == j
      modifies this
      ensures chain == old(chain) + [j] && past == old(past) + [Moment(disk, chain)]
      ensures j in old(disk).files && disk == Publish(old(disk), j)
      ensures Crossing(i, j) && Staged(g, disk.files[i]) && disk.files[i] == old(disk).files[i]
      ensures EndOf(g, disk.files[j]) == FIRST_RECORD && Preinstalled(disk.files[j].mem, FIRST_RECORD)
      ensures Logged() == old(Logged())
    {
      hide Recorded, LogTo, EndOf, Settled, Inv, Members, Advances, ReadyToPublish, ContentOf, Staged, Preinstalled,
        Crosses, Publish, Log;
      NewestIs(i);
      PublishCrosses(g, disk, chain, i, j);
      Store(Publish(disk, j), chain + [j]);
    }

    /** The newest segment is `j`, settled and published; the roll that leads to it from `i` may be unfinished. */
    ghost predicate Crossing(i: InstanceId, j: InstanceId)
      reads this
      ensures Crossing(i, j) ==> Valid() && i in disk.files && j in disk.files && i != j && Settled(g, disk.files[j])
    {
      Valid() && Crosses(g, disk, chain, i, j)
    }

    /** The store that commits the Roll of the segment before the newest. */
    method CommitRoll(i: InstanceId, ghost j: InstanceId)
      requires Crossing(i, j) && Staged(g, disk.files[i])
      modifies this
      ensures chain == old(chain) && past == old(past) + [Moment(disk, chain)]
      ensures disk == Put(old(disk), i, old(Committed(g, disk.files[i])))
      ensures Crossing(i, j) && Rolled(g, disk.files[i])
      ensures EndOf(g, disk.files[i]) == old(EndOf(g, disk.files[i]))
      ensures Logged() == old(Logged()) && Unwoken(old(past), past, i)
    {
      hide Recorded, Log, EndOf, Settled, Inv, Members, Advances, Staged, Rolled, ContentOf, Committed, Evolves,
        Unwoken, Crosses;
      CommitRollCrosses(g, disk, chain, i, j);
      UnwokenNow(past, disk, chain, i, Committed(g, disk.files[i]));
      Store(Put(disk, i, Committed(g, disk.files[i])), chain);
    }

    /** The store that moves its position past the Roll, which completes it. */
    method CompleteRoll(i: InstanceId, ghost j: InstanceId, wp: nat)
      requires Crossing(i, j) && Rolled(g, disk.files[i])
      requires wp == EndOf(g, disk.files[i]) + HEADER_SLOT + ROLL_TOTAL
      modifies this
      ensures chain == old(chain) && past == old(past) + [Moment(disk, chain)]
      ensures disk == Put(old(disk), i, old(disk).files[i].(writePosition := wp))
      ensures Crossing(i, j) && Ready(j) && Done(g, disk.files[i])
      ensures Logged() == old(Logged()) && Unwoken(old(past), past, i)
    {
      hide Recorded, LogTo, EndOf, Settled, Inv, Members, Advances, Rolled, Done, ContentOf, Unwoken;
      CompleteRollKeeps(g, disk, chain);
      UnwokenNow(past, disk, chain, i, disk.files[i].(writePosition := wp));
      Store(Put(disk, i, disk.files[i].(writePosition := wp)), chain);
    }

    /** Removing a name: an old segment's, or that of a file never published. */
    method Unlink(n: nat)
      requires Valid() && n != |chain| - 1
      requires n + 2 == |chain| ==> Writable(g, disk, chain)
      modifies this
      ensures chain == old(chain) && disk == old(disk).(names := old(disk).names - {n})
      ensures past == old(past) + [Moment(disk, chain)]
      ensures Valid() && Logged() == old(Logged())
      ensures forall i: InstanceId :: old(Ready(i)) ==> Ready(i)
    {
      hide Recorded, LogTo, Inv, Members, Advances, Writable, Settled, Done;
      if n + 2 == |chain| { WritableDone(g, disk, chain); }
      UnlinkKeeps(g, disk, chain, n);
      WritableSame(g, disk, chain, disk.(names := disk.names - {n}));
      Store(disk.(names := disk.names - {n}), chain);
    }
  }
}
