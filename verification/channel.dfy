/**
 * A channel on disk: its physical files, the names that lead to them, and the chain of published
 * segments that is its history. `Inv` holds between any two stores, so it is also what a crash
 * may leave.
 */
module Channel {
  import opened Bytes
  import opened Layout
  import opened Chain
  import opened Linking
  import opened Segments

  /** Files by instance, whether still named or not, and the instance each final name leads to. */
  datatype Disk = Disk(files: map<InstanceId, Segment>, names: map<nat, InstanceId>)

  /** Element `k` is the file published as segment `k`. */
  type History = seq<InstanceId>

  function Seg(d: Disk, ch: History, k: nat): Segment
    requires k < |ch| && ch[k] in d.files
  {
    d.files[ch[k]]
  }

  function IdentityOf(ch: History, k: nat): Identity
    requires k < |ch| && k <= U64_MAX
  {
    if k == 0 then Initial(ch[0]) else Successor(ch[k], ch[k - 1], k - 1)
  }

  /** Segment `k` of the history is the file it should be. */
  ghost predicate Member(g: Geometry, d: Disk, ch: History, k: nat)
    requires g.Valid() && k < |ch|
    ensures Member(g, d, ch, k) ==> ch[k] in d.files && ch[0] in d.files
  {
    && k <= U64_MAX
    && ch[k] in d.files && ch[0] in d.files
    && var s := Seg(d, ch, k);
    && s.sequence == k && s.identity == IdentityOf(ch, k) && s.identity.Valid()
    && s.generation == Seg(d, ch, 0).generation
    && s.base <= U64_MAX
  }

  /** `s` ends in a Roll, committed or staged, that names `t` exactly, and `t` starts where `s` ends. */
  predicate Leads(g: Geometry, s: Segment, t: Segment)
    requires g.Valid()
  {
    && t.sequence <= U64_MAX && t.base <= U64_MAX
    && t.base == s.base + |ContentOf(g, s)|
    && EndOf(g, s) + ROLL_TOTAL <= |s.mem|
    && RollBody(s.mem, EndOf(g, s)) == RollEdge(t.sequence, t.identity.instance, t.base).Encode()
  }

  /** The last roll may be interrupted anywhere after its successor was published, before which nothing follows it. */
  predicate Closing(g: Geometry, s: Segment, t: Segment)
    requires g.Valid()
    ensures Closing(g, s, t) ==> Sound(g, s)
  {
    Rolled(g, s) || (Staged(g, s) && Settled(g, t) && ContentOf(g, t) == [])
  }

  /** An installed file that no store has published: complete, empty, and naming the newest segment as its parent. */
  ghost predicate Spare(g: Geometry, d: Disk, ch: History, i: InstanceId)
    requires g.Valid() && |ch| >= 1
    ensures Spare(g, d, ch, i) ==> i in d.files
  {
    && i in d.files && i !in ch && i != NONE && |ch| <= U64_MAX && ch[0] in d.files
    && var s := d.files[i];
    && s == Fresh(g, s.base, |ch|, Seg(d, ch, 0).generation, Successor(i, ch[|ch| - 1], |ch| - 1)).(wakes := s.wakes)
  }

  ghost predicate Members(g: Geometry, d: Disk, ch: History)
    requires g.Valid()
    ensures Members(g, d, ch) ==> forall k {:trigger ch[k]} :: 0 <= k < |ch| ==> ch[k] in d.files
  {
    forall k {:trigger ch[k]} :: 0 <= k < |ch| ==> Member(g, d, ch, k)
  }

  /** Segment `k` leads to the next; its roll is complete, unless it is the last. */
  ghost predicate Link(g: Geometry, d: Disk, ch: History, k: nat)
    requires g.Valid() && k + 1 < |ch| && ch[k] in d.files && ch[k + 1] in d.files
  {
    && Leads(g, Seg(d, ch, k), Seg(d, ch, k + 1))
    && (if k == |ch| - 2 then Closing(g, Seg(d, ch, k), Seg(d, ch, k + 1)) else Done(g, Seg(d, ch, k)))
  }

  /** Segment k is published and linked to the one after it. */
  ghost predicate Joined(g: Geometry, d: Disk, ch: History, k: nat)
    requires g.Valid()
  {
    && k + 1 < |ch| && ch[k] in d.files && ch[k + 1] in d.files
    && Link(g, d, ch, k) && Seg(d, ch, k).published
  }

  ghost predicate Links(g: Geometry, d: Disk, ch: History)
    requires g.Valid() && Members(g, d, ch)
  {
    forall k {:trigger ch[k]} :: 0 <= k < |ch| - 1 ==> Link(g, d, ch, k)
  }

  ghost predicate Published(g: Geometry, d: Disk, ch: History)
    requires g.Valid() && Members(g, d, ch)
  {
    forall k {:trigger ch[k]} :: 0 <= k < |ch| ==>
      Seg(d, ch, k).published || (|ch| == 1 && Settled(g, Seg(d, ch, 0)) && ContentOf(g, Seg(d, ch, 0)) == [])
  }

  ghost predicate Named(g: Geometry, d: Disk, ch: History)
    requires g.Valid() && |ch| >= 1
  {
    && |ch| - 1 in d.names
    && forall n :: n in d.names ==>
      if n < |ch| then d.names[n] == ch[n] else n == |ch| && Spare(g, d, ch, d.names[n])
  }

  /** A roll not yet complete is still under its name, where the next writer finds it. */
  ghost predicate Traceable(g: Geometry, d: Disk, ch: History)
    requires g.Valid() && Members(g, d, ch)
  {
    |ch| >= 2 ==> |ch| - 2 in d.names || Done(g, Seg(d, ch, |ch| - 2))
  }

  /** Every file bears its own instance, and no file outside the history is published. */
  ghost predicate Sole(files: map<InstanceId, Segment>, ch: History) {
    forall i :: i in files ==> files[i].identity.instance == i && (files[i].published ==> i in ch)
  }

  /** What holds of the disk between any two stores. */
  ghost predicate Inv(g: Geometry, d: Disk, ch: History)
    ensures Inv(g, d, ch) ==> g.Valid() && |ch| >= 1 && Members(g, d, ch)
  {
    && g.Valid() && |ch| >= 1
    && Members(g, d, ch)
    && Links(g, d, ch)
    && Open(g, Seg(d, ch, |ch| - 1))
    && Published(g, d, ch)
    && Named(g, d, ch)
    && Traceable(g, d, ch)
    && Sole(d.files, ch)
  }

  /** What the invariant says of segment `k`. */
  lemma Facts(g: Geometry, d: Disk, ch: History, k: nat)
    requires Inv(g, d, ch) && k < |ch|
    ensures g.Valid() && Member(g, d, ch, k) && Members(g, d, ch)
    ensures Seg(d, ch, k).published || (|ch| == 1 && Settled(g, Seg(d, ch, 0)) && ContentOf(g, Seg(d, ch, 0)) == [])
    ensures k == |ch| - 1 ==> Open(g, Seg(d, ch, k))
    ensures k + 1 < |ch| ==> ch[k + 1] in d.files && Leads(g, Seg(d, ch, k), Seg(d, ch, k + 1))
    ensures k + 2 == |ch| ==> Closing(g, Seg(d, ch, k), Seg(d, ch, k + 1))
    ensures k + 2 < |ch| ==> Done(g, Seg(d, ch, k))
  {
    hide Member, Open, Leads, Closing, Done, Settled, ContentOf, Spare, Sole, Named;
    var _ := ch[k];
  }

  /** Neighbours name each other. */
  lemma Relatives(g: Geometry, d: Disk, ch: History, k: nat)
    requires g.Valid() && k + 1 < |ch| && Member(g, d, ch, k) && Member(g, d, ch, k + 1)
    ensures var s, t := Seg(d, ch, k), Seg(d, ch, k + 1);
      && k < U64_MAX && t.sequence == k + 1 && t.generation == s.generation && s.identity.instance == ch[k]
      && t.identity.instance != NONE && t.identity.predecessor == ch[k] && t.identity.predecessorSequence == k
  {
  }

  /** Every segment of the history is sound. */
  lemma AlwaysSound(g: Geometry, d: Disk, ch: History, k: nat)
    requires Inv(g, d, ch) && k < |ch|
    ensures g.Valid() && ch[k] in d.files && Sound(g, Seg(d, ch, k))
  {
    hide Inv, Members, Member, Sound, Published, Leads, Settled, Open, Closing, Done, ContentOf;
    Facts(g, d, ch, k);
  }

  // ---------- the log ----------

  /** The user records of the first `k` segments, in order. */
  ghost function LogTo(g: Geometry, d: Disk, ch: History, k: nat): seq<Record>
    requires g.Valid() && k <= |ch| && Members(g, d, ch)
  {
    if k == 0 then [] else LogTo(g, d, ch, k - 1) + ContentOf(g, Seg(d, ch, k - 1))
  }

  /** The abstract log: everything ever committed to the channel. */
  ghost function Log(g: Geometry, d: Disk, ch: History): seq<Record>
    requires g.Valid() && Members(g, d, ch)
  {
    LogTo(g, d, ch, |ch|)
  }

  /** The absolute index of the first record of all. */
  ghost function Genesis(d: Disk, ch: History): nat
    requires |ch| >= 1 && ch[0] in d.files
  {
    Seg(d, ch, 0).base
  }

  lemma LeadsOn(g: Geometry, s: Segment, t: Segment)
    requires g.Valid() && Leads(g, s, t)
    ensures t.base == s.base + |ContentOf(g, s)|
  {
    hide ContentOf, EndOf, RollBody, RollEdge.Encode;
  }

  lemma NextBase(g: Geometry, d: Disk, ch: History, k: nat)
    requires Inv(g, d, ch) && k + 1 < |ch|
    ensures ch[k] in d.files && ch[k + 1] in d.files
    ensures g.Valid() && Seg(d, ch, k + 1).base == Seg(d, ch, k).base + |ContentOf(g, Seg(d, ch, k))|
  {
    hide Inv, ContentOf, Leads, Open, Closing, Done, Settled, Member, Members;
    Facts(g, d, ch, k);
    LeadsOn(g, Seg(d, ch, k), Seg(d, ch, k + 1));
  }

  /** Each segment's base counts the records before it. */
  lemma {:induction false} BaseCounts(g: Geometry, d: Disk, ch: History, k: nat)
    requires Inv(g, d, ch) && k < |ch|
    ensures Seg(d, ch, k).base == Genesis(d, ch) + |LogTo(g, d, ch, k)|
  {
    hide Inv, Members, ContentOf;
    if k > 0 {
      BaseCounts(g, d, ch, k - 1);
      NextBase(g, d, ch, k - 1);
    }
  }

  /** A segment's records stand in the log at the place its base says. */
  lemma {:induction false} InLog(g: Geometry, d: Disk, ch: History, k: nat, n: nat)
    requires g.Valid() && Members(g, d, ch) && k < n <= |ch|
    ensures |LogTo(g, d, ch, k)| + |ContentOf(g, Seg(d, ch, k))| <= |LogTo(g, d, ch, n)|
    ensures LogTo(g, d, ch, n)[..|LogTo(g, d, ch, k)| + |ContentOf(g, Seg(d, ch, k))|]
         == LogTo(g, d, ch, k) + ContentOf(g, Seg(d, ch, k))
    decreases n
  {
    hide Member, ContentOf;
    if n - 1 > k {
      InLog(g, d, ch, k, n - 1);
    }
  }

  // ---------- how the disk may change ----------

  /** The name of a published segment, once taken away, never comes back. */
  ghost predicate GoneForGood(d: Disk, n: nat, e: Disk) {
    forall k :: k < n && k in e.names ==> k in d.names
  }

  /**
   * What every step of every writer, helper or recovery keeps: history is only extended, each segment
   * evolves, and a name once gone stays gone.
   */
  ghost predicate Advances(g: Geometry, d: Disk, ch: History, e: Disk, dh: History)
    requires g.Valid()
  {
    && |ch| <= |dh| && dh[..|ch|] == ch
    && GoneForGood(d, |ch|, e)
    && forall k {:trigger ch[k]} :: 0 <= k < |ch| ==>
      ch[k] in d.files && ch[k] in e.files && Evolves(g, d.files[ch[k]], e.files[ch[k]])
  }

  lemma AdvancesTransitive(g: Geometry, d: Disk, ch: History, e: Disk, dh: History, f: Disk, eh: History)
    requires g.Valid() && Advances(g, d, ch, e, dh) && Advances(g, e, dh, f, eh)
    ensures Advances(g, d, ch, f, eh)
  {
    hide Evolves;
    assert eh[..|ch|] == eh[..|dh|][..|ch|] == ch;
    forall k | 0 <= k < |ch|
      ensures ch[k] in d.files && ch[k] in f.files && Evolves(g, d.files[ch[k]], f.files[ch[k]])
    {
      assert dh[k] == dh[..|ch|][k] == ch[k];
      EvolvesTransitive(g, d.files[ch[k]], e.files[ch[k]], f.files[ch[k]]);
    }
  }

  lemma EvolvesReflexive(g: Geometry, s: Segment)
    requires g.Valid() && Frozen(g, s) <= |s.mem|
    ensures Evolves(g, s, s)
  {
  }

  lemma AdvancesReflexive(g: Geometry, d: Disk, ch: History)
    requires Inv(g, d, ch)
    ensures Advances(g, d, ch, d, ch)
  {
    hide Evolves, Inv;
    forall k | 0 <= k < |ch|
      ensures ch[k] in d.files && Evolves(g, d.files[ch[k]], d.files[ch[k]])
    {
      FrozenInside(g, d, ch, k);
      EvolvesReflexive(g, d.files[ch[k]]);
    }
  }

  lemma FrozenInside(g: Geometry, d: Disk, ch: History, k: nat)
    requires Inv(g, d, ch) && k < |ch|
    ensures g.Valid() && ch[k] in d.files && Frozen(g, Seg(d, ch, k)) <= |Seg(d, ch, k).mem|
  {
    hide Inv, Sound, Members, Geometry.Slot;
    AlwaysSound(g, d, ch, k);
    EndIsSlot(g, Seg(d, ch, k));
  }

  /** A disk with the same files, or with more that are not published, keeps `Sole`. */
  lemma PutSole(g: Geometry, d: Disk, ch: History, k: nat, t: Segment)
    requires Inv(g, d, ch) && k < |ch| && Evolves(g, Seg(d, ch, k), t)
    ensures Sole(Put(d, ch[k], t).files, ch)
  {
    hide Links, Open, Published, Members, Named, Traceable, Frozen, EndOf, Rolled;
    assert ch[k] in ch;
    assert Seg(d, ch, k).identity.instance == ch[k];
  }

  lemma InstallSole(g: Geometry, d: Disk, ch: History, i: InstanceId)
    requires Inv(g, d, ch) && |ch| <= U64_MAX && i !in d.files && ch[0] in d.files
    ensures Sole(Install(g, d, ch, i).files, ch)
  {
    hide Links, Open, Published, Members, Named, Traceable, Fresh;
    FreshFields(g, 0, |ch|, Seg(d, ch, 0).generation, Successor(i, ch[|ch| - 1], |ch| - 1));
  }

  lemma StampSole(d: Disk, ch: History, i: InstanceId, base: nat, wakes: bool)
    requires Sole(d.files, ch) && i in d.files
    ensures Sole(Put(d, i, d.files[i].(base := base, wakes := wakes)).files, ch)
  {
  }

  lemma PublishSole(g: Geometry, d: Disk, ch: History, i: InstanceId)
    requires Inv(g, d, ch) && i in d.files
    ensures Sole(Publish(d, i).files, ch + [i])
  {
    hide Links, Open, Published, Members, Named, Traceable;
    assert i == (ch + [i])[|ch|];
    assert forall j :: j in ch ==> j in ch + [i];
  }

  // ---------- stores into one file of the history ----------

  function Put(d: Disk, i: InstanceId, t: Segment): Disk {
    d.(files := d.files[i := t])
  }

  /** No file stands for two segments. */
  lemma OneFileEach(g: Geometry, d: Disk, ch: History, j: nat, k: nat)
    requires g.Valid() && Members(g, d, ch) && j < |ch| && k < |ch| && ch[j] == ch[k]
    ensures j == k
  {
    assert Member(g, d, ch, j) && Member(g, d, ch, k);
  }

  /** What a store into segment `k` must leave it as, given its neighbours. */
  ghost predicate Fits(g: Geometry, d: Disk, ch: History, k: nat, t: Segment)
    requires g.Valid() && Members(g, d, ch) && k < |ch|
  {
    && (k + 1 == |ch| ==> Open(g, t))
    && (k + 1 == |ch| && k > 0 && !Rolled(g, Seg(d, ch, k - 1)) ==> Settled(g, t) && ContentOf(g, t) == [])
    && (k + 1 < |ch| ==> Leads(g, t, Seg(d, ch, k + 1)))
    && (k + 2 == |ch| ==> Closing(g, t, Seg(d, ch, k + 1)))
    && (k + 2 < |ch| ==> Done(g, t))
    && (t.published || (|ch| == 1 && Settled(g, t) && ContentOf(g, t) == []))
  }

  lemma PutMember(g: Geometry, d: Disk, ch: History, k: nat, t: Segment, j: nat)
    requires g.Valid() && Members(g, d, ch) && k < |ch| && Evolves(g, Seg(d, ch, k), t) && j < |ch|
    ensures var e := Put(d, ch[k], t); Member(g, e, ch, j) && Seg(e, ch, j) == if j == k then t else Seg(d, ch, j)
  {
    hide Frozen, EndOf, Rolled, Identity.Valid, IdentityOf;
    assert Member(g, d, ch, j) && Member(g, d, ch, 0);
    if ch[j] == ch[k] { OneFileEach(g, d, ch, j, k); }
    if ch[0] == ch[k] { OneFileEach(g, d, ch, 0, k); }
  }

  lemma PutMembers(g: Geometry, d: Disk, ch: History, k: nat, t: Segment)
    requires g.Valid() && Members(g, d, ch) && k < |ch| && Evolves(g, Seg(d, ch, k), t)
    ensures Members(g, Put(d, ch[k], t), ch)
    ensures forall j {:trigger ch[j]} ::
      0 <= j < |ch| ==> Seg(Put(d, ch[k], t), ch, j) == if j == k then t else Seg(d, ch, j)
  {
    hide Evolves, Member;
    forall j | 0 <= j < |ch|
      ensures Member(g, Put(d, ch[k], t), ch, j) && Seg(Put(d, ch[k], t), ch, j) == if j == k then t else Seg(d, ch, j)
    {
      PutMember(g, d, ch, k, t, j);
    }
  }

  lemma LeadsToSame(g: Geometry, s: Segment, t: Segment, u: Segment)
    requires g.Valid() && Leads(g, s, t) && Evolves(g, t, u)
    ensures Leads(g, s, u)
  {
    hide ContentOf, EndOf, Frozen, Rolled, RollBody, RollEdge.Encode;
  }

  lemma PutLink(g: Geometry, d: Disk, ch: History, k: nat, t: Segment, j: nat)
    requires Inv(g, d, ch) && k < |ch| && Evolves(g, Seg(d, ch, k), t) && Fits(g, d, ch, k, t)
    requires j + 1 < |ch| && Members(g, Put(d, ch[k], t), ch)
    ensures Link(g, Put(d, ch[k], t), ch, j)
  {
    hide Inv, Members, Member, Evolves, Leads, Settled, Open, Rolled, Staged, Done, ContentOf;
    PutMembers(g, d, ch, k, t);
    Facts(g, d, ch, j);
    Facts(g, d, ch, j + 1);
    if j + 1 == k { LeadsToSame(g, Seg(d, ch, j), Seg(d, ch, k), t); }
  }

  lemma PutLinks(g: Geometry, d: Disk, ch: History, k: nat, t: Segment)
    requires Inv(g, d, ch) && k < |ch| && Evolves(g, Seg(d, ch, k), t) && Fits(g, d, ch, k, t)
    requires Members(g, Put(d, ch[k], t), ch)
    ensures Links(g, Put(d, ch[k], t), ch)
  {
    hide Inv, Members, Member, Evolves, Settled, Done, ContentOf, Leads, Closing, Fits, Open, Link;
    var e := Put(d, ch[k], t);
    forall j | 0 <= j < |ch| - 1
      ensures Link(g, e, ch, j)
    {
      PutLink(g, d, ch, k, t, j);
    }
  }

  lemma PutOpen(g: Geometry, d: Disk, ch: History, k: nat, t: Segment)
    requires Inv(g, d, ch) && k < |ch| && Evolves(g, Seg(d, ch, k), t) && Fits(g, d, ch, k, t)
    requires Members(g, Put(d, ch[k], t), ch)
    ensures Open(g, Seg(Put(d, ch[k], t), ch, |ch| - 1))
    ensures Published(g, Put(d, ch[k], t), ch)
  {
    hide Inv, Members, Member, Evolves, Settled, Open, Rolled, Done, ContentOf, Leads, Closing;
    var e := Put(d, ch[k], t);
    PutMembers(g, d, ch, k, t);
    Facts(g, d, ch, |ch| - 1);
    forall j | 0 <= j < |ch|
      ensures Seg(e, ch, j).published || (|ch| == 1 && Settled(g, Seg(e, ch, 0)) && ContentOf(g, Seg(e, ch, 0)) == [])
    {
      Facts(g, d, ch, j);
    }
  }

  lemma PutNamed(g: Geometry, d: Disk, ch: History, k: nat, t: Segment)
    requires Inv(g, d, ch) && k < |ch| && Evolves(g, Seg(d, ch, k), t)
    ensures Named(g, Put(d, ch[k], t), ch)
  {
    hide Fresh, Links, Published, Open, Sound, Frozen, EndOf, Rolled, Sole;
    var e := Put(d, ch[k], t);
    PutMembers(g, d, ch, k, t);
    forall n | n in d.names
      ensures if n < |ch| then d.names[n] == ch[n] else n == |ch| && Spare(g, e, ch, d.names[n])
    {
      if n >= |ch| {
        assert ch[k] in ch;
        var _ := ch[0];
      }
    }
  }

  /** A complete roll stays complete. */
  lemma DoneStays(g: Geometry, s: Segment, t: Segment)
    requires g.Valid() && Evolves(g, s, t) && Done(g, s)
    ensures Done(g, t)
  {
    hide EndOf, Sound, Frozen, RollAt, ContentOf;
  }

  lemma PutTraceable(g: Geometry, d: Disk, ch: History, k: nat, t: Segment)
    requires Inv(g, d, ch) && k < |ch| && Evolves(g, Seg(d, ch, k), t)
    ensures Members(g, Put(d, ch[k], t), ch) && Traceable(g, Put(d, ch[k], t), ch)
  {
    hide Links, Published, Open, Members, Evolves, Named, Done, Sole;
    PutMembers(g, d, ch, k, t);
    if |ch| >= 2 {
      var _ := ch[|ch| - 2];
      if k == |ch| - 2 && Done(g, Seg(d, ch, k)) { DoneStays(g, Seg(d, ch, k), t); }
    }
  }

  /** The last roll stays traceable while its segments and its name, if it needs one, stay. */
  lemma SameTraceable(g: Geometry, d: Disk, ch: History, e: Disk)
    requires Inv(g, d, ch) && Members(g, e, ch)
    requires forall k {:trigger ch[k]} :: 0 <= k < |ch| ==> ch[k] in e.files && e.files[ch[k]] == d.files[ch[k]]
    requires |ch| >= 2 && |ch| - 2 in d.names ==> |ch| - 2 in e.names || Done(g, Seg(d, ch, |ch| - 2))
    ensures Traceable(g, e, ch)
  {
    hide Links, Published, Open, Members, Named, Done, Sole;
    if |ch| >= 2 { var _ := ch[|ch| - 2]; }
  }

  lemma StoreAdvances(g: Geometry, d: Disk, ch: History, k: nat, t: Segment)
    requires Inv(g, d, ch) && k < |ch| && Evolves(g, Seg(d, ch, k), t)
    ensures Advances(g, d, ch, Put(d, ch[k], t), ch)
  {
    hide Inv, Members, Member, Evolves;
    forall j | 0 <= j < |ch|
      ensures ch[j] in d.files && Evolves(g, d.files[ch[j]], Put(d, ch[k], t).files[ch[j]])
    {
      if ch[j] != ch[k] {
        FrozenInside(g, d, ch, j);
        EvolvesReflexive(g, d.files[ch[j]]);
      }
    }
  }

  /** A store that evolves one segment into what its place allows keeps the invariant. */
  lemma StoreKeeps(g: Geometry, d: Disk, ch: History, k: nat, t: Segment)
    requires Inv(g, d, ch) && k < |ch| && Evolves(g, Seg(d, ch, k), t) && Fits(g, d, ch, k, t)
    ensures Inv(g, Put(d, ch[k], t), ch) && Advances(g, d, ch, Put(d, ch[k], t), ch)
  {
    hide Fits, Open, Named, Links, Published, Members, Evolves, Advances, Traceable, Sole;
    PutSole(g, d, ch, k, t);
    PutTraceable(g, d, ch, k, t);
    PutMembers(g, d, ch, k, t);
    PutLinks(g, d, ch, k, t);
    PutOpen(g, d, ch, k, t);
    PutNamed(g, d, ch, k, t);
    StoreAdvances(g, d, ch, k, t);
  }

  // ---------- stores that leave the history's files alone ----------

  lemma SameMembers(g: Geometry, d: Disk, e: Disk, ch: History)
    requires g.Valid() && Members(g, d, ch)
    requires forall k {:trigger ch[k]} :: 0 <= k < |ch| ==> ch[k] in e.files && e.files[ch[k]] == d.files[ch[k]]
    ensures Members(g, e, ch)
  {
    forall k | 0 <= k < |ch|
      ensures Member(g, e, ch, k)
    {
      var _ := ch[k];
      var _ := ch[0];
      assert Member(g, d, ch, k);
    }
  }

  lemma SameLink(g: Geometry, d: Disk, e: Disk, ch: History, k: nat)
    requires Inv(g, d, ch) && k + 1 < |ch| && ch[k] in e.files && ch[k + 1] in e.files && ch[k] in d.files
    requires ch[k + 1] in d.files
    requires e.files[ch[k]] == d.files[ch[k]] && e.files[ch[k + 1]] == d.files[ch[k + 1]]
    ensures Link(g, e, ch, k)
  {
    hide Inv, Members, Settled, Done, ContentOf, Leads, Closing, Member, Open;
    Facts(g, d, ch, k);
  }

  lemma SameSegments(g: Geometry, d: Disk, e: Disk, ch: History)
    requires Inv(g, d, ch)
    requires forall k {:trigger ch[k]} :: 0 <= k < |ch| ==> ch[k] in e.files && e.files[ch[k]] == d.files[ch[k]]
    requires GoneForGood(d, |ch|, e)
    ensures Members(g, e, ch) && Links(g, e, ch) && Published(g, e, ch) && Open(g, Seg(e, ch, |ch| - 1))
    ensures Advances(g, d, ch, e, ch)
  {
    hide Inv, Members, Evolves, Settled, Done, ContentOf, Leads, Closing, Open, Link;
    SameMembers(g, d, e, ch);
    Facts(g, d, ch, |ch| - 1);
    forall k | 0 <= k < |ch| - 1
      ensures Link(g, e, ch, k)
    {
      var _ := ch[k];
      var _ := ch[k + 1];
      SameLink(g, d, e, ch, k);
    }
    forall k | 0 <= k < |ch|
      ensures Seg(e, ch, k).published || (|ch| == 1 && Settled(g, Seg(e, ch, 0)) && ContentOf(g, Seg(e, ch, 0)) == [])
    {
      Facts(g, d, ch, k);
    }
    forall k | 0 <= k < |ch|
      ensures ch[k] in d.files && Evolves(g, d.files[ch[k]], e.files[ch[k]])
    {
      FrozenInside(g, d, ch, k);
      EvolvesReflexive(g, d.files[ch[k]]);
    }
  }

  /** A complete file appears under the next name, not part of the history. */
  function Install(g: Geometry, d: Disk, ch: History, i: InstanceId): Disk
    requires g.Valid() && |ch| >= 1 && ch[0] in d.files && |ch| <= U64_MAX
  {
    var s := Fresh(g, 0, |ch|, Seg(d, ch, 0).generation, Successor(i, ch[|ch| - 1], |ch| - 1));
    Disk(d.files[i := s], d.names[|ch| := i])
  }

  lemma InstallNamed(g: Geometry, d: Disk, ch: History, i: InstanceId)
    requires Inv(g, d, ch) && |ch| <= U64_MAX && i !in d.files && i != NONE && |ch| !in d.names
    ensures Named(g, Install(g, d, ch, i), ch) && Spare(g, Install(g, d, ch, i), ch, i)
  {
    hide Open, Links, Published, Members, Fresh, Sole;
    var e := Install(g, d, ch, i);
    assert ch[0] in d.files by { var _ := ch[0]; }
    forall k | 0 <= k < |ch|
      ensures ch[k] != i
    {
    }
    FreshFields(g, 0, |ch|, Seg(d, ch, 0).generation, Successor(i, ch[|ch| - 1], |ch| - 1));
    FreshWakes(g, 0, |ch|, Seg(d, ch, 0).generation, Successor(i, ch[|ch| - 1], |ch| - 1));
    assert Spare(g, e, ch, i);
    forall n | n in e.names
      ensures if n < |ch| then e.names[n] == ch[n] else n == |ch| && Spare(g, e, ch, e.names[n])
    {
      if n != |ch| { assert n in d.names; }
    }
  }

  lemma FreshWakes(g: Geometry, base: nat, sequence: nat, generation: nat, identity: Identity)
    requires g.Valid()
    ensures var s := Fresh(g, base, sequence, generation, identity);
      !s.wakes && s == s.(wakes := false)
  {
  }

  lemma InstallKeeps(g: Geometry, d: Disk, ch: History, i: InstanceId)
    requires Inv(g, d, ch) && |ch| <= U64_MAX && i !in d.files && i != NONE && |ch| !in d.names
    ensures var e := Install(g, d, ch, i);
      Inv(g, e, ch) && Advances(g, d, ch, e, ch) && Spare(g, e, ch, i)
  {
    hide Open, Links, Published, Advances, Fresh, Member, Members, Named, Spare, Traceable, Sole;
    InstallSole(g, d, ch, i);
    InstallNamed(g, d, ch, i);
    SameSegments(g, d, Install(g, d, ch, i), ch);
    SameTraceable(g, d, ch, Install(g, d, ch, i));
  }

  /** Stamping a file that is not yet published: its base and wake flag. */
  lemma StampKeeps(g: Geometry, d: Disk, ch: History, base: nat, wakes: bool)
    requires Inv(g, d, ch) && |ch| in d.names
    ensures var i := d.names[|ch|];
      && i in d.files
      && var e := Put(d, i, d.files[i].(base := base, wakes := wakes));
      && Inv(g, e, ch) && Advances(g, d, ch, e, ch) && Spare(g, e, ch, i)
  {
    hide Open, Links, Published, Advances, Members, Traceable, Sole;
    StampSole(d, ch, d.names[|ch|], base, wakes);
    var i := d.names[|ch|];
    assert Spare(g, d, ch, i);
    var e := Put(d, i, d.files[i].(base := base, wakes := wakes));
    SameSegments(g, d, e, ch);
    SameTraceable(g, d, ch, e);
  }

  /** Taking away a name the history does not need: an unpublished file, or an old segment. */
  lemma UnlinkKeeps(g: Geometry, d: Disk, ch: History, n: nat)
    requires Inv(g, d, ch) && n != |ch| - 1
    requires n + 2 == |ch| ==> Done(g, Seg(d, ch, n))
    ensures var e := d.(names := d.names - {n}); Inv(g, e, ch) && Advances(g, d, ch, e, ch)
  {
    hide Open, Links, Published, Advances, Members, Fresh, Traceable, Done, Sole;
    var e := d.(names := d.names - {n});
    SameSegments(g, d, e, ch);
    SameTraceable(g, d, ch, e);
    forall k | k in e.names
      ensures if k < |ch| then e.names[k] == ch[k] else k == |ch| && Spare(g, e, ch, e.names[k])
    {
      assert k in d.names;
    }
  }

  // ---------- publishing a successor ----------

  /** The newest segment's Roll is staged and the file installed after it is stamped to follow on. */
  ghost predicate ReadyToPublish(g: Geometry, d: Disk, ch: History)
    requires g.Valid() && |ch| >= 1 && Members(g, d, ch)
    ensures ReadyToPublish(g, d, ch) ==> |ch| in d.names && d.names[|ch|] in d.files && |ch| <= U64_MAX
  {
    && |ch| in d.names && d.names[|ch|] in d.files && |ch| <= U64_MAX
    && Staged(g, Seg(d, ch, |ch| - 1)) && Seg(d, ch, |ch| - 1).published
    && Leads(g, Seg(d, ch, |ch| - 1), d.files[d.names[|ch|]])
    && (|ch| >= 2 ==> Done(g, Seg(d, ch, |ch| - 2)))
  }

  function Publish(d: Disk, i: InstanceId): Disk
    requires i in d.files
  {
    Put(d, i, d.files[i].(published := true))
  }

  lemma SpareSettled(g: Geometry, d: Disk, ch: History, i: InstanceId)
    requires g.Valid() && |ch| >= 1 && Spare(g, d, ch, i)
    ensures var t := d.files[i].(published := true);
      && Settled(g, t) && ContentOf(g, t) == [] && Settled(g, d.files[i]) && !d.files[i].published
      && t.sequence == |ch| && t.identity == Successor(i, ch[|ch| - 1], |ch| - 1)
      && t.generation == Seg(d, ch, 0).generation
      && EndOf(g, t) == FIRST_RECORD && Preinstalled(t.mem, FIRST_RECORD)
  {
    hide Settled, Fresh;
    var s := d.files[i];
    FreshIsSettled(g, s.base, s.sequence, s.generation, s.identity);
    FreshFields(g, s.base, |ch|, Seg(d, ch, 0).generation, Successor(i, ch[|ch| - 1], |ch| - 1));
    SettledFields(g, Fresh(g, s.base, s.sequence, s.generation, s.identity), s);
    SettledFields(g, Fresh(g, s.base, s.sequence, s.generation, s.identity), s.(published := true));
  }

  lemma FreshFields(g: Geometry, base: nat, sequence: nat, generation: nat, identity: Identity)
    requires g.Valid()
    ensures var s := Fresh(g, base, sequence, generation, identity);
      s.base == base && s.sequence == sequence && s.generation == generation && s.identity == identity && !s.published
  {
  }

  /** Being settled says nothing of identity, flags or publication. */
  lemma SettledFields(g: Geometry, s: Segment, t: Segment)
    requires g.Valid() && t.mem == s.mem && t.writePosition == s.writePosition && t.messageCount == s.messageCount
    ensures Settled(g, t) == Settled(g, s) && EndOf(g, t) == EndOf(g, s) && ContentOf(g, t) == ContentOf(g, s)
  {
    hide End, Linked, Geometry.Prealloc;
  }

  lemma PublishOldMember(g: Geometry, d: Disk, ch: History, k: nat)
    requires Inv(g, d, ch) && ReadyToPublish(g, d, ch) && k < |ch|
    ensures var i := d.names[|ch|]; Member(g, Publish(d, i), ch + [i], k)
  {
    hide Inv, Leads, Staged, Done, ContentOf, Settled, EndOf, Identity.Valid, Spare, Fresh, ReadyToPublish;
    SpareNamed(g, d, ch);
    var i := d.names[|ch|];
    SpareNew(g, d, ch, i);
    var dh := ch + [i];
    Facts(g, d, ch, 0);
    Facts(g, d, ch, k);
    assert ch[0] in ch && ch[k] in ch && dh[k] == ch[k] && dh[0] == ch[0];
    assert k > 0 ==> dh[k - 1] == ch[k - 1];
  }

  lemma SpareNew(g: Geometry, d: Disk, ch: History, i: InstanceId)
    requires g.Valid() && |ch| >= 1 && Spare(g, d, ch, i)
    ensures i !in ch && i != NONE
  {
    hide Fresh;
  }

  lemma NewMember(g: Geometry, d: Disk, ch: History)
    requires g.Valid() && |ch| >= 2 && |ch| - 1 <= U64_MAX && ch[|ch| - 1] in d.files && ch[0] in d.files
    requires ch[|ch| - 1] != NONE && ch[|ch| - 2] != NONE
    requires var s := Seg(d, ch, |ch| - 1);
      && s.sequence == |ch| - 1 && s.identity == Successor(ch[|ch| - 1], ch[|ch| - 2], |ch| - 2)
      && s.generation == Seg(d, ch, 0).generation && s.base <= U64_MAX
    ensures Member(g, d, ch, |ch| - 1)
  {
  }

  lemma PublishNewMember(g: Geometry, d: Disk, ch: History)
    requires Inv(g, d, ch) && ReadyToPublish(g, d, ch)
    ensures var i := d.names[|ch|]; Member(g, Publish(d, i), ch + [i], |ch|)
  {
    hide Inv, Staged, Done, ContentOf, Settled, EndOf, Spare, Fresh, Leads, ReadyToPublish, Member, Members, Open,
      Closing;
    SpareNamed(g, d, ch);
    var i := d.names[|ch|];
    SpareNew(g, d, ch, i);
    SpareSettled(g, d, ch, i);
    ReadyBase(g, d, ch);
    var dh := ch + [i];
    MemberFiles(g, d, ch, 0);
    MemberFiles(g, d, ch, |ch| - 1);
    assert ch[0] in ch && dh[|ch| - 1] == ch[|ch| - 1] && dh[0] == ch[0];
    NewMember(g, Publish(d, i), dh);
  }

  lemma MemberFiles(g: Geometry, d: Disk, ch: History, k: nat)
    requires Inv(g, d, ch) && k < |ch|
    ensures ch[k] in d.files && ch[k] != NONE && k <= U64_MAX
  {
    hide Inv, ContentOf, Open, Leads, Closing, Done, Settled;
    Facts(g, d, ch, k);
  }

  lemma BaseInRange(g: Geometry, d: Disk, ch: History, k: nat)
    requires Inv(g, d, ch) && k < |ch|
    ensures ch[k] in d.files && Seg(d, ch, k).base <= U64_MAX
  {
    hide Inv, ContentOf, Open, Leads, Closing, Done, Settled, IdentityOf;
    Facts(g, d, ch, k);
  }

  lemma ReadyBase(g: Geometry, d: Disk, ch: History)
    requires Inv(g, d, ch) && ReadyToPublish(g, d, ch)
    ensures d.files[d.names[|ch|]].base <= U64_MAX
  {
    hide Inv, Staged, Done, ContentOf, EndOf, RollBody, RollEdge.Encode;
  }

  lemma PublishMembers(g: Geometry, d: Disk, ch: History)
    requires Inv(g, d, ch) && ReadyToPublish(g, d, ch)
    ensures var i := d.names[|ch|]; Members(g, Publish(d, i), ch + [i])
  {
    hide Inv, Member, ReadyToPublish;
    forall k | 0 <= k < |ch| + 1
      ensures Member(g, Publish(d, d.names[|ch|]), ch + [d.names[|ch|]], k)
    {
      if k < |ch| { PublishOldMember(g, d, ch, k); } else { PublishNewMember(g, d, ch); }
    }
  }

  lemma PublishSegments(g: Geometry, d: Disk, ch: History)
    requires Inv(g, d, ch) && ReadyToPublish(g, d, ch)
    ensures var i := d.names[|ch|];
      var e, dh := Publish(d, i), ch + [i];
      && Members(g, e, dh)
      && (forall k {:trigger ch[k]} :: 0 <= k < |ch| ==> Seg(e, dh, k) == Seg(d, ch, k))
      && Seg(e, dh, |ch|) == d.files[i].(published := true)
  {
    hide Links, Published, Leads, Open, Staged, Done, Fresh, Member, Sole;
    PublishMembers(g, d, ch);
    var i := d.names[|ch|];
    assert Spare(g, d, ch, i);
    forall k | 0 <= k < |ch|
      ensures Seg(Publish(d, i), ch + [i], k) == Seg(d, ch, k)
    {
      assert (ch + [i])[k] == ch[k];
    }
  }

  lemma SpareNamed(g: Geometry, d: Disk, ch: History)
    requires Inv(g, d, ch) && |ch| in d.names
    ensures Spare(g, d, ch, d.names[|ch|])
  {
    hide Links, Published, Open, Members, Spare, Sole;
  }

  lemma SameStart(g: Geometry, s: Segment, t: Segment, u: Segment)
    requires g.Valid() && Leads(g, s, t) && u.base == t.base && u.sequence == t.sequence && u.identity == t.identity
    ensures Leads(g, s, u)
  {
    hide ContentOf, EndOf, RollBody, RollEdge.Encode;
  }

  lemma PublishNamed(g: Geometry, d: Disk, ch: History)
    requires Inv(g, d, ch) && |ch| in d.names
    ensures var i := d.names[|ch|]; i in d.files && Named(g, Publish(d, i), ch + [i])
  {
    hide Links, Published, Open, Members, Fresh, Sole;
    var i := d.names[|ch|];
    assert Spare(g, d, ch, i);
    var e, dh := Publish(d, i), ch + [i];
    forall n | n in e.names
      ensures n < |dh| && e.names[n] == dh[n]
    {
      assert n in d.names;
    }
  }

  lemma NewestNamed(g: Geometry, d: Disk, ch: History)
    requires Inv(g, d, ch)
    ensures |ch| - 1 in d.names
  {
    hide Links, Published, Open, Members, Traceable, Spare, Sole;
  }

  lemma InvOf(g: Geometry, d: Disk, ch: History)
    requires g.Valid() && |ch| >= 1 && Members(g, d, ch) && Links(g, d, ch) && Published(g, d, ch) && Named(g, d, ch)
    requires Traceable(g, d, ch) && Settled(g, Seg(d, ch, |ch| - 1)) && Sole(d.files, ch)
    ensures Inv(g, d, ch)
  {
    hide Links, Published, Members, Named, Settled, Traceable, Sole;
  }

  /** What being ready to publish says of the two newest segments. */
  lemma ReadyParts(g: Geometry, d: Disk, ch: History)
    requires Inv(g, d, ch) && ReadyToPublish(g, d, ch)
    ensures Staged(g, Seg(d, ch, |ch| - 1)) && Seg(d, ch, |ch| - 1).published
    ensures Leads(g, Seg(d, ch, |ch| - 1), d.files[d.names[|ch|]])
    ensures |ch| >= 2 ==> Done(g, Seg(d, ch, |ch| - 2))
  {
    hide Inv, Members, Staged, Leads, Done;
  }

  /** An older segment is what it was. */
  lemma PublishSeg(g: Geometry, d: Disk, ch: History, k: nat)
    requires Inv(g, d, ch) && |ch| in d.names && k < |ch|
    ensures var i := d.names[|ch|];
      && i in d.files && ch[k] in d.files && (ch + [i])[k] == ch[k] && ch[k] in Publish(d, i).files
      && Seg(Publish(d, i), ch + [i], k) == Seg(d, ch, k)
  {
    hide Inv, Members, Spare, Fresh;
    SpareNamed(g, d, ch);
    SpareNew(g, d, ch, d.names[|ch|]);
    MemberFiles(g, d, ch, k);
    assert ch[k] in ch;
  }

  lemma PublishOldLink(g: Geometry, d: Disk, ch: History, k: nat)
    requires Inv(g, d, ch) && ReadyToPublish(g, d, ch) && k + 1 < |ch|
    ensures var i := d.names[|ch|]; Joined(g, Publish(d, i), ch + [i], k)
  {
    hide Inv, Members, Done, ContentOf, Leads, Staged, Member, Rolled, Open, ReadyToPublish, Publish, Settled, Seg;
    ReadyParts(g, d, ch);
    PublishSeg(g, d, ch, k);
    PublishSeg(g, d, ch, k + 1);
    Facts(g, d, ch, k);
  }

  lemma PublishNewLink(g: Geometry, d: Disk, ch: History)
    requires Inv(g, d, ch) && ReadyToPublish(g, d, ch)
    ensures var i := d.names[|ch|]; Joined(g, Publish(d, i), ch + [i], |ch| - 1)
  {
    hide Inv, Members, Done, ContentOf, Leads, Staged, Member, Rolled, Open, ReadyToPublish, Settled, Spare, EndOf;
    var i := d.names[|ch|];
    ReadyParts(g, d, ch);
    PublishSeg(g, d, ch, |ch| - 1);
    SpareNamed(g, d, ch);
    SpareSettled(g, d, ch, i);
    SameStart(g, Seg(d, ch, |ch| - 1), d.files[i], d.files[i].(published := true));
    assert (ch + [i])[|ch|] == i;
  }

  lemma PublishLink(g: Geometry, d: Disk, ch: History, k: nat)
    requires Inv(g, d, ch) && ReadyToPublish(g, d, ch) && k < |ch|
    ensures var i := d.names[|ch|]; Joined(g, Publish(d, i), ch + [i], k)
  {
    hide Inv, Members, Joined, ReadyToPublish, Publish;
    if k + 1 < |ch| { PublishOldLink(g, d, ch, k); } else { PublishNewLink(g, d, ch); }
  }

  lemma PublishLinks(g: Geometry, d: Disk, ch: History)
    requires Inv(g, d, ch) && ReadyToPublish(g, d, ch)
    ensures var i := d.names[|ch|];
      Members(g, Publish(d, i), ch + [i]) && Links(g, Publish(d, i), ch + [i])
  {
    hide Inv, Members, Member, ReadyToPublish, Link, Publish;
    PublishMembers(g, d, ch);
    forall k | 0 <= k < |ch|
      ensures Link(g, Publish(d, d.names[|ch|]), ch + [d.names[|ch|]], k)
    {
      PublishLink(g, d, ch, k);
    }
  }

  lemma PublishedNew(g: Geometry, d: Disk, ch: History)
    requires Inv(g, d, ch) && ReadyToPublish(g, d, ch)
    ensures var i := d.names[|ch|];
      var t := Publish(d, i).files[(ch + [i])[|ch|]];
      t.published && Settled(g, t)
  {
    hide Inv, Members, Settled, Spare, Member, ReadyToPublish;
    SpareNamed(g, d, ch);
    SpareSettled(g, d, ch, d.names[|ch|]);
  }

  lemma PublishedAll(g: Geometry, d: Disk, ch: History)
    requires Inv(g, d, ch) && ReadyToPublish(g, d, ch)
    ensures var i := d.names[|ch|];
      var e, dh := Publish(d, i), ch + [i];
      && Members(g, e, dh) && Published(g, e, dh) && Settled(g, Seg(e, dh, |dh| - 1))
  {
    hide Inv, Members, Settled, ContentOf, Member, ReadyToPublish, Link, Publish;
    PublishMembers(g, d, ch);
    PublishedNew(g, d, ch);
    var e, dh := Publish(d, d.names[|ch|]), ch + [d.names[|ch|]];
    forall k | 0 <= k < |dh|
      ensures Seg(e, dh, k).published
    {
      if k < |ch| { PublishLink(g, d, ch, k); }
    }
  }

  lemma PublishTraceable(g: Geometry, d: Disk, ch: History)
    requires Inv(g, d, ch) && ReadyToPublish(g, d, ch)
    ensures var i := d.names[|ch|]; Members(g, Publish(d, i), ch + [i]) && Traceable(g, Publish(d, i), ch + [i])
  {
    hide Inv, Members, Member, ReadyToPublish, Done;
    PublishMembers(g, d, ch);
    NewestNamed(g, d, ch);
  }

  /** The store that makes a successor history. Nothing else of the history changes. */
  lemma PublishKeeps(g: Geometry, d: Disk, ch: History)
    requires Inv(g, d, ch) && ReadyToPublish(g, d, ch)
    ensures var i := d.names[|ch|];
      var e, dh := Publish(d, i), ch + [i];
      && Inv(g, e, dh) && Advances(g, d, ch, e, dh)
      && Seg(e, dh, |dh| - 2) == Seg(d, ch, |ch| - 1)
      && Seg(e, dh, |dh| - 1) == d.files[i].(published := true)
  {
    hide Inv, Members, Member, Links, Published, Evolves, Settled, ReadyToPublish, Named, Done, Traceable, Link, Sole;
    PublishSole(g, d, ch, d.names[|ch|]);
    PublishTraceable(g, d, ch);
    PublishSegments(g, d, ch);
    PublishLinks(g, d, ch);
    PublishedAll(g, d, ch);
    PublishNamed(g, d, ch);
    var i := d.names[|ch|];
    var e, dh := Publish(d, i), ch + [i];
    InvOf(g, e, dh);
    forall k | 0 <= k < |ch|
      ensures ch[k] in d.files && ch[k] in e.files && Evolves(g, d.files[ch[k]], e.files[ch[k]])
    {
      FrozenInside(g, d, ch, k);
      EvolvesReflexive(g, d.files[ch[k]]);
      assert Seg(e, dh, k) == Seg(d, ch, k) && dh[k] == ch[k];
    }
  }
}
