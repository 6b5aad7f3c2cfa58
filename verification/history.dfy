/** The abstract log behind a channel's disk, and how it fares as the disk advances. */
module Histories {
  import opened Layout
  import opened Chain
  import opened Linking
  import opened Segments
  import opened Channel

  /** A segment that leads to one with a fixed base keeps its content for good. */
  lemma SameContent(g: Geometry, s: Segment, n: Segment, t: Segment, m: Segment)
    requires g.Valid() && Evolves(g, s, t) && Leads(g, s, n) && Leads(g, t, m) && m.base == n.base
    ensures t.base == s.base && ContentOf(g, t) == ContentOf(g, s)
  {
    hide ContentOf, Rolled, EndOf, Frozen, RollBody, RollEdge.Encode;
    ContentGrows(g, s, t);
    var c, c' := ContentOf(g, s), ContentOf(g, t);
    assert |c| == |c'| && c == c'[..|c|];
  }

  /** What both disks say of a segment of the earlier history that is not its newest. */
  lemma BothLead(g: Geometry, d: Disk, ch: History, k: nat)
    requires Inv(g, d, ch) && k + 1 < |ch|
    ensures g.Valid() && ch[k] in d.files && ch[k + 1] in d.files && Leads(g, Seg(d, ch, k), Seg(d, ch, k + 1))
  {
    hide Inv, Members, Member, Leads, Closing, Done, Open, Settled, ContentOf;
    Facts(g, d, ch, k);
  }

  lemma BaseStands(g: Geometry, d: Disk, ch: History, e: Disk, dh: History, k: nat)
    requires g.Valid() && Advances(g, d, ch, e, dh) && k < |ch|
    ensures |ch| <= |dh| && dh[k] == ch[k] && ch[k] in d.files && ch[k] in e.files
    ensures Evolves(g, d.files[ch[k]], e.files[ch[k]]) && e.files[ch[k]].base == d.files[ch[k]].base
  {
    hide EndOf, Frozen, Rolled;
    assert dh[k] == dh[..|ch|][k] == ch[k];
  }

  /** The past is fixed: what stood before a published segment stands before it ever after. */
  lemma {:induction false} SamePast(g: Geometry, d: Disk, ch: History, e: Disk, dh: History, k: nat)
    requires Inv(g, d, ch) && Inv(g, e, dh) && Advances(g, d, ch, e, dh) && k < |ch|
    ensures LogTo(g, e, dh, k) == LogTo(g, d, ch, k)
  {
    hide Inv, Members, ContentOf, Evolves, Advances, Leads;
    if k > 0 {
      SamePast(g, d, ch, e, dh, k - 1);
      BaseStands(g, d, ch, e, dh, k - 1);
      BaseStands(g, d, ch, e, dh, k);
      BothLead(g, d, ch, k - 1);
      BothLead(g, e, dh, k - 1);
      SameContent(g, Seg(d, ch, k - 1), Seg(d, ch, k), Seg(e, dh, k - 1), Seg(e, dh, k));
    }
  }

  /** The log is append-only: whatever steps lie between two disks, the earlier log is a prefix of the later. */
  lemma LogGrows(g: Geometry, d: Disk, ch: History, e: Disk, dh: History)
    requires Inv(g, d, ch) && Inv(g, e, dh) && Advances(g, d, ch, e, dh)
    ensures Log(g, d, ch) <= Log(g, e, dh) && Genesis(e, dh) == Genesis(d, ch)
  {
    hide Inv, Members, ContentOf, Frozen, EndOf, Rolled;
    var k := |ch| - 1;
    SamePast(g, d, ch, e, dh, k);
    assert dh[k] == dh[..|ch|][k] == ch[k] && dh[0] == dh[..|ch|][0] == ch[0];
    ContentGrows(g, Seg(d, ch, k), Seg(e, dh, k));
    InLog(g, e, dh, k, |dh|);
    var past := LogTo(g, d, ch, k);
    var c, c' := ContentOf(g, Seg(d, ch, k)), ContentOf(g, Seg(e, dh, k));
    assert Log(g, e, dh)[..|past| + |c'|] == past + c';
    assert Log(g, d, ch) == past + c == (past + c')[..|past| + |c|] == Log(g, e, dh)[..|past| + |c|];
  }

  /** With no segment published, the log changes only by what the newest one holds. */
  lemma LogOfLast(g: Geometry, d: Disk, ch: History, e: Disk)
    requires Inv(g, d, ch) && Inv(g, e, ch) && Advances(g, d, ch, e, ch)
    ensures Log(g, d, ch) == LogTo(g, d, ch, |ch| - 1) + ContentOf(g, Seg(d, ch, |ch| - 1))
    ensures Log(g, e, ch) == LogTo(g, d, ch, |ch| - 1) + ContentOf(g, Seg(e, ch, |ch| - 1))
  {
    hide Inv, Members, ContentOf, Evolves;
    SamePast(g, d, ch, e, ch, |ch| - 1);
  }

  /** A segment published empty adds nothing. */
  lemma LogOfPublish(g: Geometry, d: Disk, ch: History, e: Disk, dh: History)
    requires Inv(g, d, ch) && Inv(g, e, dh) && Advances(g, d, ch, e, dh)
    requires |dh| == |ch| + 1 && ContentOf(g, Seg(e, dh, |ch|)) == []
    requires Seg(e, dh, |ch| - 1) == Seg(d, ch, |ch| - 1)
    ensures Log(g, e, dh) == Log(g, d, ch)
  {
    hide Inv, Members, ContentOf, Evolves;
    SamePast(g, d, ch, e, dh, |ch| - 1);
    assert LogTo(g, e, dh, |ch|) == LogTo(g, e, dh, |ch| - 1) + ContentOf(g, Seg(e, dh, |ch| - 1));
  }

  /** The record the log holds at absolute index `i`. */
  ghost function LogAt(g: Geometry, d: Disk, ch: History, i: nat): Record
    requires Inv(g, d, ch) && Genesis(d, ch) <= i < Genesis(d, ch) + |Log(g, d, ch)|
  {
    Log(g, d, ch)[i - Genesis(d, ch)]
  }

  /** The record with `n` user records before it in segment `k` is the log's record at that segment's base plus `n`. */
  lemma RecordInLog(g: Geometry, d: Disk, ch: History, k: nat, n: nat)
    requires Inv(g, d, ch) && k < |ch| && n < |ContentOf(g, Seg(d, ch, k))|
    ensures var i := Seg(d, ch, k).base + n;
      && Genesis(d, ch) <= i < Genesis(d, ch) + |Log(g, d, ch)|
      && LogAt(g, d, ch, i) == ContentOf(g, Seg(d, ch, k))[n]
  {
    hide Inv, Members, ContentOf;
    BaseCounts(g, d, ch, k);
    InLog(g, d, ch, k, |ch|);
    var past, c := LogTo(g, d, ch, k), ContentOf(g, Seg(d, ch, k));
    assert Log(g, d, ch)[|past| + n] == Log(g, d, ch)[..|past| + |c|][|past| + n] == (past + c)[|past| + n] == c[n];
  }

  /** The channel head: the newest segment's base plus what it holds counts the whole log. */
  lemma HeadCounts(g: Geometry, d: Disk, ch: History)
    requires Inv(g, d, ch)
    ensures Seg(d, ch, |ch| - 1).base + |ContentOf(g, Seg(d, ch, |ch| - 1))| == Genesis(d, ch) + |Log(g, d, ch)|
  {
    hide Inv, Members, ContentOf;
    BaseCounts(g, d, ch, |ch| - 1);
  }
}
