/** Finding the segment and slot of a record by its index: `start_at` and `seek`. */
module Locating {
  import opened Layout
  import opened Linking
  import opened SegmentWalk
  import opened Segments
  import opened Channel
  import opened SharedFiles
  import opened Reading
  import opened Readers
  import opened Walking
  import opened Opening
  import opened Retention

  // ---------- the directory listing ----------

  predicate Ascending(s: seq<nat>) {
    forall i, j :: 0 <= i < j < |s| ==> s[i] < s[j]
  }

  lemma {:induction false} LeastOf(a: set<nat>) returns (n: nat)
    requires a != {}
    ensures n in a && forall m :: m in a ==> n <= m
  {
    var first :| first in a;
    var rest := a - {first};
    assert a == rest + {first};
    n := first;
    if rest != {} {
      var k := LeastOf(rest);
      n := if k < first then k else first;
    }
  }

  /** The sequences found under a channel's path, sorted. */
  method ListSequences(names: map<nat, InstanceId>) returns (s: seq<nat>)
    ensures Ascending(s) && forall k :: k in s <==> k in names
  {
    var rest := names.Keys;
    s := [];
    while rest != {}
      invariant Ascending(s) && rest <= names.Keys
      invariant forall k :: k in names <==> k in s || k in rest
      invariant forall x, y :: x in s && y in rest ==> x < y
      decreases |rest|
    {
      ghost var least := LeastOf(rest);
      var n: nat :| n in rest && forall m :: m in rest ==> n <= m;
      OneMore(s, rest, n);
      s := s + [n];
      rest := rest - {n};
    }
  }

  /** The least of the rest comes after all that are listed. */
  lemma OneMore(s: seq<nat>, rest: set<nat>, n: nat)
    requires Ascending(s) && (forall x, y :: x in s && y in rest ==> x < y)
    requires n in rest && forall m :: m in rest ==> n <= m
    ensures Ascending(s + [n]) && (forall k :: k in s + [n] <==> k in s || k == n)
    ensures forall x, y :: x in s + [n] && y in rest - {n} ==> x < y
  {
    assert forall i :: 0 <= i < |s| ==> s[i] in s;
  }

  /** With segments unlinked oldest first, a listing has no gaps. */
  lemma Consecutive(s: seq<nat>, names: map<nat, InstanceId>, n: nat, i: nat)
    requires i + 1 < |s| && Lists(s, names)
    requires OldestFirst(names, n) && s[i + 1] <= n
    ensures s[i + 1] == s[i] + 1
  {
    if s[i] + 1 < n {
      assert s[i] in s;
      assert s[i] + 1 in names;
      var j :| 0 <= j < |s| && s[j] == s[i] + 1;
    }
  }

  // ---------- the search ----------

  /** The base of segment `k`, which never changes once it is published. */
  ghost function Base(d: Disk, ch: History, k: nat): nat {
    if k < |ch| && ch[k] in d.files then d.files[ch[k]].base else 0
  }

  /** Index `i` is no further than the end of segment `k`. */
  ghost predicate Within(g: Geometry, d: Disk, ch: History, k: nat, i: nat)
    requires g.Valid()
  {
    k < |ch| && ch[k] in d.files && i <= d.files[ch[k]].base + |ContentOf(g, d.files[ch[k]])|
  }

  lemma SearchStays(g: Geometry, d: Disk, ch: History, e: Disk, dh: History, i: nat)
    requires g.Valid() && Advances(g, d, ch, e, dh)
    ensures |ch| <= |dh|
    ensures forall k: nat {:trigger Base(e, dh, k)} :: k < |ch| ==> Base(e, dh, k) == Base(d, ch, k)
    ensures forall k: nat {:trigger Within(g, e, dh, k, i)} :: Within(g, d, ch, k, i) ==> Within(g, e, dh, k, i)
  {
    hide Evolves, ContentOf;
    forall k: nat | k < |ch|
      ensures Base(e, dh, k) == Base(d, ch, k) && (Within(g, d, ch, k, i) ==> Within(g, e, dh, k, i))
    {
      assert dh[k] == dh[..|ch|][k] == ch[k];
      OneStays(g, d.files[ch[k]], e.files[ch[k]]);
    }
  }

  lemma OneStays(g: Geometry, s: Segment, t: Segment)
    requires g.Valid() && Evolves(g, s, t)
    ensures t.base == s.base && |ContentOf(g, s)| <= |ContentOf(g, t)|
  {
    hide EndOf, Rolled, Frozen, ContentOf;
    ContentGrows(g, s, t);
  }

  datatype Probed = Present(i: InstanceId, base: nat, count: nat) | Absent | NotPublished

  /** What a probe of segment `k` tells of a disk. */
  function ProbeOf(d: Disk, k: nat): Probed {
    if k !in d.names || d.names[k] !in d.files then Absent
    else
      var s := d.files[d.names[k]];
      if s.published then Present(d.names[k], s.base, s.messageCount) else NotPublished
  }

  /** `read_segment_header` of segment `k`, if it is there, as it is when probed; `index` is what the search is for. */
  method Probe(files: ChannelFiles, k: nat, ghost index: nat) returns (p: Probed)
    requires files.Valid()
    modifies files
    ensures files.Valid() && old(files.past) <= files.past && p == ProbeOf(files.disk, k)
    ensures |old(files.chain)| <= |files.chain|
    ensures forall j: nat {:trigger Base(files.disk, files.chain, j)} :: j < |old(files.chain)| ==>
      Base(files.disk, files.chain, j) == old(Base(files.disk, files.chain, j))
    ensures forall j: nat {:trigger Within(files.g, files.disk, files.chain, j, index)} ::
      old(Within(files.g, files.disk, files.chain, j, index)) ==> Within(files.g, files.disk, files.chain, j, index)
    ensures p.Present? ==>
      Tracks(files.g, files.disk, files.chain, k, p.i) && p.base == Base(files.disk, files.chain, k)
    ensures p.Present? ==> p.base == files.disk.files[p.i].base
    ensures p.Present? && index <= p.base + p.count ==> Within(files.g, files.disk, files.chain, k, index)
    ensures p.Present? ==> p.base + p.count <= Genesis(files.disk, files.chain) + |files.Logged()|
  {
    hide Inv, Members, ChannelFiles.Valid, Advances, ContentOf, Log;
    ghost var d, ch := files.disk, files.chain;
    Others(files);
    SearchStays(files.g, d, ch, files.disk, files.chain, index);
    if k !in files.disk.names { return Absent; }
    var i := files.disk.names[k];
    NamedFile(files.g, files.disk, files.chain, k);
    if !files.disk.files[i].published { return NotPublished; }
    CountedWithin(files.g, files.disk, files.chain, k);
    return Present(i, files.disk.files[i].base, files.disk.files[i].messageCount);
  }

  /** A name leads to a file; to a published one only if it is that segment of the history. */
  lemma NamedFile(g: Geometry, d: Disk, ch: History, k: nat)
    requires Inv(g, d, ch) && k in d.names
    ensures k <= |ch| && d.names[k] in d.files
    ensures d.files[d.names[k]].published ==> k < |ch|
    ensures k < |ch| ==> d.names[k] == ch[k]
  {
    hide Links, Open, Published, Traceable, Fresh, Sole;
    if k == |ch| { SpareSettled(g, d, ch, d.names[k]); }
    if k < |ch| { var _ := ch[k]; }
  }

  /** A segment's count never runs ahead of its records, nor of the log. */
  lemma CountedWithin(g: Geometry, d: Disk, ch: History, k: nat)
    requires Inv(g, d, ch) && k < |ch|
    ensures g.Valid() && ch[k] in d.files && Seg(d, ch, k).messageCount <= |ContentOf(g, Seg(d, ch, k))|
    ensures Seg(d, ch, k).base + |ContentOf(g, Seg(d, ch, k))| <= Genesis(d, ch) + |Log(g, d, ch)|
  {
    hide Inv, Members, ContentOf, Settled, Rolled, Open, Leads, Closing;
    Facts(g, d, ch, k);
    BaseCounts(g, d, ch, k);
    InLog(g, d, ch, k, |ch|);
    CountBound(g, d, ch, k);
  }

  lemma CountBound(g: Geometry, d: Disk, ch: History, k: nat)
    requires Inv(g, d, ch) && k < |ch| && ch[k] in d.files
    ensures Seg(d, ch, k).messageCount <= |ContentOf(g, Seg(d, ch, k))|
  {
    hide Inv, Members, ContentOf, Leads, Member, EndOf, RollAt, Sound;
    Facts(g, d, ch, k);
  }

  // ---------- why a search may fail ----------

  /** A published segment's name, there at one moment, was gone by a later one. */
  ghost predicate Removed(past: seq<Moment>, from: nat) {
    exists a, b, k :: from <= a <= b < |past| && LostName(past[a], past[b], k)
  }

  predicate LostName(m: Moment, n: Moment, k: nat) {
    k < |m.chain| && k in m.disk.names && k !in n.disk.names
  }

  /** The channel's first segment was not published yet. */
  ghost predicate Unborn(past: seq<Moment>, from: nat) {
    exists a :: from <= a < |past| && FirstUnborn(past[a])
  }

  predicate FirstUnborn(m: Moment) {
    0 in m.disk.names && m.disk.names[0] in m.disk.files && !m.disk.files[m.disk.names[0]].published
  }

  /** Segment `k` is the oldest that has its name. */
  ghost predicate Oldest(m: Moment, k: nat) {
    k in m.disk.names && forall j :: j in m.disk.names ==> k <= j
  }

  /** `e` is the base, as probed at one moment, of the segment that was the oldest listed at an earlier one. */
  ghost predicate TailWas(past: seq<Moment>, from: nat, e: nat) {
    exists a, b, k :: from <= a <= b < |past| && OldestBase(past[a], past[b], k, e)
  }

  ghost predicate OldestBase(m: Moment, n: Moment, k: nat, e: nat) {
    Oldest(m, k) && k < |m.chain| && ProbeOf(n.disk, k).Present? && ProbeOf(n.disk, k).base == e
  }

  /**
   * `h` is the base and count, as probed at one moment, of a segment that, names gone aside, is no older than
   * the newest of an earlier one.
   */
  ghost predicate HeadWas(past: seq<Moment>, from: nat, h: nat) {
    exists a, b, k :: from <= a <= b < |past| && NewestHead(past[a], past[b], k, h, Removed(past, from))
  }

  predicate NewestHead(m: Moment, n: Moment, k: nat, h: nat, removed: bool) {
    && (|m.chain| <= k + 1 || removed)
    && ProbeOf(n.disk, k).Present? && h == ProbeOf(n.disk, k).base + ProbeOf(n.disk, k).count
  }

  /** What was so of some moments stays so as more are recorded. */
  lemma RemovedStays(past: seq<Moment>, now: seq<Moment>, from: nat)
    requires past <= now
    ensures Removed(past, from) ==> Removed(now, from)
    ensures Unborn(past, from) ==> Unborn(now, from)
  {
    if Removed(past, from) {
      var a, b, k :| from <= a <= b < |past| && LostName(past[a], past[b], k);
      assert now[a] == past[a] && now[b] == past[b];
    }
    if Unborn(past, from) {
      var a :| from <= a < |past| && FirstUnborn(past[a]);
      assert now[a] == past[a];
    }
  }

  datatype Located = Found(at: Cursor) | Vanished | Missing | Pruned(earliest: nat) | PastHead(head: nat) | Refused

  /** Why `r` was answered to a search for `index`, in terms of the moments since it began. */
  ghost predicate Justified(files: ChannelFiles, from: nat, index: nat, r: Located)
    requires files.Valid()
    reads files
  {
    match r
    case Found(at) => On(files.g, files.disk, files.chain, at) && at.position == index
    case Vanished => Removed(files.past, from)
    case Missing => Unborn(files.past, from)
    case Pruned(e) => index < e && TailWas(files.past, from, e)
    case PastHead(h) =>
      h < index && HeadWas(files.past, from, h) && h <= Genesis(files.disk, files.chain) + |files.Logged()|
    case Refused => !Orderly(files.past, from)
  }

  // ---------- the listing ----------

  /** Every segment listed is of the history by now. */
  ghost predicate Known(s: seq<nat>, n: nat) {
    forall j :: 0 <= j < |s| ==> s[j] < n
  }

  /** A sorted listing of `names` up to some point. */
  ghost predicate Lists(s: seq<nat>, names: map<nat, InstanceId>) {
    && s != [] && Ascending(s) && (forall k :: k in s ==> k in names)
    && forall k :: k in names && k <= s[|s| - 1] ==> k in s
  }

  /** What was listed at moment `a`, the newest listed being there, published, at moment `b`. */
  ghost predicate Listed(past: seq<Moment>, from: nat, s: seq<nat>, a: nat, b: nat) {
    && from <= a <= b < |past| && Lists(s, past[a].disk.names) && Known(s, |past[a].chain| + 1)
    && s[|s| - 1] < |past[b].chain| && s[|s| - 1] in past[b].disk.names
    && (|s| == 1 ==> s[0] < |past[a].chain|)
    && (|past[a].chain| <= s[|s| - 1] + 1 || Removed(past, from))
  }

  lemma ListedStays(past: seq<Moment>, now: seq<Moment>, from: nat, s: seq<nat>, a: nat, b: nat)
    requires Listed(past, from, s, a, b) && past <= now
    ensures Listed(now, from, s, a, b)
  {
    hide Lists, Known, Removed;
    RemovedStays(past, now, from);
    assert now[a] == past[a] && now[b] == past[b];
  }

  /** The oldest listed is the oldest there was. */
  lemma FirstOldest(past: seq<Moment>, from: nat, s: seq<nat>, a: nat, b: nat)
    requires Listed(past, from, s, a, b)
    ensures s != [] && Oldest(past[a], s[0]) && s[0] < |past[a].chain|
  {
    assert s[0] in s;
    forall j | j in past[a].disk.names
      ensures s[0] <= j
    {
      if j <= s[|s| - 1] { assert j in s; }
    }
  }

  /** A listed segment found gone has lost its name meanwhile. */
  lemma GoneMeanwhile(past: seq<Moment>, from: nat, s: seq<nat>, a: nat, b: nat, j: nat)
    requires Listed(past, from, s, a, b) && j < |s| && s[j] !in past[|past| - 1].disk.names
    ensures Removed(past, from)
  {
    var k := s[j];
    assert k in s;
    if j + 1 < |s| {
      assert k < s[|s| - 1] <= |past[a].chain|;
      assert LostName(past[a], past[|past| - 1], k);
    } else {
      assert LostName(past[b], past[|past| - 1], k);
    }
  }

  /** A segment of the history that is not published is the first, and the only one. */
  lemma UnpublishedUnborn(g: Geometry, past: seq<Moment>, from: nat, k: nat)
    requires Recorded(g, past) && from < |past|
    requires k < |past[|past| - 1].chain| && ProbeOf(past[|past| - 1].disk, k).NotPublished?
    ensures Unborn(past, from)
  {
    hide Inv, Advances;
    var m := past[|past| - 1];
    assert Inv(g, m.disk, m.chain);
    UnpublishedFirst(g, m.disk, m.chain, k);
    assert FirstUnborn(m);
  }

  lemma UnpublishedFirst(g: Geometry, d: Disk, ch: History, k: nat)
    requires Inv(g, d, ch) && k < |ch| && ProbeOf(d, k).NotPublished?
    ensures k == 0 && |ch| == 1
  {
    hide Inv, Members, Member, Open, Leads, Closing, Done, Settled, ContentOf;
    NamedFile(g, d, ch, k);
    Facts(g, d, ch, k);
  }

  lemma ListedNames(g: Geometry, d: Disk, ch: History)
    requires Inv(g, d, ch)
    ensures |ch| >= 1 && |ch| - 1 in d.names && forall k :: k in d.names ==> k <= |ch|
  {
    hide Links, Open, Published, Traceable, Spare, Members, Sole;
  }

  /** The listing, before the segments at its end that are not published are left out. */
  ghost predicate Listing(past: seq<Moment>, from: nat, s: seq<nat>, a: nat) {
    && from <= a < |past| && Lists(s, past[a].disk.names) && Known(s, |past[a].chain| + 1)
    && (|s| == 1 ==> s[0] < |past[a].chain|)
    && (|past[a].chain| <= s[|s| - 1] + 1 || Removed(past, from))
    && |past[a].chain| <= |past[|past| - 1].chain|
  }

  lemma FullList(s: seq<nat>, past: seq<Moment>, from: nat, g: Geometry)
    requires past != [] && from < |past| && Recorded(g, past) && Ascending(s)
    requires forall k :: k in s <==> k in past[|past| - 1].disk.names
    ensures Listing(past, from, s, |past| - 1)
  {
    hide Inv, Advances, Removed;
    var m := past[|past| - 1];
    ListedNames(g, m.disk, m.chain);
    assert |m.chain| - 1 in s;
    assert forall j :: 0 <= j < |s| ==> s[j] in s;
  }

  lemma ListingStays(g: Geometry, past: seq<Moment>, now: seq<Moment>, from: nat, s: seq<nat>, a: nat)
    requires Listing(past, from, s, a) && past <= now && Recorded(g, now)
    ensures Listing(now, from, s, a)
  {
    hide Inv, Lists, Known, Removed;
    RemovedStays(past, now, from);
    assert now[a] == past[a] && now[|past| - 1] == past[|past| - 1];
    var m, n := now[a], now[|now| - 1];
    assert g.Valid() && Advances(g, m.disk, m.chain, n.disk, n.chain);
  }

  /** With the last one found published, the listing is complete. */
  lemma ListingDone(g: Geometry, past: seq<Moment>, from: nat, s: seq<nat>, a: nat)
    requires Listing(past, from, s, a) && Recorded(g, past)
    requires |s| == 1 || ProbeOf(past[|past| - 1].disk, s[|s| - 1]).Present?
    ensures exists b :: Listed(past, from, s, a, b)
  {
    hide Inv, Advances, Removed;
    var n := |past| - 1;
    if |s| == 1 {
      assert s[0] in s;
      assert Listed(past, from, s, a, a);
    } else {
      assert Inv(g, past[n].disk, past[n].chain);
      NamedFile(g, past[n].disk, past[n].chain, s[|s| - 1]);
      assert Listed(past, from, s, a, n);
    }
  }

  /** Leaving out a last one that is not there, published, loses no segment that was, unless its name went. */
  lemma Shortened(g: Geometry, past: seq<Moment>, from: nat, s: seq<nat>, a: nat)
    requires Listing(past, from, s, a) && |s| > 1 && Recorded(g, past)
    requires !ProbeOf(past[|past| - 1].disk, s[|s| - 1]).Present?
    ensures Listing(past, from, s[..|s| - 1], a)
  {
    hide Inv, Advances, Removed;
    var last, now := s[|s| - 1], past[|past| - 1];
    ListsShorter(s, past[a].disk.names);
    assert Inv(g, past[a].disk, past[a].chain) && Inv(g, now.disk, now.chain);
    if last < |past[a].chain| {
      LastLost(g, past, from, a, last);
    } else {
      ListedNames(g, past[a].disk, past[a].chain);
      assert |past[a].chain| - 1 in s;
    }
  }

  lemma ListsShorter(s: seq<nat>, names: map<nat, InstanceId>)
    requires Lists(s, names) && |s| > 1
    ensures Lists(s[..|s| - 1], names) && s[|s| - 1] in names
    ensures forall k :: k in names && k < s[|s| - 1] ==> k <= s[|s| - 2]
  {
    var r := s[..|s| - 1];
    forall k | k in names && k < s[|s| - 1]
      ensures k in r && k <= s[|s| - 2]
    {
      InShorter(s, k);
    }
    forall k | k in r
      ensures k in names
    {
      assert k in s;
    }
    assert s[|s| - 1] in s;
  }

  lemma InShorter(s: seq<nat>, k: nat)
    requires Ascending(s) && |s| > 1 && k in s && k < s[|s| - 1]
    ensures k in s[..|s| - 1] && k <= s[|s| - 2]
  {
    var j :| 0 <= j < |s| && s[j] == k;
    assert s[..|s| - 1][j] == k;
  }

  lemma LastLost(g: Geometry, past: seq<Moment>, from: nat, a: nat, k: nat)
    requires from <= a < |past| && 0 < k < |past[a].chain| <= |past[|past| - 1].chain| && k in past[a].disk.names
    requires Recorded(g, past) && !ProbeOf(past[|past| - 1].disk, k).Present?
    ensures Removed(past, from)
  {
    hide Inv, Advances;
    var now := past[|past| - 1];
    assert Inv(g, now.disk, now.chain);
    if k in now.disk.names {
      NamedFile(g, now.disk, now.chain, k);
      UnpublishedFirst(g, now.disk, now.chain, k);
    } else {
      assert LostName(past[a], now, k);
    }
  }

  /** The listing, without the newest files that are installed but not published. */
  method List(files: ChannelFiles, ghost index: nat, ghost from: nat)
      returns (seqs: seq<nat>, ghost a: nat, ghost b: nat)
    requires files.Valid() && from < |files.past|
    modifies files
    ensures files.Valid() && old(files.past) <= files.past && Listed(files.past, from, seqs, a, b)
  {
    hide Inv, Members, ChannelFiles.Valid, Advances, Listing, Listed, Ascending, Tracks, Recorded;
    Others(files);
    Now(files);
    a := |files.past| - 1;
    seqs := ListSequences(files.disk.names);
    FullList(seqs, files.past, from, files.g);
    ListingSome(files.past, from, seqs, a);
    while |seqs| > 1
      invariant files.Valid() && old(files.past) <= files.past && seqs != [] && Listing(files.past, from, seqs, a)
      decreases |seqs|
    {
      ghost var past := files.past;
      var p := Probe(files, seqs[|seqs| - 1], index);
      Now(files);
      ListingStays(files.g, past, files.past, from, seqs, a);
      if p.Present? { break; }
      Shortened(files.g, files.past, from, seqs, a);
      seqs := seqs[..|seqs| - 1];
    }
    Now(files);
    ListingDone(files.g, files.past, from, seqs, a);
    b :| Listed(files.past, from, seqs, a, b);
  }

  lemma ListingSome(past: seq<Moment>, from: nat, s: seq<nat>, a: nat)
    requires Listing(past, from, s, a)
    ensures s != []
  {
  }

  // ---------- the search ----------

  lemma ListedKnown(g: Geometry, past: seq<Moment>, from: nat, s: seq<nat>, a: nat, b: nat)
    requires Listed(past, from, s, a, b) && Recorded(g, past)
    ensures s != [] && Known(s, |past[|past| - 1].chain|)
  {
    hide Inv, Removed;
    assert g.Valid() && Advances(g, past[b].disk, past[b].chain, past[|past| - 1].disk, past[|past| - 1].chain);
  }

  /** A listed segment not found as expected: why. */
  lemma NotThere(files: ChannelFiles, from: nat, s: seq<nat>, a: nat, b: nat, j: nat)
    requires files.Valid() && Listed(files.past, from, s, a, b) && j < |s|
    ensures ProbeOf(files.disk, s[j]).Absent? ==> Removed(files.past, from)
    ensures ProbeOf(files.disk, s[j]).NotPublished? ==> Unborn(files.past, from)
  {
    hide Inv, Members, ChannelFiles.Valid, Removed, Unborn, Listed, Recorded, Known;
    Now(files);
    ListedKnown(files.g, files.past, from, s, a, b);
    ListedFrom(files.past, from, s, a, b);
    var p := ProbeOf(files.disk, s[j]);
    if p.Absent? {
      if s[j] in files.disk.names { NamedFile(files.g, files.disk, files.chain, s[j]); }
      GoneMeanwhile(files.past, from, s, a, b, j);
    }
    if p.NotPublished? {
      assert s[j] < |files.chain| by { KnownAt(s, |files.chain|, j); }
      UnpublishedUnborn(files.g, files.past, from, s[j]);
    }
  }

  lemma KnownAt(s: seq<nat>, n: nat, j: nat)
    requires Known(s, n) && j < |s|
    ensures s[j] < n
  {
  }

  lemma ListedFrom(past: seq<Moment>, from: nat, s: seq<nat>, a: nat, b: nat)
    requires Listed(past, from, s, a, b)
    ensures from <= a < |past| && s != []
  {
  }

  datatype Searched = At(lo: nat) | Gone | Unpublished

  /** The last listed segment whose first record is at or before `index`. */
  method Search(files: ChannelFiles, seqs: seq<nat>, index: nat, ghost from: nat, ghost a: nat, ghost b: nat)
      returns (r: Searched)
    requires files.Valid() && seqs != [] && Known(seqs, |files.chain|) && Listed(files.past, from, seqs, a, b)
    requires Base(files.disk, files.chain, seqs[0]) <= index
    modifies files
    ensures files.Valid() && old(files.past) <= files.past && Known(seqs, |files.chain|)
    ensures forall j: nat {:trigger Within(files.g, files.disk, files.chain, j, index)} ::
      old(Within(files.g, files.disk, files.chain, j, index)) ==> Within(files.g, files.disk, files.chain, j, index)
    ensures Listed(files.past, from, seqs, a, b)
    ensures r.At? ==> r.lo < |seqs| && Base(files.disk, files.chain, seqs[r.lo]) <= index
    ensures r.At? && r.lo + 1 < |seqs| ==> index < Base(files.disk, files.chain, seqs[r.lo + 1])
    ensures r.Gone? ==> Removed(files.past, from)
    ensures r.Unpublished? ==> Unborn(files.past, from)
  {
    hide Inv, Members, ChannelFiles.Valid, Within, Base, Tracks, Listed, Removed, Unborn, ProbeOf;
    var lo, hi := 0, |seqs| - 1;
    while lo < hi
      invariant files.Valid() && old(files.past) <= files.past && Known(seqs, |files.chain|)
      invariant forall j: nat {:trigger Within(files.g, files.disk, files.chain, j, index)} ::
        old(Within(files.g, files.disk, files.chain, j, index)) ==> Within(files.g, files.disk, files.chain, j, index)
      invariant Listed(files.past, from, seqs, a, b)
      invariant lo <= hi < |seqs| && Base(files.disk, files.chain, seqs[lo]) <= index
      invariant hi + 1 < |seqs| ==> index < Base(files.disk, files.chain, seqs[hi + 1])
    {
      var mid := lo + (hi - lo + 1) / 2;
      ghost var past := files.past;
      var p := Probe(files, seqs[mid], index);
      ListedStays(past, files.past, from, seqs, a, b);
      NotThere(files, from, seqs, a, b, mid);
      if p.Absent? { return Gone; }
      if p.NotPublished? { return Searched.Unpublished; }
      if p.base <= index {
        lo := mid;
      } else {
        hi := mid - 1;
      }
    }
    r := At(lo);
  }

  /** The first probe justifies saying that the index is before the tail, the second that it is past the head. */
  lemma EndsJustified(files: ChannelFiles, from: nat, s: seq<nat>, a: nat, b: nat)
    requires files.Valid() && Listed(files.past, from, s, a, b)
    ensures s != []
    ensures var p := ProbeOf(files.disk, s[0]); p.Present? ==> TailWas(files.past, from, p.base)
    ensures var q := ProbeOf(files.disk, s[|s| - 1]); q.Present? ==> HeadWas(files.past, from, q.base + q.count)
  {
    hide Inv, Members, ChannelFiles.Valid, ProbeOf, Removed, Lists, Known, Recorded;
    Now(files);
    FirstOldest(files.past, from, s, a, b);
    var p, q, now := ProbeOf(files.disk, s[0]), ProbeOf(files.disk, s[|s| - 1]), |files.past| - 1;
    if p.Present? { assert OldestBase(files.past[a], files.past[now], s[0], p.base); }
    if q.Present? {
      assert NewestHead(files.past[a], files.past[now], s[|s| - 1], q.base + q.count, Removed(files.past, from));
    }
  }

  /**
   * `locate`: find the segment that holds record `index`, and its slot in it, while the channel changes.
   * What is found is that record, or where it will be; every other answer says what was so meanwhile.
   */
  method Locate(files: ChannelFiles, index: nat) returns (r: Located)
    requires files.Valid()
    modifies files
    ensures files.Valid() && old(files.past) <= files.past && old(files.past) != []
    ensures Justified(files, |old(files.past)| - 1, index, r)
  {
    hide Inv, Members, ChannelFiles.Valid, Within, Base, Tracks, On, Lists, ContentOf, Walk, Listed, Removed, Unborn,
      TailWas, HeadWas, ProbeOf, Orderly, Known, ChannelFiles.Logged, Recorded;
    Now(files);
    ghost var from := |files.past| - 1;
    var seqs;
    ghost var a, b;
    seqs, a, b := List(files, index, from);
    Now(files);
    ListedKnown(files.g, files.past, from, seqs, a, b);
    var first, last := seqs[0], seqs[|seqs| - 1];
    ghost var past := files.past;
    var p := Probe(files, first, index);
    ListedStays(past, files.past, from, seqs, a, b);
    NotThere(files, from, seqs, a, b, 0);
    if p.Absent? { return Vanished; }
    if p.NotPublished? { return Missing; }
    EndsJustified(files, from, seqs, a, b);
    if index < p.base { return Pruned(p.base); }
    past := files.past;
    KnownStays(files, past, seqs, from, a, b);
    KnownAt(seqs, |files.chain|, 0);
    var q := Probe(files, last, index);
    ListedStays(past, files.past, from, seqs, a, b);
    NotThere(files, from, seqs, a, b, |seqs| - 1);
    if q.Absent? { return Vanished; }
    if q.NotPublished? { return Missing; }
    EndsJustified(files, from, seqs, a, b);
    var head := q.base + q.count;
    if index > head { return PastHead(head); }
    KnownStays(files, files.past, seqs, from, a, b);
    var found := Search(files, seqs, index, from, a, b);
    if found.Gone? { return Vanished; }
    if found.Unpublished? { return Missing; }
    var lo := found.lo;
    past := files.past;
    KnownAt(seqs, |files.chain|, lo);
    if lo + 1 < |seqs| { KnownAt(seqs, |files.chain|, lo + 1); }
    p := Probe(files, seqs[lo], index);
    ListedStays(past, files.past, from, seqs, a, b);
    NotThere(files, from, seqs, a, b, lo);
    if p.Absent? { return Vanished; }
    if p.NotPublished? { return Missing; }
    KnownStays(files, files.past, seqs, from, a, b);
    if Orderly(files.past, from) {
      SettledOn(files, from, seqs, a, b, lo, p.i, index);
    }
    r := SeekIn(files, seqs[lo], p.i, index - p.base, index, from);
  }

  /** The walk over the segment the search settled on. */
  method SeekIn(files: ChannelFiles, k: nat, i: InstanceId, skip: nat, index: nat, ghost from: nat) returns (r: Located)
    requires files.Valid() && Tracks(files.g, files.disk, files.chain, k, i) && files.g.Valid()
    requires files.disk.files[i].base + skip == index
    requires Orderly(files.past, from) ==> skip <= |ContentOf(files.g, files.disk.files[i])|
    modifies files
    ensures files.Valid() && old(files.past) <= files.past && Justified(files, from, index, r)
  {
    hide Inv, Members, ChannelFiles.Valid, Tracks, On, ContentOf, Orderly, Counted, FoundIn, Evolves, Walk,
      ChannelFiles.Logged;
    ghost var u, past := files.disk.files[i], files.past;
    var w := WalkOn(files, k, i, Nth(skip));
    CountedOn(files, k, i, u, w, skip);
    if w.Corrupt? || w.users != skip || w.stop == EndOfFile {
      if Orderly(files.past, from) { OrderlyBefore(past, files.past, from); }
      return Refused;
    }
    return Found(Cursor(k, i, w.pos, index));
  }

  lemma KnownStays(files: ChannelFiles, past: seq<Moment>, s: seq<nat>, from: nat, a: nat, b: nat)
    requires files.Valid() && past <= files.past && Listed(past, from, s, a, b)
    ensures s != [] && Listed(files.past, from, s, a, b) && Known(s, |files.chain|)
  {
    hide Inv, Members, ChannelFiles.Valid, Listed, Known, Recorded;
    Now(files);
    ListedStays(past, files.past, from, s, a, b);
    ListedKnown(files.g, files.past, from, s, a, b);
  }

  lemma SettledOn(files: ChannelFiles, from: nat, s: seq<nat>, a: nat, b: nat, lo: nat, i: InstanceId, index: nat)
    requires files.Valid() && Listed(files.past, from, s, a, b) && Orderly(files.past, from) && Known(s, |files.chain|)
    requires lo < |s| && Base(files.disk, files.chain, s[lo]) <= index
    requires files.g.Valid() && Within(files.g, files.disk, files.chain, s[|s| - 1], index)
    requires lo + 1 < |s| ==> index < Base(files.disk, files.chain, s[lo + 1])
    requires Tracks(files.g, files.disk, files.chain, s[lo], i)
    ensures index <= files.disk.files[i].base + |ContentOf(files.g, files.disk.files[i])|
  {
    hide Inv, Members, ChannelFiles.Valid, Within, Base, Tracks, Lists, ContentOf, Removed, OldestFirst, Known;
    var m := files.past[a];
    InSegment(files.g, files.disk, files.chain, s, m.disk.names, |m.chain|, lo, i, index);
  }

  /** Where the walk for the record with `n` before it ends, and that it comes to it if there are `n`. */
  lemma CountedOn(files: ChannelFiles, k: nat, i: InstanceId, u: Segment, w: Walked, n: nat)
    requires files.Valid() && Tracks(files.g, files.disk, files.chain, k, i) && files.g.Valid()
    requires Evolves(files.g, u, files.disk.files[i]) && FoundIn(files.g, u, Nth(n), w)
    requires Counted(files.g, files.disk.files[i], w.pos, w.users)
    ensures w.Walked? && w.stop != EndOfFile && (n <= |ContentOf(files.g, u)| ==> w.users == n)
    ensures On(files.g, files.disk, files.chain, Cursor(k, i, w.pos, u.base + w.users))
  {
    hide Inv, Members, ChannelFiles.Valid, OnChain, EndOf, Rolled, Frozen, ContentOf;
  }

  /** In a gapless listing the segment the search settles on holds the index, or ends at it. */
  lemma InSegment(g: Geometry, d: Disk, ch: History, seqs: seq<nat>, names: map<nat, InstanceId>, n: nat, lo: nat,
      i: InstanceId, index: nat)
    requires Inv(g, d, ch) && Lists(seqs, names) && OldestFirst(names, n) && Known(seqs, n + 1) && Known(seqs, |ch|)
    requires lo < |seqs| && Base(d, ch, seqs[lo]) <= index
    requires Within(g, d, ch, seqs[|seqs| - 1], index)
    requires lo + 1 < |seqs| ==> index < Base(d, ch, seqs[lo + 1])
    requires Tracks(g, d, ch, seqs[lo], i)
    ensures g.Valid() && index <= d.files[i].base + |ContentOf(g, d.files[i])|
  {
    hide Inv, Members, ContentOf, Lists;
    MemberFiles(g, d, ch, seqs[lo]);
    if lo + 1 < |seqs| {
      Consecutive(seqs, names, n, lo);
      MemberFiles(g, d, ch, seqs[lo] + 1);
      BasesGrow(g, d, ch, seqs[lo], seqs[lo] + 1);
      NextBase(g, d, ch, seqs[lo]);
    }
  }

  // ---------- an index between tail and head is found ----------

  const MAX_OPEN_RETRIES: nat := 8

  /** Between moment `from` and the last, names of published segments were lost at `n` times, one after another. */
  ghost predicate LostTimes(past: seq<Moment>, from: nat, n: nat)
    decreases n
  {
    n == 0 || exists mid: nat :: LostBefore(past, from, n, mid) && Removed(past, mid)
  }

  /** All of them but the last were lost up to moment `mid`. */
  ghost predicate LostBefore(past: seq<Moment>, from: nat, n: nat, mid: nat)
    requires n > 0
    decreases n, 0
  {
    from <= mid < |past| && LostTimes(past[..mid + 1], from, n - 1)
  }

  lemma LostAgain(past: seq<Moment>, now: seq<Moment>, from: nat, n: nat)
    requires past <= now && from < |past| && LostTimes(past, from, n) && Removed(now, |past| - 1)
    ensures LostTimes(now, from, n + 1)
  {
    hide Removed;
    assert now[..|past|] == past;
    assert LostBefore(now, from, n + 1, |past| - 1);
  }

  lemma LostOnce(past: seq<Moment>, from: nat)
    requires from < |past| && Removed(past, from)
    ensures LostTimes(past, from, 1)
  {
    hide Removed;
    assert LostBefore(past, from, 1, from);
  }

  /** `open` at a record: `locate`, again while a segment vanishes under it. */
  method OpenAt(files: ChannelFiles, index: nat) returns (r: Located)
    requires files.Valid()
    modifies files
    ensures files.Valid() && old(files.past) <= files.past && old(files.past) != []
    ensures Justified(files, |old(files.past)| - 1, index, r)
    ensures Steady(files.past, |old(files.past)| - 1) && Spans(files.past[|old(files.past)| - 1], index) ==> r.Found?
    ensures r.Vanished? ==> LostTimes(files.past, |old(files.past)| - 1, MAX_OPEN_RETRIES)
  {
    hide Inv, Members, ChannelFiles.Valid, Justified, Steady, Spans, Recorded, LostTimes, Removed;
    Now(files);
    ghost var from := |files.past| - 1;
    r := Locate(files, index);
    NothingMissed(files, from, index, r);
    if r.Vanished? {
      VanishedUnsteady(files, from, index);
      LostOnce(files.past, from);
    }
    var tries := 1;
    while r.Vanished? && tries < MAX_OPEN_RETRIES
      invariant files.Valid() && old(files.past) <= files.past && Justified(files, from, index, r)
      invariant Steady(files.past, from) && Spans(files.past[from], index) ==> r.Found?
      invariant r.Vanished? ==> tries <= MAX_OPEN_RETRIES && LostTimes(files.past, from, tries)
    {
      VanishedUnsteady(files, from, index);
      ghost var past := files.past;
      Now(files);
      r := Locate(files, index);
      if r.Vanished? {
        VanishedUnsteady(files, |past| - 1, index);
        LostAgain(past, files.past, from, tries);
      }
      UnsteadyStays(past, files.past, from);
      JustifiedSince(files, from, |past| - 1, index, r);
      tries := tries + 1;
    }
  }

  lemma VanishedUnsteady(files: ChannelFiles, from: nat, index: nat)
    requires files.Valid() && Justified(files, from, index, Vanished)
    ensures Removed(files.past, from)
  {
    hide Inv, Removed;
  }

  lemma UnsteadyStays(past: seq<Moment>, now: seq<Moment>, from: nat)
    requires past <= now && Removed(past, from)
    ensures !Steady(now, from)
  {
    hide Removed, Unborn, Orderly;
    RemovedStays(past, now, from);
  }

  /** What was so since a later moment was so since an earlier one. */
  lemma JustifiedSince(files: ChannelFiles, from: nat, later: nat, index: nat, r: Located)
    requires files.Valid() && from <= later && Justified(files, later, index, r)
    ensures Justified(files, from, index, r)
  {
    hide Inv, On, Oldest, OldestFirst, ProbeOf, ChannelFiles.Logged, ChannelFiles.Valid, LostName, FirstUnborn,
      OldestBase;
    RemovedSince(files.past, from, later);
    match r
    case Pruned(e) =>
      var a, b, k :| later <= a <= b < |files.past| && OldestBase(files.past[a], files.past[b], k, e);
    case PastHead(h) =>
      var a, b, k :| later <= a <= b < |files.past|
        && NewestHead(files.past[a], files.past[b], k, h, Removed(files.past, later));
      assert NewestHead(files.past[a], files.past[b], k, h, Removed(files.past, from));
    case _ =>
  }

  lemma RemovedSince(past: seq<Moment>, from: nat, later: nat)
    requires from <= later
    ensures Removed(past, later) ==> Removed(past, from)
    ensures Unborn(past, later) ==> Unborn(past, from)
    ensures Orderly(past, from) ==> Orderly(past, later)
  {
    hide LostName, FirstUnborn, OldestFirst;
    if Removed(past, later) {
      var a, b, k :| later <= a <= b < |past| && LostName(past[a], past[b], k);
    }
  }

  /**
   * While no published segment loses its name, the first one is published, and no gap is left, nothing can go
   * wrong.
   */
  ghost predicate Steady(past: seq<Moment>, from: nat) {
    !Removed(past, from) && !Unborn(past, from) && Orderly(past, from)
  }

  /** `index` lies between the base of the oldest named segment and the head that the newest one's pair gives. */
  ghost predicate Spans(m: Moment, index: nat) {
    && |m.chain| >= 1
    && (forall k {:trigger Oldest(m, k)} :: Oldest(m, k) && ProbeOf(m.disk, k).Present? ==>
        ProbeOf(m.disk, k).base <= index)
    && var q := ProbeOf(m.disk, |m.chain| - 1);
    q.Present? && index <= q.base + q.count
  }

  /** Between two moments with no name lost the oldest named segment is the same one, with the same base. */
  lemma SameOldest(g: Geometry, past: seq<Moment>, from: nat, a: nat, b: nat, k: nat)
    requires Recorded(g, past) && from <= a <= b < |past| && !Removed(past, from)
    requires Oldest(past[a], k) && k < |past[a].chain| && ProbeOf(past[b].disk, k).Present? && !Unborn(past, from)
    ensures Oldest(past[from], k) && ProbeOf(past[from].disk, k).Present?
    ensures ProbeOf(past[from].disk, k).base == ProbeOf(past[b].disk, k).base
  {
    hide Inv, Advances, Evolves;
    var o, m := past[from], past[a];
    assert Inv(g, o.disk, o.chain) && Inv(g, m.disk, m.chain) && Advances(g, o.disk, o.chain, m.disk, m.chain);
    ListedNames(g, o.disk, o.chain);
    KeepNames(g, past, from, a);
    SameBase(g, past, from, b, k);
  }

  /** With no name lost, the names of the history at an earlier moment are just those it has later. */
  lemma KeepNames(g: Geometry, past: seq<Moment>, a: nat, b: nat)
    requires Recorded(g, past) && a <= b < |past| && !Removed(past, a)
    ensures |past[a].chain| <= |past[b].chain|
    ensures forall j :: j < |past[a].chain| ==> (j in past[a].disk.names <==> j in past[b].disk.names)
  {
    hide Inv, Evolves;
    assert Inv(g, past[a].disk, past[a].chain) && Advances(g, past[a].disk, past[a].chain, past[b].disk, past[b].chain);
    forall j | j < |past[a].chain| && j in past[a].disk.names
      ensures j in past[b].disk.names
    {
      assert !LostName(past[a], past[b], j);
    }
  }

  lemma SameBase(g: Geometry, past: seq<Moment>, a: nat, b: nat, k: nat)
    requires Recorded(g, past) && a <= b < |past| && k < |past[a].chain| && !Unborn(past, a)
    requires k in past[a].disk.names && ProbeOf(past[b].disk, k).Present?
    ensures var p, q := ProbeOf(past[a].disk, k), ProbeOf(past[b].disk, k);
      p.Present? && p.base == q.base && p.count <= q.count
  {
    hide Inv, EndOf, Frozen, Rolled, Unborn;
    var m, n := past[a], past[b];
    assert Inv(g, m.disk, m.chain) && Inv(g, n.disk, n.chain) && Advances(g, m.disk, m.chain, n.disk, n.chain);
    NamedFile(g, m.disk, m.chain, k);
    NamedFile(g, n.disk, n.chain, k);
    assert n.chain[k] == n.chain[..|m.chain|][k] == m.chain[k];
    if ProbeOf(m.disk, k).NotPublished? {
      UnpublishedFirst(g, m.disk, m.chain, k);
      BornAt(past, a, a);
    }
  }

  lemma BornAt(past: seq<Moment>, from: nat, a: nat)
    requires from <= a < |past| && FirstUnborn(past[a])
    ensures Unborn(past, from)
  {
  }

  /** The head that a segment no older than the newest gives later is no less than what the newest gave. */
  lemma HeadGrows(g: Geometry, past: seq<Moment>, a: nat, b: nat, k: nat)
    requires Recorded(g, past) && a <= b < |past| && 1 <= |past[a].chain| <= k + 1 && !Removed(past, a)
    requires !Unborn(past, a)
    requires ProbeOf(past[a].disk, |past[a].chain| - 1).Present? && ProbeOf(past[b].disk, k).Present?
    ensures var q, h := ProbeOf(past[a].disk, |past[a].chain| - 1), ProbeOf(past[b].disk, k);
      q.base + q.count <= h.base + h.count
  {
    hide Inv, Advances, Removed, Unborn, ProbeOf;
    var m, n, j := past[a], past[b], |past[a].chain| - 1;
    assert Inv(g, m.disk, m.chain) && Inv(g, n.disk, n.chain);
    KeepNames(g, past, a, b);
    assert j in m.disk.names by { ProbedNamed(m.disk, j); }
    ProbedToo(g, n.disk, n.chain, j, k);
    SameBase(g, past, a, b, j);
    HeadsApart(g, n.disk, n.chain, j, k);
  }

  lemma ProbedNamed(d: Disk, k: nat)
    requires ProbeOf(d, k).Present?
    ensures k in d.names
  {
  }

  /** A named segment with a published one at or after it is published. */
  lemma ProbedToo(g: Geometry, d: Disk, ch: History, j: nat, k: nat)
    requires Inv(g, d, ch) && j <= k && j in d.names && ProbeOf(d, k).Present?
    ensures ProbeOf(d, j).Present?
  {
    hide Inv;
    NamedFile(g, d, ch, j);
    NamedFile(g, d, ch, k);
    if ProbeOf(d, j).NotPublished? { UnpublishedFirst(g, d, ch, j); }
  }

  /** What probes of two segments of the history give. */
  lemma HeadsApart(g: Geometry, d: Disk, ch: History, j: nat, k: nat)
    requires Inv(g, d, ch) && j <= k && ProbeOf(d, j).Present? && ProbeOf(d, k).Present?
    ensures ProbeOf(d, j).base + ProbeOf(d, j).count <= ProbeOf(d, k).base + ProbeOf(d, k).count
  {
    hide Inv, Members, ContentOf, Log;
    NamedFile(g, d, ch, j);
    NamedFile(g, d, ch, k);
    if j < k {
      BasesGrow(g, d, ch, j, k);
      CountedWithin(g, d, ch, j);
    }
  }

  /**
   * Of an index between tail and head, a steady channel refuses none, equal bases and an uncounted last
   * record included.
   */
  lemma NothingMissed(files: ChannelFiles, from: nat, index: nat, r: Located)
    requires files.Valid() && from < |files.past| && Justified(files, from, index, r)
    ensures Steady(files.past, from) && Spans(files.past[from], index) ==> r.Found?
  {
    hide Inv, Members, ChannelFiles.Valid, Removed, Unborn, ProbeOf, Oldest, ChannelFiles.Logged, Recorded, On, Orderly;
    Now(files);
    if Steady(files.past, from) && Spans(files.past[from], index) {
      var past := files.past;
      if r.Pruned? {
        var a, b, k :| from <= a <= b < |past| && OldestBase(past[a], past[b], k, r.earliest);
        SameOldest(files.g, past, from, a, b, k);
      }
      if r.PastHead? {
        var a, b, k :| from <= a <= b < |past| && NewestHead(past[a], past[b], k, r.head, Removed(past, from));
        KeepNames(files.g, past, from, a);
        HeadGrows(files.g, past, from, b, k);
      }
    }
  }
}
