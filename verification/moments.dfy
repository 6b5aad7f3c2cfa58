/**
 * What holds between any two moments of a channel's life, whoever's stores lie between them: those of
 * writers, helpers and recoveries, in any order, a process dying anywhere among them.
 */
module Moments {
  import opened Bytes
  import opened Layout
  import opened Chain
  import opened Linking
  import opened Segments
  import opened Channel
  import opened SharedFiles
  import opened Reading

  ghost function LogOf(g: Geometry, m: Moment): seq<Record>
    requires Inv(g, m.disk, m.chain)
  {
    Log(g, m.disk, m.chain)
  }

  /** From moment `i` to moment `j` the log is what it was, up to some moment `p`, and from then on what it becomes. */
  ghost predicate Switches(g: Geometry, past: seq<Moment>, i: nat, j: nat, p: nat)
    requires Recorded(g, past) && j < |past|
  {
    && i < p <= j + 1
    && (forall m {:trigger LogOf(g, past[m])} :: i <= m < p ==> LogOf(g, past[m]) == LogOf(g, past[i]))
    && (forall m {:trigger LogOf(g, past[m])} :: p <= m <= j ==> LogOf(g, past[m]) == LogOf(g, past[j]))
  }

  ghost predicate SwitchesOnce(g: Geometry, past: seq<Moment>, i: nat, j: nat)
    requires Recorded(g, past) && j < |past|
  {
    exists p: nat :: Switches(g, past, i, j, p)
  }

  /** A record is committed whole, in one store: where the log gains at most one record, it does so at one moment. */
  lemma {:induction false} Atomic(g: Geometry, past: seq<Moment>, i: nat, j: nat) returns (p: nat)
    requires Recorded(g, past) && i <= j < |past|
    requires |LogOf(g, past[j])| <= |LogOf(g, past[i])| + 1
    ensures Switches(g, past, i, j, p)
    decreases j
  {
    hide Inv, Advances, Log, Recorded;
    if i == j {
      p := j + 1;
    } else {
      MomentsHold(g, past, i, j);
      LogsGrow(g, past, i, j - 1);
      LogsGrow(g, past, j - 1, j);
      p := Atomic(g, past, i, j - 1);
      if LogOf(g, past[j - 1]) == LogOf(g, past[i]) {
        NoneBetween(g, past, i, j - 1, p);
        p := if LogOf(g, past[j]) == LogOf(g, past[i]) then j + 1 else j;
      } else {
        Between(LogOf(g, past[i]), LogOf(g, past[j - 1]), LogOf(g, past[j]));
      }
    }
  }

  lemma MomentsHold(g: Geometry, past: seq<Moment>, i: nat, j: nat)
    requires Recorded(g, past) && i <= j < |past|
    ensures forall m :: i <= m <= j ==> Inv(g, past[m].disk, past[m].chain)
  {
    hide Inv, Advances;
  }

  lemma NoneBetween(g: Geometry, past: seq<Moment>, i: nat, j: nat, p: nat)
    requires Recorded(g, past) && i <= j < |past| && Switches(g, past, i, j, p)
    requires LogOf(g, past[j]) == LogOf(g, past[i])
    ensures forall m {:trigger LogOf(g, past[m])} :: i <= m <= j ==> LogOf(g, past[m]) == LogOf(g, past[i])
  {
    hide Inv, Advances, Log;
  }

  lemma Between(a: seq<Record>, b: seq<Record>, c: seq<Record>)
    requires a <= b <= c && |c| <= |a| + 1
    ensures b == a || b == c
  {
    assert b == c[..|b|] && a == b[..|a|];
  }

  /** The same, between any two moments and in any segment. */
  lemma FrozenForGood(g: Geometry, past: seq<Moment>, i: nat, j: nat, k: nat, p: nat)
    requires Recorded(g, past) && i <= j < |past| && k < |past[i].chain|
    requires Linked(Seg(past[i].disk, past[i].chain, k).mem, g.region, 0, p)
    requires Steppable(Seg(past[i].disk, past[i].chain, k).mem, g.region, p)
    ensures k < |past[j].chain| && past[j].chain[k] == past[i].chain[k] && past[j].chain[k] in past[j].disk.files
    ensures var s, t := Seg(past[i].disk, past[i].chain, k), Seg(past[j].disk, past[j].chain, k);
      && Next(s.mem, p) <= |s.mem| <= |t.mem| && t.mem[p..Next(s.mem, p)] == s.mem[p..Next(s.mem, p)]
      && Steppable(t.mem, g.region, p) && Step(t.mem, g.region, p) == Step(s.mem, g.region, p)
  {
    hide Inv, Evolves, Steppable, Next, Step, Linked, Members;
    assert Advances(g, past[i].disk, past[i].chain, past[j].disk, past[j].chain);
    var ch, dh := past[i].chain, past[j].chain;
    assert dh[k] == dh[..|ch|][k] == ch[k];
    RecordFrozen(g, Seg(past[i].disk, ch, k), Seg(past[j].disk, dh, k), p);
  }

  lemma {:induction false} SameFilesLog(g: Geometry, d: Disk, e: Disk, ch: History, k: nat)
    requires g.Valid() && Members(g, d, ch) && Members(g, e, ch) && d.files == e.files && k <= |ch|
    ensures LogTo(g, d, ch, k) == LogTo(g, e, ch, k)
  {
    hide Members, ContentOf;
    if k > 0 { SameFilesLog(g, d, e, ch, k - 1); }
  }

  /** Whoever finds the wake word bumped by a call finds every file, and the log, as the call leaves them. */
  lemma BumpedFinds(g: Geometry, was: seq<Moment>, past: seq<Moment>, i: InstanceId, m: nat)
    requires Recorded(g, past) && WokenLast(was, past, i) && |was| <= m < |past|
    requires past[m].disk.files[i].wakeWord != was[|was| - 1].disk.files[i].wakeWord
    ensures past[m].disk.files == past[|past| - 1].disk.files
    ensures LogOf(g, past[m]) == LogOf(g, past[|past| - 1])
  {
    hide Inv, Advances;
    var d, e, ch := past[m].disk, past[|past| - 1].disk, past[m].chain;
    assert Inv(g, d, ch) && Inv(g, e, ch);
    SameFilesLog(g, d, e, ch, |ch|);
  }

  /** The segment after `k` starts at its base plus its count. */
  ghost predicate Follows(g: Geometry, d: Disk, ch: History, k: nat)
    requires Inv(g, d, ch) && k + 1 < |ch|
  {
    Seg(d, ch, k + 1).base == Seg(d, ch, k).base + |ContentOf(g, Seg(d, ch, k))|
  }

  /** File `i` is there and published. */
  predicate IsPublished(d: Disk, i: InstanceId) {
    i in d.files && d.files[i].published
  }

  /**
   * At most one file is ever published per sequence: two published with the same one, at whatever two
   * moments, are one file, and it is that segment of the history.
   */
  lemma OneFilePublished(g: Geometry, past: seq<Moment>, i: nat, a: InstanceId, j: nat, b: InstanceId)
    requires Recorded(g, past) && i < |past| && j < |past|
    requires IsPublished(past[i].disk, a) && IsPublished(past[j].disk, b)
    requires past[i].disk.files[a].sequence == past[j].disk.files[b].sequence
    ensures a == b
  {
    hide Inv, Evolves, ContentOf, Member, Members, IdentityOf;
    assert Inv(g, past[i].disk, past[i].chain) && Inv(g, past[j].disk, past[j].chain);
    var k := past[i].disk.files[a].sequence;
    PublishedPlace(g, past[i].disk, past[i].chain, a);
    PublishedPlace(g, past[j].disk, past[j].chain, b);
    var c, d := past[i].chain, past[j].chain;
    if i <= j {
      assert Advances(g, past[i].disk, c, past[j].disk, d);
      assert d[k] == d[..|c|][k] == c[k];
    } else {
      assert Advances(g, past[j].disk, d, past[i].disk, c);
      assert c[k] == c[..|d|][k] == d[k];
    }
  }

  /** A published file is the segment of the history that its sequence says. */
  lemma PublishedPlace(g: Geometry, d: Disk, ch: History, i: InstanceId)
    requires Inv(g, d, ch) && IsPublished(d, i)
    ensures d.files[i].sequence < |ch| && ch[d.files[i].sequence] == i
  {
    hide Inv, ContentOf, Leads, Open, Closing, Done, Settled, IdentityOf;
    PublishedKnown(g, d, ch, i);
    var k :| 0 <= k < |ch| && ch[k] == i;
    Facts(g, d, ch, k);
  }

  lemma PublishedKnown(g: Geometry, d: Disk, ch: History, i: InstanceId)
    requires Inv(g, d, ch) && IsPublished(d, i)
    ensures i in ch
  {
    hide Links, Open, Published, Members, Named, Traceable;
  }

  /**
   * A segment of the history is the same instance ever after: its name, while it has one, leads there, it
   * names the instance before it as its predecessor, and it starts at that one's base plus count.
   */
  lemma SegmentForGood(g: Geometry, past: seq<Moment>, i: nat, j: nat, k: nat)
    requires Recorded(g, past) && i <= j < |past| && k < |past[i].chain|
    ensures k < |past[j].chain| && past[j].chain[k] == past[i].chain[k] && past[i].chain[k] in past[j].disk.files
    ensures k in past[j].disk.names ==> past[j].disk.names[k] == past[i].chain[k]
    ensures k !in past[i].disk.names ==> k !in past[j].disk.names
    ensures k <= U64_MAX && Seg(past[j].disk, past[j].chain, k).identity == IdentityOf(past[i].chain, k)
    ensures k + 1 < |past[i].chain| ==> Follows(g, past[i].disk, past[i].chain, k)
  {
    hide Inv, Evolves, ContentOf, Member, Members, IdentityOf;
    assert Advances(g, past[i].disk, past[i].chain, past[j].disk, past[j].chain);
    var ch, dh := past[i].chain, past[j].chain;
    MemberIdentity(g, past[j].disk, dh, k);
    SameIdentity(ch, dh, k);
    assert dh[k] == dh[..|ch|][k] == ch[k];
    if k in past[j].disk.names { NamedNext(g, past[j].disk, dh, k); }
    if k + 1 < |ch| { NextBase(g, past[i].disk, ch, k); }
  }

  lemma SameIdentity(ch: History, dh: History, k: nat)
    requires |ch| <= |dh| && dh[..|ch|] == ch && k < |ch| && k <= U64_MAX
    ensures IdentityOf(dh, k) == IdentityOf(ch, k)
  {
    assert dh[k] == dh[..|ch|][k] == ch[k];
    if k > 0 { assert dh[k - 1] == dh[..|ch|][k - 1] == ch[k - 1]; }
  }

  lemma MemberIdentity(g: Geometry, d: Disk, ch: History, k: nat)
    requires Inv(g, d, ch) && k < |ch|
    ensures k <= U64_MAX && ch[k] in d.files && Seg(d, ch, k).identity == IdentityOf(ch, k)
  {
    hide Inv, ContentOf, Leads, Open, Closing, Done, Settled, IdentityOf;
    Facts(g, d, ch, k);
  }
}
