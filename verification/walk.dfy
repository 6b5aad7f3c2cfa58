/** The header-only walk that seeking and recovery make over one segment, and what it finds on a sound chain. */
module SegmentWalk {
  import opened Bytes
  import opened Layout
  import opened Chain

  /** What a caller asks the walk to stop at: nothing, a position, or the user record with `k` before it. */
  datatype Visitor = Never | From(pos: nat) | Nth(k: nat)
  {
    predicate Stops(p: nat, kind: byte, users: nat) {
      match this
      case Never => false
      case From(pos) => p >= pos
      case Nth(k) => kind == USER && users == k
    }
  }

  datatype Stop = Visited | Uncommitted | AtRoll | EndOfFile

  datatype Walked = Walked(pos: nat, users: nat, stop: Stop) | Corrupt

  /** Where a walk from slot `p` ends, having counted `users` user records so far. */
  function Walk(m: seq<byte>, r: nat, p: nat, users: nat, v: Visitor): Walked
    requires r > 0
    decreases |m| - p
  {
    if p - p % r + r > |m| then Walked(p, users, EndOfFile)
    else if r - p % r < HEADER_SLOT then Corrupt
    else
      var h := HeaderAt(m, p);
      if h.committed > 1 then Corrupt
      else if h.committed == 0 then Walked(p, users, Uncommitted)
      else if h.kind > ROLL then Corrupt
      else if v.Stops(p, h.kind, users) then Walked(p, users, Visited)
      else if h.kind == ROLL then
        if h.length != ROLL_PAYLOAD || p % r + ROLL_TOTAL > r then Corrupt else Walked(p, users, AtRoll)
      else if HEADER_SLOT + h.length > r - p % r then Corrupt
      else Walk(m, r, AlignUp(p + HEADER_SLOT + h.length), if h.kind == USER then users + 1 else users, v)
  }

  /** The walk, as a loop. */
  method WalkSegment(m: seq<byte>, r: nat, start: nat, v: Visitor) returns (w: Walked)
    requires r > 0
    ensures w == Walk(m, r, start, 0, v)
  {
    var pos, users := start, 0;
    while true
      invariant Walk(m, r, pos, users, v) == Walk(m, r, start, 0, v)
      decreases |m| - pos
    {
      var off := pos % r;
      if pos - off + r > |m| { return Walked(pos, users, EndOfFile); }
      if r - off < HEADER_SLOT { return Corrupt; }
      var h := HeaderAt(m, pos);
      if h.committed > 1 { return Corrupt; }
      if h.committed == 0 { return Walked(pos, users, Uncommitted); }
      if h.kind > ROLL { return Corrupt; }
      if v.Stops(pos, h.kind, users) { return Walked(pos, users, Visited); }
      if h.kind == ROLL {
        return if h.length != ROLL_PAYLOAD || off + ROLL_TOTAL > r then Corrupt else Walked(pos, users, AtRoll);
      }
      if HEADER_SLOT + h.length > r - off { return Corrupt; }
      users := if h.kind == USER then users + 1 else users;
      pos := AlignUp(pos + HEADER_SLOT + h.length);
    }
  }

  /** Whether `v` lets a walk that has counted `users` records pass every record up to slot `b`. */
  predicate Passes(v: Visitor, b: nat, usersAtB: nat) {
    match v
    case Never => true
    case From(pos) => b <= pos
    case Nth(k) => usersAtB <= k
  }

  /** One step of the walk over a record of a sound chain. */
  lemma WalkStep(g: Geometry, m: seq<byte>, p: nat, users: nat, v: Visitor)
    requires g.Valid() && |m| % g.region == 0 && Steppable(m, g.region, p)
    requires !v.Stops(p, HeaderAt(m, p).kind, users)
    ensures Walk(m, g.region, p, users, v) == Walk(m, g.region, Next(m, p), users + |Step(m, g.region, p)|, v)
  {
    RegionInside(p, |m|, g.region);
    StepInRegion(g, m, p);
  }

  /** A record of a sound chain ends within its region. */
  lemma StepInRegion(g: Geometry, m: seq<byte>, p: nat)
    requires g.Valid() && Steppable(m, g.region, p)
    ensures HEADER_SLOT + HeaderAt(m, p).length <= g.region - p % g.region
  {
    hide HeaderAt;
  }

  /** A visitor that lets a walk reach slot `b` does not stop it on the way. */
  lemma Quiet(g: Geometry, m: seq<byte>, a: nat, b: nat, users: nat, v: Visitor)
    requires g.Valid() && Linked(m, g.region, a, b) && a != b
    requires Passes(v, b, users + |Records(m, g.region, a, b)|)
    ensures !v.Stops(a, HeaderAt(m, a).kind, users)
  {
  }

  /** The walk follows the chain: from one slot it comes to any later slot with the records between counted. */
  lemma {:induction false} WalkFollows(g: Geometry, m: seq<byte>, a: nat, b: nat, users: nat, v: Visitor)
    requires g.Valid() && |m| % g.region == 0
    requires Linked(m, g.region, a, b)
    requires Passes(v, b, users + |Records(m, g.region, a, b)|)
    ensures Walk(m, g.region, a, users, v) == Walk(m, g.region, b, users + |Records(m, g.region, a, b)|, v)
    decreases b - a
  {
    hide Steppable, Step, Next, Walk;
    if a != b {
      var n := Next(m, a);
      assert Records(m, g.region, a, b) == Step(m, g.region, a) + Records(m, g.region, n, b);
      Reaches(m, g.region, n, b);
      Quiet(g, m, a, b, users, v);
      WalkStep(g, m, a, users, v);
      WalkFollows(g, m, n, b, users + |Step(m, g.region, a)|, v);
    }
  }

  /** How a sound chain ends: at an uncommitted slot, or on a Roll. */
  predicate Ended(g: Geometry, m: seq<byte>, e: nat)
    requires g.Valid()
  {
    && e + HEADER_SLOT <= |m|
    && g.Slot(e)
    && (m[e] == 0 || (m[e] == 1 && HeaderAt(m, e).kind == ROLL && HeaderAt(m, e).length == ROLL_PAYLOAD))
  }

  lemma WalkEnds(g: Geometry, m: seq<byte>, e: nat, users: nat, v: Visitor)
    requires g.Valid() && |m| % g.region == 0 && Ended(g, m, e)
    requires m[e] == 1 ==> !v.From?
    ensures Walk(m, g.region, e, users, v) == Walked(e, users, if m[e] == 0 then Uncommitted else AtRoll)
  {
    RegionInside(e, |m|, g.region);
  }

  /** A walk that nothing stops counts a sound segment exactly, and says how its chain ends. */
  lemma WalkWhole(g: Geometry, m: seq<byte>, start: nat, e: nat)
    requires g.Valid() && |m| % g.region == 0 && Ended(g, m, e)
    requires Linked(m, g.region, start, e)
    ensures Walk(m, g.region, start, 0, Never)
         == Walked(e, |Records(m, g.region, start, e)|, if m[e] == 0 then Uncommitted else AtRoll)
  {
    hide Walk, Steppable;
    WalkFollows(g, m, start, e, 0, Never);
    WalkEnds(g, m, e, |Records(m, g.region, start, e)|, Never);
  }

  /** The slot of the user record that has `k` user records before it. */
  lemma {:induction false} NthSlot(m: seq<byte>, r: nat, a: nat, e: nat, k: nat) returns (b: nat)
    requires r > 0 && Linked(m, r, a, e) && k < |Records(m, r, a, e)|
    ensures a <= b < e && Linked(m, r, a, b) && |Records(m, r, a, b)| == k
    ensures Steppable(m, r, b) && HeaderAt(m, b).kind == USER
    decreases e - a
  {
    var n := Next(m, a);
    assert Linked(m, r, a, a) && Linked(m, r, n, n);
    if HeaderAt(m, a).kind == USER && k == 0 {
      b := a;
    } else {
      var d := |Step(m, r, a)|;
      b := NthSlot(m, r, n, e, k - d);
      Reaches(m, r, n, b);
    }
  }

  /** Asked for the record with `k` before it, the walk stops on that record. */
  lemma WalkToNth(g: Geometry, m: seq<byte>, k: nat) returns (b: nat)
    requires g.Valid() && |m| % g.region == 0
    requires k < |Content(m, g.region)|
    ensures Linked(m, g.region, 0, b) && |Records(m, g.region, 0, b)| == k
    ensures Steppable(m, g.region, b) && HeaderAt(m, b).kind == USER
    ensures Walk(m, g.region, 0, 0, Nth(k)) == Walked(b, k, Visited)
  {
    b := NthSlot(m, g.region, 0, End(m, g.region, 0), k);
    WalkFollows(g, m, 0, b, 0, Nth(k));
    RegionInside(b, |m|, g.region);
    StepInRegion(g, m, b);
  }
}
