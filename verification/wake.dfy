/**
 * Waking readers: a writer that publishes, bumps the segment's wake word and wakes its sleepers, and
 * any number of readers that load the word, look, and sleep if the word is still what it was. A writer
 * may die at any point, and the one that opens the channel next may wake its readers or not. The word
 * has 32 bits; `bumps` counts without wrapping.
 */
module Wake {
  import opened Wrappers

  const WORD: nat := 0x1_0000_0000

  /**
   * A segment's committed records, whether a Roll ends them, its wake flag and the bumps of its word.
   * `due` is whether something was published since the last bump, `calling` whether there was a bump since
   * its sleepers were last woken.
   */
  datatype Segment = Segment(committed: nat, rolled: bool, flag: bool, bumps: nat, due: bool, calling: bool)

  /** Where the writer is: done, between publishing and bumping, or between bumping and waking. */
  datatype WriterAt = Quiet | Behind(segment: nat) | Bumped(segment: nat)

  /** Where a reader is in `wait_for_message`; `Late` is looking again after a full sleep ran out. */
  datatype ReaderAt =
    | Top | Loaded(sequence: nat, seen: nat) | Polled(sequence: nat, seen: nat)
    | Asleep(sequence: nat, seen: nat) | Late(sequence: nat, seen: nat)

  /** A reader's cursor, and what it makes of the wake flag of the segment it is in. */
  datatype Reader = Reader(segment: nat, taken: nat, at: ReaderAt, untrusted: bool, miss: Option<nat>)

  /** `waking` is whether the writer there is wakes its readers. */
  datatype State = State(segments: seq<Segment>, writer: WriterAt, waking: bool, readers: seq<Reader>)

  /** A writer that takes over and wakes sets the flag; an older one, which knows no flag, leaves it as it is. */
  datatype Step =
    | Commit | Roll | Bump | WakeAll | Die | TakeOver(waking: bool)
    | Load(i: nat) | Look(i: nat) | Wait(i: nat) | TimeOut(i: nat, full: bool)

  /** Something at the reader's cursor: a record, or the Roll that ends its segment. */
  predicate Unread(s: State, r: Reader)
    requires r.segment < |s.segments|
  {
    r.taken < s.segments[r.segment].committed || s.segments[r.segment].rolled
  }

  /** The word of a segment holds the value seen. */
  predicate Holds(s: State, sequence: nat, seen: nat)
    requires sequence < |s.segments|
  {
    s.segments[sequence].bumps % WORD == seen % WORD
  }

  predicate Enabled(s: State, step: Step) {
    && s.segments != []
    && match step
       case Commit => s.writer == Quiet
       case Roll => s.writer == Quiet
       case Bump => s.writer.Behind? && s.writer.segment < |s.segments|
       case WakeAll => s.writer.Bumped? && s.writer.segment < |s.segments|
       case Die => s.writer != Quiet
       case TakeOver(waking) => s.writer == Quiet
       case Load(i) =>
         && i < |s.readers| && s.readers[i].at == Top && !s.readers[i].untrusted && s.readers[i].segment < |s.segments|
         && s.segments[s.readers[i].segment].flag
       case Look(i) => i < |s.readers| && !s.readers[i].at.Polled? && !s.readers[i].at.Asleep?
         && s.readers[i].segment < |s.segments|
       case Wait(i) => i < |s.readers| && s.readers[i].at.Polled? && s.readers[i].at.sequence < |s.segments|
       case TimeOut(i, full) => i < |s.readers| && s.readers[i].at.Asleep?
  }

  /** A full sleep in the reader's segment ran out, a record is there, and the word still holds the value slept on. */
  predicate Missing(s: State, r: Reader) {
    && r.at.Late? && r.at.sequence == r.segment < |s.segments|
    && r.taken < s.segments[r.segment].committed && Holds(s, r.segment, r.at.seen)
  }

  /** `distrust_flag_if_unwoken`: at the second miss on one value the flag is no longer trusted. */
  function Distrust(r: Reader, seen: nat): Reader {
    if r.miss.Some? && r.miss.value % WORD == seen % WORD then r.(untrusted := true) else r.(miss := Some(seen))
  }

  /** One look at the cursor: take a record, follow a Roll, or find nothing. */
  function Looked(s: State, r: Reader): Reader
    requires r.segment < |s.segments| && !r.at.Polled? && !r.at.Asleep?
  {
    var g := s.segments[r.segment];
    if r.taken < g.committed then
      // A record: the wait is over, and the reader goes on to take it.
      (if Missing(s, r) then Distrust(r, r.at.seen) else r).(taken := r.taken + 1, at := Top)
    else if g.rolled && r.segment + 1 < |s.segments| then
      r.(segment := r.segment + 1, taken := 0, untrusted := false, miss := None)
    else
      r.(at := if r.at.Loaded? then Polled(r.at.sequence, r.at.seen) else Top)
  }

  /** After a look that found nothing: look again if it followed a roll; else sleep, unless the word has changed. */
  function Waited(s: State, r: Reader): Reader
    requires r.at.Polled? && r.at.sequence < |s.segments|
  {
    if r.segment != r.at.sequence then r.(at := Top)
    else if Holds(s, r.at.sequence, r.at.seen) then r.(at := Asleep(r.at.sequence, r.at.seen))
    else r.(at := Top)
  }

  function Woken(r: Reader, sequence: nat): Reader {
    if r.at.Asleep? && r.at.sequence == sequence then r.(at := Top) else r
  }

  function WakeReaders(readers: seq<Reader>, sequence: nat): (woken: seq<Reader>)
    ensures |woken| == |readers| && forall i :: 0 <= i < |readers| ==> woken[i] == Woken(readers[i], sequence)
  {
    seq(|readers|, i requires 0 <= i < |readers| => Woken(readers[i], sequence))
  }

  function LoadedBy(s: State, r: Reader): Reader
    requires r.segment < |s.segments|
  {
    r.(at := Loaded(r.segment, s.segments[r.segment].bumps))
  }

  function TimedOut(r: Reader, full: bool): Reader {
    if r.at.Asleep? then r.(at := if full then Late(r.at.sequence, r.at.seen) else Top) else r
  }

  /** The writer's next stop after publishing in segment `k`. */
  function Publishing(s: State, k: nat): WriterAt {
    if s.waking then Behind(k) else Quiet
  }

  function Apply(s: State, step: Step): State
    requires Enabled(s, step)
  {
    var last := |s.segments| - 1;
    match step
    case Commit =>
      var g := s.segments[last];
      s.(segments := s.segments[last := g.(committed := g.committed + 1, due := true)], writer := Publishing(s, last))
    case Roll =>
      var g := s.segments[last];
      s.(segments := s.segments[last := g.(rolled := true, due := true)]
          + [Segment(0, false, s.waking, 0, false, false)],
         writer := Publishing(s, last))
    case Bump =>
      var k := s.writer.segment;
      var g := s.segments[k];
      s.(segments := s.segments[k := g.(bumps := g.bumps + 1, due := false, calling := true)], writer := Bumped(k))
    case WakeAll =>
      var k := s.writer.segment;
      s.(segments := s.segments[k := s.segments[k].(calling := false)], readers := WakeReaders(s.readers, k),
          writer := Quiet)
    case Die => s.(writer := Quiet)
    case TakeOver(waking) =>
      var g := s.segments[last];
      s.(segments := s.segments[last := g.(flag := g.flag || waking)], waking := waking)
    case Load(i) => s.(readers := s.readers[i := LoadedBy(s, s.readers[i])])
    case Look(i) => s.(readers := s.readers[i := Looked(s, s.readers[i])])
    case Wait(i) => s.(readers := s.readers[i := Waited(s, s.readers[i])])
    case TimeOut(i, full) => s.(readers := s.readers[i := TimedOut(s.readers[i], full)])
  }

  // ---------- the invariant ----------

  /** Something published in segment `k` is not woken for yet. */
  predicate Owed(s: State, k: nat)
    requires k < |s.segments|
  {
    s.segments[k].due || s.segments[k].calling
  }

  /** What a reader that has looked, or sleeps, may have missed is owed a waking. */
  ghost predicate ReaderHolds(s: State, r: Reader) {
    && r.segment < |s.segments| && r.taken <= s.segments[r.segment].committed
    && (r.at != Top ==> r.at.sequence <= r.segment && r.at.seen <= s.segments[r.at.sequence].bumps)
    && (r.at.Polled? && r.at.sequence == r.segment && s.segments[r.segment].bumps == r.at.seen && Unread(s, r) ==>
        s.segments[r.segment].due)
    && (r.at.Asleep? ==> r.at.sequence == r.segment && (Unread(s, r) ==> Owed(s, r.segment)))
    && (r.miss.Some? ==> r.miss.value <= s.segments[r.segment].bumps)
  }

  ghost predicate WriterHolds(s: State) {
    && s.segments != []
    && (forall k :: 0 <= k < |s.segments| ==> (s.segments[k].rolled <==> k < |s.segments| - 1))
    && (s.writer != Quiet ==> s.waking && s.writer.segment < |s.segments| && |s.segments| <= s.writer.segment + 2)
    && (s.writer.Behind? ==> s.segments[s.writer.segment].due)
    && (s.writer.Bumped? ==> s.segments[s.writer.segment].calling)
  }

  ghost predicate Inv(s: State) {
    WriterHolds(s) && forall i :: 0 <= i < |s.readers| ==> ReaderHolds(s, s.readers[i])
  }

  /** Since any value a reader still holds was loaded, its word was bumped fewer than 2^32 times. */
  ghost predicate NoWrap(s: State) {
    forall i :: 0 <= i < |s.readers| ==> Fresh(s, s.readers[i])
  }

  predicate Fresh(s: State, r: Reader) {
    r.segment < |s.segments| ==>
      && (r.at != Top && r.at.sequence < |s.segments| ==> s.segments[r.at.sequence].bumps < r.at.seen + WORD)
      && (r.miss.Some? ==> s.segments[r.segment].bumps < r.miss.value + WORD)
  }

  // ---------- every step keeps it ----------

  lemma SameWord(bumps: nat, seen: nat)
    requires seen <= bumps < seen + WORD && bumps % WORD == seen % WORD
    ensures bumps == seen
  {
  }

  predicate ByWriter(step: Step) {
    step.Commit? || step.Roll? || step.Bump? || step.Die? || step.TakeOver?
  }

  /** A reader that does nothing, while the writer takes a step. */
  lemma OthersKept(s: State, step: Step, r: Reader)
    requires Inv(s) && Enabled(s, step) && ByWriter(step) && ReaderHolds(s, r)
    ensures ReaderHolds(Apply(s, step), r)
  {
  }

  lemma WokenKept(s: State, r: Reader)
    requires Inv(s) && Enabled(s, WakeAll) && ReaderHolds(s, r)
    ensures ReaderHolds(Apply(s, WakeAll), Woken(r, s.writer.segment))
  {
  }

  /** What a reader may hold depends on the segments only. */
  lemma SameGround(s: State, t: State, r: Reader)
    requires ReaderHolds(s, r) && t.segments == s.segments
    ensures ReaderHolds(t, r)
  {
  }

  lemma LookKept(s: State, r: Reader)
    requires WriterHolds(s) && ReaderHolds(s, r) && !r.at.Polled? && !r.at.Asleep?
    ensures ReaderHolds(s, Looked(s, r))
  {
  }

  lemma WaitKept(s: State, r: Reader)
    requires ReaderHolds(s, r) && Fresh(s, r) && r.at.Polled?
    ensures ReaderHolds(s, Waited(s, r))
  {
    if r.segment == r.at.sequence && Holds(s, r.at.sequence, r.at.seen) {
      SameWord(s.segments[r.segment].bumps, r.at.seen);
    }
  }

  lemma LoadKept(s: State, r: Reader)
    requires ReaderHolds(s, r)
    ensures r.segment < |s.segments| && ReaderHolds(s, LoadedBy(s, r))
  {
  }

  lemma TimedOutKept(s: State, r: Reader, full: bool)
    requires ReaderHolds(s, r)
    ensures ReaderHolds(s, TimedOut(r, full))
  {
  }

  lemma WriterKept(s: State, step: Step)
    requires Inv(s) && Enabled(s, step)
    ensures WriterHolds(Apply(s, step))
  {
    hide ReaderHolds, Looked, Waited;
  }

  lemma StepKeeps(s: State, step: Step)
    requires Inv(s) && NoWrap(s) && Enabled(s, step)
    ensures Inv(Apply(s, step))
  {
    hide ReaderHolds, Fresh, Looked, Waited, Woken, WriterHolds;
    WriterKept(s, step);
    var t := Apply(s, step);
    forall i | 0 <= i < |t.readers|
      ensures ReaderHolds(t, t.readers[i])
    {
      var r := s.readers[i];
      assert ReaderHolds(s, r);
      if ByWriter(step) {
        OthersKept(s, step, r);
      } else if step == WakeAll {
        WokenKept(s, r);
      } else {
        OwnStepKept(s, step, i, r);
        SameGround(s, t, t.readers[i]);
      }
    }
  }

  /** What a reader holds after a step of some reader's. */
  lemma OwnStepKept(s: State, step: Step, i: nat, r: Reader)
    requires Inv(s) && NoWrap(s) && Enabled(s, step) && !ByWriter(step) && step != WakeAll
    requires i < |s.readers| && r == s.readers[i] && ReaderHolds(s, r)
    ensures |Apply(s, step).readers| == |s.readers| && ReaderHolds(s, Apply(s, step).readers[i])
  {
    hide ReaderHolds, Fresh, Looked, Waited, WriterHolds;
    match step
    case Load(j) => if j == i { LoadKept(s, r); }
    case Look(j) => if j == i { LookKept(s, r); }
    case Wait(j) => if j == i { assert Fresh(s, r); WaitKept(s, r); }
    case TimeOut(j, full) => if j == i { TimedOutKept(s, r, full); }
    case _ =>
  }

  // ---------- over whole runs ----------

  /** Any run at all: one step after another, whatever the words do. */
  ghost predicate Plays(r: seq<State>, steps: seq<Step>) {
    |r| == |steps| + 1 && forall i :: 0 <= i < |steps| ==> Enabled(r[i], steps[i]) && r[i + 1] == Apply(r[i], steps[i])
  }

  /** A run in which no word wraps under a value a reader still holds. */
  ghost predicate Run(r: seq<State>, steps: seq<Step>) {
    Plays(r, steps) && Inv(r[0]) && forall i :: 0 <= i < |steps| ==> NoWrap(r[i])
  }

  lemma {:induction false} RunHolds(r: seq<State>, steps: seq<Step>, i: nat)
    requires Run(r, steps) && i < |r|
    ensures Inv(r[i])
  {
    hide Inv, NoWrap, Enabled, Apply;
    if i > 0 {
      RunHolds(r, steps, i - 1);
      StepKeeps(r[i - 1], steps[i - 1]);
    }
  }

  lemma {:induction false} SameReaders(r: seq<State>, steps: seq<Step>, i: nat)
    requires Run(r, steps) && i < |r|
    ensures |r[i].readers| == |r[0].readers|
  {
    hide Inv, NoWrap;
    if i > 0 { SameReaders(r, steps, i - 1); }
  }

  /** Reader `i` sleeps although there is something at its cursor. */
  predicate Misses(s: State, i: nat)
    requires i < |s.readers|
  {
    s.readers[i].at.Asleep? && s.readers[i].segment < |s.segments| && Unread(s, s.readers[i])
  }

  /** Whoever sleeps on something unread is owed a waking: in no run does one that has been made pass it by. */
  lemma SleepersOwed(r: seq<State>, steps: seq<Step>, n: nat, i: nat)
    requires Run(r, steps) && n < |r| && i < |r[n].readers| && Misses(r[n], i)
    ensures Owed(r[n], r[n].readers[i].segment)
  {
    hide Run;
    RunHolds(r, steps, n);
    assert ReaderHolds(r[n], r[n].readers[i]);
  }

  /** The writer dies at no step of a run, and every writer wakes its readers. */
  predicate AllWake(steps: seq<Step>) {
    forall m :: 0 <= m < |steps| ==> steps[m] != Die && steps[m] != TakeOver(false)
  }

  /** What is owed is just what the writer is about to do. */
  ghost predicate PaysUp(s: State) {
    && s.waking
    && (forall k :: 0 <= k < |s.segments| && s.segments[k].due ==> s.writer == Behind(k))
    && (forall k :: 0 <= k < |s.segments| && s.segments[k].calling ==> s.writer == Bumped(k))
  }

  lemma {:induction false} PaysThroughout(r: seq<State>, steps: seq<Step>, n: nat)
    requires Run(r, steps) && AllWake(steps) && PaysUp(r[0]) && n < |r|
    ensures PaysUp(r[n])
  {
    hide Inv, NoWrap;
    if n > 0 {
      PaysThroughout(r, steps, n - 1);
      PaysStep(r[n - 1], steps[n - 1]);
    }
  }

  lemma PaysStep(s: State, step: Step)
    requires PaysUp(s) && Enabled(s, step) && step != Die && step != TakeOver(false)
    ensures PaysUp(Apply(s, step))
  {
    hide Looked, Waited;
  }

  /**
   * No lost wake-up: whenever the writer has finished waking for what it last published, no reader sleeps on
   * anything unread.
   */
  lemma NoLostWakeUp(r: seq<State>, steps: seq<Step>, n: nat, i: nat)
    requires Run(r, steps) && AllWake(steps) && PaysUp(r[0]) && n < |r| && r[n].writer == Quiet && i < |r[n].readers|
    ensures !Misses(r[n], i)
  {
    hide Run, AllWake;
    PaysThroughout(r, steps, n);
    if Misses(r[n], i) { SleepersOwed(r, steps, n, i); }
  }

  /**
   * Even after deaths, and writers that did not wake: once a writer has woken a segment's sleepers, none of
   * them sleeps there.
   */
  lemma WakingWakesAll(s: State, i: nat)
    requires Enabled(s, WakeAll) && i < |s.readers|
    ensures var t := Apply(s, WakeAll); !(t.readers[i].at.Asleep? && t.readers[i].at.sequence == s.writer.segment)
  {
  }

  // ---------- when a flag is distrusted ----------

  /** Step `m` is a look of reader `i` that misses in segment `k`, whose word was bumped `v` times. */
  ghost predicate MissAt(r: seq<State>, steps: seq<Step>, m: nat, i: nat, k: nat, v: nat)
    requires |r| == |steps| + 1
  {
    && m < |steps| && steps[m] == Look(i) && i < |r[m].readers|
    && r[m].readers[i].segment == k && Missing(r[m], r[m].readers[i]) && r[m].segments[k].bumps == v
  }

  /** Reader `i` has missed twice in segment `k` without a bump of its word in between. */
  ghost predicate TwiceMissed(r: seq<State>, steps: seq<Step>, n: nat, i: nat, k: nat)
    requires |r| == |steps| + 1
  {
    exists a, b, v :: 0 <= a < b < n && MissAt(r, steps, a, i, k, v) && MissAt(r, steps, b, i, k, v)
  }

  ghost predicate OnceMissed(r: seq<State>, steps: seq<Step>, n: nat, i: nat, k: nat, v: nat)
    requires |r| == |steps| + 1
  {
    exists a :: 0 <= a < n && MissAt(r, steps, a, i, k, v)
  }

  /** What one step makes of a reader's trust. */
  lemma TrustStep(s: State, step: Step, i: nat)
    requires Inv(s) && NoWrap(s) && Enabled(s, step) && i < |s.readers|
    ensures i < |Apply(s, step).readers|
    ensures var q, t := s.readers[i], Apply(s, step).readers[i];
      && q.segment < |s.segments| && q.segment <= t.segment
      && (t.segment != q.segment ==> t.miss == None && !t.untrusted)
      && (t.segment == q.segment && !(step == Look(i) && Missing(s, q)) ==>
          t.miss == q.miss && t.untrusted == q.untrusted)
      && (step == Look(i) && Missing(s, q) ==>
            t.segment == q.segment && t.untrusted == (q.untrusted || q.miss == Some(s.segments[q.segment].bumps)))
      && (step == Look(i) && Missing(s, q) && q.miss != Some(s.segments[q.segment].bumps) ==>
          t.miss == Some(s.segments[q.segment].bumps))
      && (step == Look(i) && Missing(s, q) && q.miss == Some(s.segments[q.segment].bumps) ==> t.miss == q.miss)
  {
    assert ReaderHolds(s, s.readers[i]) && Fresh(s, s.readers[i]);
    var q := s.readers[i];
    if Missing(s, q) {
      SameWord(s.segments[q.segment].bumps, q.at.seen);
      if q.miss.Some? && q.miss.value % WORD == q.at.seen % WORD {
        SameWord(s.segments[q.segment].bumps, q.miss.value); }
    }
  }

  /** The bumps of a segment never become fewer. */
  lemma BumpsGrow(s: State, step: Step, k: nat)
    requires Enabled(s, step) && k < |s.segments|
    ensures k < |Apply(s, step).segments| && s.segments[k].bumps <= Apply(s, step).segments[k].bumps
  {
    hide Looked, Waited;
  }

  lemma {:induction false} BumpsSince(r: seq<State>, steps: seq<Step>, a: nat, b: nat, k: nat)
    requires Run(r, steps) && a <= b < |r| && k < |r[a].segments|
    ensures k < |r[b].segments| && r[a].segments[k].bumps <= r[b].segments[k].bumps
    decreases b
  {
    hide Inv, NoWrap, Enabled, Apply;
    if a < b {
      BumpsSince(r, steps, a, b - 1, k);
      BumpsGrow(r[b - 1], steps[b - 1], k);
    }
  }

  /**
   * A reader that starts out trusting: what it remembers of a miss was one, and it distrusts only after two
   * on one value.
   */
  lemma {:induction false} TrustTraced(r: seq<State>, steps: seq<Step>, n: nat, i: nat)
    requires Run(r, steps) && n < |r| && i < |r[0].readers| && r[0].readers[i].miss == None
    requires !r[0].readers[i].untrusted
    ensures i < |r[n].readers|
    ensures r[n].readers[i].miss.Some? ==>
      OnceMissed(r, steps, n, i, r[n].readers[i].segment, r[n].readers[i].miss.value)
    ensures r[n].readers[i].untrusted ==> TwiceMissed(r, steps, n, i, r[n].readers[i].segment)
  {
    hide Inv, NoWrap, Enabled, Apply, Missing;
    if n > 0 {
      var m := n - 1;
      TrustTraced(r, steps, m, i);
      RunHolds(r, steps, m);
      TrustStep(r[m], steps[m], i);
      var q, t, k := r[m].readers[i], r[n].readers[i], r[n].readers[i].segment;
      if steps[m] == Look(i) && Missing(r[m], q) {
        assert MissAt(r, steps, m, i, k, r[m].segments[k].bumps);
      }
      if t.miss.Some? && t.segment == q.segment && t.miss == q.miss {
        var a :| 0 <= a < m && MissAt(r, steps, a, i, k, q.miss.value);
        assert MissAt(r, steps, a, i, k, t.miss.value);
      }
      if t.untrusted && q.untrusted && t.segment == q.segment {
        var a, b, v :| 0 <= a < b < m && MissAt(r, steps, a, i, k, v) && MissAt(r, steps, b, i, k, v);
        assert MissAt(r, steps, a, i, k, v) && MissAt(r, steps, b, i, k, v);
      }
    }
  }

  /** After a miss the reader, while in that segment, distrusts its flag or remembers a miss on no older a value. */
  lemma {:induction false} MissKept(r: seq<State>, steps: seq<Step>, a: nat, n: nat, i: nat, k: nat, v: nat)
    requires Run(r, steps) && a < n < |r| && MissAt(r, steps, a, i, k, v)
    ensures i < |r[n].readers| && k <= r[n].readers[i].segment
    ensures r[n].readers[i].segment == k ==>
      r[n].readers[i].untrusted || (r[n].readers[i].miss.Some? && v <= r[n].readers[i].miss.value)
    decreases n
  {
    hide Inv, NoWrap, Enabled, Apply, Missing;
    var m := n - 1;
    RunHolds(r, steps, m);
    SameReaders(r, steps, m);
    SameReaders(r, steps, a);
    TrustStep(r[m], steps[m], i);
    if a < m {
      MissKept(r, steps, a, m, i, k, v);
      MissedWithin(r[a], i, k);
      BumpsSince(r, steps, a, m, k);
    }
  }

  lemma MissedWithin(s: State, i: nat, k: nat)
    requires i < |s.readers| && s.readers[i].segment == k && Missing(s, s.readers[i])
    ensures k < |s.segments|
  {
  }

  /**
   * Over any run, a reader distrusts the flag of the segment it is in if and only if it has twice found a
   * record there after a full sleep, with the word not bumped in between.
   */
  lemma DistrustExact(r: seq<State>, steps: seq<Step>, n: nat, i: nat)
    requires Run(r, steps) && n < |r| && i < |r[0].readers| && r[0].readers[i].miss == None
    requires !r[0].readers[i].untrusted
    ensures i < |r[n].readers|
    ensures r[n].readers[i].untrusted <==> TwiceMissed(r, steps, n, i, r[n].readers[i].segment)
  {
    hide NoWrap, Enabled, Apply, Missing, Inv;
    TrustTraced(r, steps, n, i);
    var k := r[n].readers[i].segment;
    if TwiceMissed(r, steps, n, i, k) {
      var a, b, v :| 0 <= a < b < n && MissAt(r, steps, a, i, k, v) && MissAt(r, steps, b, i, k, v);
      SecondMiss(r, steps, a, b, i, k, v);
      StaysUntrusted(r, steps, b + 1, n, i, k);
    }
  }

  /** The second miss on one value makes the flag distrusted. */
  lemma SecondMiss(r: seq<State>, steps: seq<Step>, a: nat, b: nat, i: nat, k: nat, v: nat)
    requires Run(r, steps) && a < b && MissAt(r, steps, a, i, k, v) && MissAt(r, steps, b, i, k, v)
    ensures i < |r[b + 1].readers| && r[b + 1].readers[i].untrusted && r[b + 1].readers[i].segment == k
  {
    hide NoWrap, Enabled, Apply, Missing, WriterHolds;
    MissKept(r, steps, a, b, i, k, v);
    RunHolds(r, steps, b);
    assert ReaderHolds(r[b], r[b].readers[i]);
    TrustStep(r[b], steps[b], i);
  }

  /** Trust lost is not regained before the next segment. */
  lemma {:induction false} StaysUntrusted(r: seq<State>, steps: seq<Step>, a: nat, n: nat, i: nat, k: nat)
    requires Run(r, steps) && a <= n < |r| && i < |r[a].readers| && r[a].readers[i].untrusted
    requires r[a].readers[i].segment == k
    ensures i < |r[n].readers| && k <= r[n].readers[i].segment
    ensures r[n].readers[i].segment == k ==> r[n].readers[i].untrusted
    decreases n
  {
    hide Inv, NoWrap, Enabled, Apply, Missing;
    if a < n {
      StaysUntrusted(r, steps, a, n - 1, i, k);
      RunHolds(r, steps, n - 1);
      TrustStep(r[n - 1], steps[n - 1], i);
    }
  }

  // ---------- a writer that wakes is never distrusted, unless one died ----------

  /** Nothing at the cursor, or just what the writer has published and not yet bumped for. */
  ghost predicate AtMostOne(s: State, r: Reader)
    requires r.segment < |s.segments|
  {
    var g := s.segments[r.segment];
    Unread(s, r) ==>
      s.writer == Behind(r.segment) && (if g.rolled then r.taken == g.committed else r.taken + 1 == g.committed)
  }

  /** Every writer so far has bumped for what it published, or is about to. */
  ghost predicate ReaderTrusts(s: State, r: Reader)
    requires ReaderHolds(s, r)
  {
    && (r.at.Polled? || r.at.Asleep? || r.at.Late? ==>
         (r.at.sequence == r.segment && s.segments[r.segment].bumps == r.at.seen ==> AtMostOne(s, r)))
    && (r.miss == Some(s.segments[r.segment].bumps) ==> s.writer == Behind(r.segment) && !Unread(s, r))
    && !r.untrusted
  }

  ghost predicate Trusting(s: State) {
    Inv(s) && s.waking && forall i :: 0 <= i < |s.readers| ==> ReaderTrusts(s, s.readers[i])
  }

  /** The writer dies between publishing and bumping, or one that does not wake takes over. */
  predicate LeavesOwing(s: State, step: Step) {
    (step == Die && s.writer.Behind?) || step == TakeOver(false)
  }

  lemma OthersTrust(s: State, step: Step, r: Reader)
    requires Trusting(s) && Enabled(s, step) && (ByWriter(step) || step == WakeAll) && !LeavesOwing(s, step)
    requires step != Bump
    requires ReaderHolds(s, r) && ReaderTrusts(s, r) && ReaderHolds(Apply(s, step), r)
    ensures ReaderTrusts(Apply(s, step), r)
  {
  }

  lemma BumpTrusts(s: State, r: Reader)
    requires Trusting(s) && Enabled(s, Bump) && ReaderHolds(s, r) && ReaderTrusts(s, r)
    requires ReaderHolds(Apply(s, Bump), r)
    ensures ReaderTrusts(Apply(s, Bump), r)
  {
  }

  lemma LookTrusts(s: State, r: Reader)
    requires Trusting(s) && ReaderHolds(s, r) && ReaderTrusts(s, r) && Fresh(s, r) && !r.at.Polled? && !r.at.Asleep?
    requires ReaderHolds(s, Looked(s, r))
    ensures ReaderTrusts(s, Looked(s, r))
  {
    if Missing(s, r) {
      SameWord(s.segments[r.segment].bumps, r.at.seen);
      if r.miss.Some? && r.miss.value % WORD == r.at.seen % WORD {
        SameWord(s.segments[r.segment].bumps, r.miss.value);
      }
    }
  }

  lemma WaitTrusts(s: State, r: Reader)
    requires ReaderHolds(s, r) && ReaderTrusts(s, r) && r.at.Polled? && ReaderHolds(s, Waited(s, r))
    ensures ReaderTrusts(s, Waited(s, r))
  {
  }

  lemma TrustKept(s: State, step: Step)
    requires Trusting(s) && NoWrap(s) && Enabled(s, step) && !LeavesOwing(s, step)
    ensures Trusting(Apply(s, step))
  {
    hide ReaderHolds, ReaderTrusts, Fresh, Looked, Waited, Woken, WriterHolds;
    StepKeeps(s, step);
    var t := Apply(s, step);
    forall i | 0 <= i < |t.readers|
      ensures ReaderTrusts(t, t.readers[i])
    {
      TrustKeptBy(s, step, i);
    }
  }

  lemma TrustKeptBy(s: State, step: Step, i: nat)
    requires Trusting(s) && NoWrap(s) && Enabled(s, step) && !LeavesOwing(s, step) && Inv(Apply(s, step))
    requires i < |Apply(s, step).readers|
    ensures ReaderTrusts(Apply(s, step), Apply(s, step).readers[i])
  {
    hide ReaderHolds, ReaderTrusts, Fresh, Looked, Waited, Woken, WriterHolds;
    var t, r := Apply(s, step), s.readers[i];
    assert ReaderHolds(s, r) && ReaderTrusts(s, r) && Fresh(s, r) && ReaderHolds(t, t.readers[i]);
    match step
    case Load(j) => if j == i { LoadTrusts(s, t, r); } else { TrustsAlike(s, t, r); }
    case Look(j) => if j == i { LookKept(s, r); LookTrusts(s, r); TrustsAlike(s, t, Looked(s, r)); } else {
      TrustsAlike(s, t, r); }
    case Wait(j) => if j == i { WaitKept(s, r); WaitTrusts(s, r); TrustsAlike(s, t, Waited(s, r)); } else {
      TrustsAlike(s, t, r); }
    case TimeOut(j, full) => if j == i { LateTrusts(s, t, r, full); } else { TrustsAlike(s, t, r); }
    case WakeAll => AwakeTrusts(s, r);
    case Bump => BumpTrusts(s, r);
    case _ => OthersTrust(s, step, r);
  }

  lemma TrustsAlike(s: State, t: State, r: Reader)
    requires ReaderHolds(s, r) && ReaderHolds(t, r) && ReaderTrusts(s, r) && t.segments == s.segments
    requires t.writer == s.writer
    ensures ReaderTrusts(t, r)
  {
  }

  lemma LoadTrusts(s: State, t: State, r: Reader)
    requires ReaderHolds(s, r) && ReaderTrusts(s, r) && t.segments == s.segments && t.writer == s.writer
    requires ReaderHolds(t, LoadedBy(s, r))
    ensures ReaderTrusts(t, LoadedBy(s, r))
  {
  }

  lemma LateTrusts(s: State, t: State, r: Reader, full: bool)
    requires ReaderHolds(s, r) && ReaderTrusts(s, r) && t.segments == s.segments && t.writer == s.writer
    requires ReaderHolds(t, TimedOut(r, full))
    ensures ReaderTrusts(t, TimedOut(r, full))
  {
  }

  lemma AwakeTrusts(s: State, r: Reader)
    requires Trusting(s) && Enabled(s, WakeAll) && ReaderHolds(s, r) && ReaderTrusts(s, r)
    requires ReaderHolds(Apply(s, WakeAll), Woken(r, s.writer.segment))
    ensures ReaderTrusts(Apply(s, WakeAll), Woken(r, s.writer.segment))
  {
  }

  lemma {:induction false} TrustThroughout(r: seq<State>, steps: seq<Step>, n: nat)
    requires Run(r, steps) && Trusting(r[0]) && n < |r|
    requires forall m :: 0 <= m < n ==> !LeavesOwing(r[m], steps[m])
    ensures Trusting(r[n])
  {
    hide Inv, NoWrap, Enabled, Apply, Trusting, LeavesOwing;
    if n > 0 {
      TrustThroughout(r, steps, n - 1);
      TrustKept(r[n - 1], steps[n - 1]);
    }
  }

  /**
   * A waking writer's flag is never distrusted, however long the writer is held up between publishing and
   * bumping: if one is, some writer died between the two, or one that does not wake took over.
   */
  lemma NeverDistrusted(r: seq<State>, steps: seq<Step>, n: nat, i: nat)
    requires Run(r, steps) && Trusting(r[0]) && n < |r| && i < |r[n].readers| && r[n].readers[i].untrusted
    ensures exists m :: 0 <= m < n && LeavesOwing(r[m], steps[m])
  {
    hide NoWrap, Enabled, Apply, LeavesOwing, Inv;
    if forall m :: 0 <= m < n ==> !LeavesOwing(r[m], steps[m]) {
      TrustThroughout(r, steps, n);
      TrustsAll(r[n], i);
    }
  }

  lemma TrustsAll(s: State, i: nat)
    requires Trusting(s) && i < |s.readers|
    ensures !s.readers[i].untrusted
  {
    assert ReaderTrusts(s, s.readers[i]);
  }

  // ---------- a writer that does not wake ----------

  lemma {:induction false} SilentBumps(r: seq<State>, steps: seq<Step>, a: nat, b: nat, k: nat)
    requires Run(r, steps) && a <= b < |r| && k < |r[a].segments|
    requires forall m :: a <= m < b ==> !r[m].waking
    ensures k < |r[b].segments| && r[b].segments[k].bumps == r[a].segments[k].bumps
    decreases b
  {
    hide Inv, NoWrap;
    if a < b {
      SilentBumps(r, steps, a, b - 1, k);
      RunHolds(r, steps, b - 1);
      SilentStep(r[b - 1], steps[b - 1], k);
    }
  }

  lemma SilentStep(s: State, step: Step, k: nat)
    requires Inv(s) && Enabled(s, step) && !s.waking && k < |s.segments|
    ensures k < |Apply(s, step).segments| && Apply(s, step).segments[k].bumps == s.segments[k].bumps
  {
    hide Looked, Waited, ReaderHolds;
  }

  /** Reader `i` looks at step `m`, a full sleep in segment `k` having run out, and finds a record. */
  ghost predicate FoundLate(r: seq<State>, steps: seq<Step>, m: nat, i: nat, k: nat, seen: nat)
    requires |r| == |steps| + 1
  {
    && m < |steps| && steps[m] == Look(i) && i < |r[m].readers| && k < |r[m].segments|
    && r[m].readers[i].segment == k && r[m].readers[i].at == Late(k, seen)
    && r[m].readers[i].taken < r[m].segments[k].committed
  }

  /**
   * A writer that does not wake is caught: with it at work since moment `o`, the second full sleep begun
   * since then that runs out with a record there makes the flag distrusted; the first does not.
   */
  lemma SilentWriterCaught(r: seq<State>, steps: seq<Step>, o: nat, a: nat, b: nat, i: nat, k: nat)
    requires Run(r, steps) && o <= a < b < |steps| && k < |r[o].segments|
    requires forall m :: o <= m <= b ==> !r[m].waking
    requires FoundLate(r, steps, a, i, k, r[o].segments[k].bumps)
    requires FoundLate(r, steps, b, i, k, r[o].segments[k].bumps)
    ensures i < |r[b + 1].readers| && r[b + 1].readers[i].untrusted && r[b + 1].readers[i].segment == k
    ensures r[a].readers[i].miss == None && !r[a].readers[i].untrusted ==>
      i < |r[a + 1].readers| && !r[a + 1].readers[i].untrusted
  {
    hide Inv, NoWrap, Enabled, Apply;
    SilentBumps(r, steps, o, a, k);
    SilentBumps(r, steps, o, b, k);
    var v := r[o].segments[k].bumps;
    assert MissAt(r, steps, a, i, k, v) && MissAt(r, steps, b, i, k, v);
    SecondMiss(r, steps, a, b, i, k, v);
    RunHolds(r, steps, a);
    TrustStep(r[a], steps[a], i);
  }

  // ---------- a writer's death that misleads ----------

  /** A run in which no word wraps, given by its steps alone: they can be taken from `s` and lead to `t`. */
  ghost predicate Leads(s: State, steps: seq<Step>, t: State)
    decreases |steps|
  {
    if steps == [] then t == s else NoWrap(s) && Enabled(s, steps[0]) && Leads(Apply(s, steps[0]), steps[1..], t)
  }

  lemma {:induction false} LeadsStep(s: State, steps: seq<Step>, t: State, step: Step)
    requires Leads(s, steps, t) && NoWrap(t) && Enabled(t, step)
    ensures Leads(s, steps + [step], Apply(t, step))
    decreases |steps|
  {
    hide Enabled, Apply, NoWrap;
    if steps == [] {
      assert steps + [step] == [step] && [step][1..] == [];
      assert Leads(Apply(t, step), [], Apply(t, step));
    } else {
      LeadsStep(Apply(s, steps[0]), steps[1..], t, step);
      assert (steps + [step])[1..] == steps[1..] + [step];
    }
  }

  lemma {:induction false} LedRun(s: State, steps: seq<Step>, t: State) returns (r: seq<State>)
    requires Inv(s) && Leads(s, steps, t)
    ensures Run(r, steps) && r != [] && r[0] == s && r[|r| - 1] == t
    decreases |steps|
  {
    hide Inv, Enabled, Apply, NoWrap;
    if steps == [] {
      r := [s];
    } else {
      StepKeeps(s, steps[0]);
      var q := LedRun(Apply(s, steps[0]), steps[1..], t);
      r := [s] + q;
      forall i | 0 <= i < |steps|
        ensures NoWrap(r[i]) && Enabled(r[i], steps[i]) && r[i + 1] == Apply(r[i], steps[i])
      {
        if i > 0 { assert r[i] == q[i - 1] && r[i + 1] == q[i] && steps[i] == steps[1..][i - 1]; }
      }
    }
  }

  /** One segment with `n` records, bumped for none of them, and one reader that has taken them all. */
  function Single(n: nat, due: bool, waking: bool, writer: WriterAt, at: ReaderAt, miss: Option<nat>): State {
    State([Segment(n, false, true, 0, due, false)], writer, waking, [Reader(0, n, at, false, miss)])
  }

  /** Such a reader having taken one more, the word not bumped for that either: a miss, and at the second distrust. */
  function Found(n: nat, waking: bool, miss: Option<nat>): State {
    State([Segment(n + 1, false, true, 0, true, false)], if waking then Behind(0) else Quiet, waking,
          [Reader(0, n + 1, Top, miss == Some(0), Some(0))])
  }

  /** A reader that sleeps in full while a record is published, and finds it with the word not bumped. */
  const FULL_SLEEP: seq<Step> := [Load(0), Look(0), Wait(0), Commit, TimeOut(0, true), Look(0)]

  /** The same with one record more, which the reader has yet to take. */
  function Published(n: nat, waking: bool, at: ReaderAt, miss: Option<nat>): State {
    State([Segment(n + 1, false, true, 0, true, false)], if waking then Behind(0) else Quiet, waking,
          [Reader(0, n, at, false, miss)])
  }

  ghost predicate Goes(s: State, step: Step, t: State) {
    NoWrap(s) && Enabled(s, step) && Apply(s, step) == t
  }

  lemma FallsAsleep(n: nat, due: bool, waking: bool, miss: Option<nat>)
    requires miss == None || miss == Some(0)
    ensures Goes(Single(n, due, waking, Quiet, Top, miss), Load(0), Single(n, due, waking, Quiet, Loaded(0, 0), miss))
    ensures Goes(Single(n, due, waking, Quiet, Loaded(0, 0), miss), Look(0),
        Single(n, due, waking, Quiet, Polled(0, 0), miss))
    ensures Goes(Single(n, due, waking, Quiet, Polled(0, 0), miss), Wait(0),
        Single(n, due, waking, Quiet, Asleep(0, 0), miss))
  {
    var a := Single(n, due, waking, Quiet, Top, miss);
    var b := Single(n, due, waking, Quiet, Loaded(0, 0), miss);
    var c := Single(n, due, waking, Quiet, Polled(0, 0), miss);
    assert Apply(a, Load(0)).readers == b.readers && Apply(b, Look(0)).readers == c.readers;
    assert Apply(c, Wait(0)).readers == Single(n, due, waking, Quiet, Asleep(0, 0), miss).readers;
  }

  lemma PublishedOver(n: nat, due: bool, waking: bool, miss: Option<nat>)
    requires miss == None || miss == Some(0)
    ensures Goes(Single(n, due, waking, Quiet, Asleep(0, 0), miss), Commit, Published(n, waking, Asleep(0, 0), miss))
  {
    var d := Single(n, due, waking, Quiet, Asleep(0, 0), miss);
    assert Apply(d, Commit).segments == Published(n, waking, Asleep(0, 0), miss).segments;
  }

  lemma FindsLate(n: nat, waking: bool, miss: Option<nat>)
    requires miss == None || miss == Some(0)
    ensures Goes(Published(n, waking, Asleep(0, 0), miss), TimeOut(0, true), Published(n, waking, Late(0, 0), miss))
    ensures Goes(Published(n, waking, Late(0, 0), miss), Look(0), Found(n, waking, miss))
  {
    var e, f := Published(n, waking, Asleep(0, 0), miss), Published(n, waking, Late(0, 0), miss);
    assert Apply(e, TimeOut(0, true)).readers == f.readers;
    assert Apply(f, Look(0)).readers == Found(n, waking, miss).readers;
  }

  lemma SleepLeads(s: State, steps: seq<Step>, n: nat, due: bool, waking: bool, miss: Option<nat>)
    requires miss == None || miss == Some(0)
    requires Leads(s, steps, Single(n, due, waking, Quiet, Top, miss))
    ensures Leads(s, steps + FULL_SLEEP, Found(n, waking, miss))
  {
    hide Leads, NoWrap, Enabled, Apply, Single, Published, Found;
    FallsAsleep(n, due, waking, miss);
    PublishedOver(n, due, waking, miss);
    FindsLate(n, waking, miss);
    LeadsStep(s, steps, Single(n, due, waking, Quiet, Top, miss), Load(0));
    LeadsStep(s, steps + [Load(0)], Single(n, due, waking, Quiet, Loaded(0, 0), miss), Look(0));
    LeadsStep(s, steps + [Load(0)] + [Look(0)], Single(n, due, waking, Quiet, Polled(0, 0), miss), Wait(0));
    LeadsStep(s, steps + [Load(0)] + [Look(0)] + [Wait(0)], Single(n, due, waking, Quiet, Asleep(0, 0), miss), Commit);
    LeadsStep(s, steps + [Load(0)] + [Look(0)] + [Wait(0)] + [Commit], Published(n, waking, Asleep(0, 0), miss),
        TimeOut(0, true));
    LeadsStep(s, steps + [Load(0)] + [Look(0)] + [Wait(0)] + [Commit] + [TimeOut(0, true)],
        Published(n, waking, Late(0, 0), miss), Look(0));
    assert steps + FULL_SLEEP
        == steps + [Load(0)] + [Look(0)] + [Wait(0)] + [Commit] + [TimeOut(0, true)] + [Look(0)];
  }

  /**
   * A writer that dies between publishing and bumping leaves a miss behind it that no bump answers: in this
   * run every writer wakes its readers, one dies, and the next one's flag is distrusted as soon as it is
   * held up once between its own two.
   */
  lemma CrashMisleads() returns (r: seq<State>, steps: seq<Step>)
    ensures Run(r, steps) && Trusting(r[0]) && TakeOver(false) !in steps
    ensures r[|r| - 1].waking && |r[|r| - 1].readers| == 1 && r[|r| - 1].readers[0].untrusted
  {
    hide Leads, Enabled, Apply, NoWrap, Inv, Trusting;
    var s := Single(0, false, true, Quiet, Top, None);
    LeadsNowhere(s);
    SingleTrusts();
    SleepLeads(s, [], 0, false, true, None);
    var t := Found(0, true, None);
    Succeeds(t);
    LeadsStep(s, [] + FULL_SLEEP, t, Die);
    LeadsStep(s, [] + FULL_SLEEP + [Die], Apply(t, Die), TakeOver(true));
    SleepLeads(s, [] + FULL_SLEEP + [Die] + [TakeOver(true)], 1, true, true, Some(0));
    steps := [] + FULL_SLEEP + [Die] + [TakeOver(true)] + FULL_SLEEP;
    r := LedRun(s, steps, Found(1, true, Some(0)));
  }

  /** The run in which a writer that does not wake takes over is one in which it is caught. */
  lemma SilentWriterRun() returns (r: seq<State>, steps: seq<Step>)
    ensures Run(r, steps) && Trusting(r[0]) && Die !in steps && steps != [] && steps[0] == TakeOver(false)
    ensures |r[|r| - 1].readers| == 1 && r[|r| - 1].readers[0].untrusted
  {
    hide Leads, Enabled, Apply, NoWrap, Inv, Trusting;
    var s := Single(0, false, true, Quiet, Top, None);
    LeadsNowhere(s);
    SingleTrusts();
    GoesSilent(s);
    LeadsStep(s, [], s, TakeOver(false));
    SleepLeads(s, [] + [TakeOver(false)], 0, false, false, None);
    assert Found(0, false, None) == Single(1, true, false, Quiet, Top, Some(0));
    SleepLeads(s, [] + [TakeOver(false)] + FULL_SLEEP, 1, true, false, Some(0));
    steps := [] + [TakeOver(false)] + FULL_SLEEP + FULL_SLEEP;
    r := LedRun(s, steps, Found(1, false, Some(0)));
  }

  lemma SingleTrusts()
    ensures var s := Single(0, false, true, Quiet, Top, None); Trusting(s) && Inv(s)
  {
  }

  /** One writer dies after publishing the only record, and another that wakes takes over. */
  lemma Succeeds(t: State)
    requires t == Found(0, true, None)
    ensures NoWrap(t) && Enabled(t, Die) && NoWrap(Apply(t, Die)) && Enabled(Apply(t, Die), TakeOver(true))
    ensures Apply(Apply(t, Die), TakeOver(true)) == Single(1, true, true, Quiet, Top, Some(0))
  {
    assert Apply(Apply(t, Die), TakeOver(true)).segments == t.segments;
  }

  lemma GoesSilent(s: State)
    requires s == Single(0, false, true, Quiet, Top, None)
    ensures NoWrap(s) && Enabled(s, TakeOver(false))
    ensures Apply(s, TakeOver(false)) == Single(0, false, false, Quiet, Top, None)
  {
    assert Apply(s, TakeOver(false)).segments == s.segments;
  }

  lemma LeadsNowhere(s: State)
    ensures Leads(s, [], s)
  {
  }

  // ---------- a word that does wrap ----------

  /** The newest segment after `n` more records, each published, bumped and woken for. */
  function Rounds(s: State, n: nat): State
    requires s.segments != []
    ensures Rounds(s, n).segments != []
  {
    var k := |s.segments| - 1;
    var g := s.segments[k];
    if n == 0 then s
    else
      s.(segments := s.segments[k := g.(committed := g.committed + n, bumps := g.bumps + n, due := false,
          calling := false)],
         readers := WakeReaders(s.readers, k))
  }

  /** One round is the writer's three steps. */
  lemma RoundIsSteps(s: State, n: nat)
    requires s.segments != [] && s.writer == Quiet && s.waking
    ensures var a := Rounds(s, n);
      && Enabled(a, Commit) && Enabled(Apply(a, Commit), Bump) && Enabled(Apply(Apply(a, Commit), Bump), WakeAll)
      && Apply(Apply(Apply(a, Commit), Bump), WakeAll) == Rounds(s, n + 1)
  {
    var a, b := Apply(Apply(Apply(Rounds(s, n), Commit), Bump), WakeAll), Rounds(s, n + 1);
    assert a.segments == b.segments;
    assert a.readers == b.readers;
  }

  /** Any number of rounds is a run. */
  lemma {:induction false} RoundsPlay(s: State, n: nat) returns (r: seq<State>, steps: seq<Step>)
    requires s.segments != [] && s.writer == Quiet && s.waking
    ensures Plays(r, steps) && r[0] == s && r[|r| - 1] == Rounds(s, n)
  {
    hide Enabled, Apply, Rounds;
    if n == 0 {
      r, steps := [s], [];
      NoRounds(s);
    } else {
      var q, before := RoundsPlay(s, n - 1);
      RoundIsSteps(s, n - 1);
      var a := Rounds(s, n - 1);
      var b := Apply(a, Commit);
      var c := Apply(b, Bump);
      r, steps := q + [b, c, Apply(c, WakeAll)], before + [Commit, Bump, WakeAll];
      forall i | 0 <= i < |steps|
        ensures Enabled(r[i], steps[i]) && r[i + 1] == Apply(r[i], steps[i])
      {
        if i < |before| { assert r[i] == q[i] && r[i + 1] == q[i + 1] && steps[i] == before[i]; }
      }
    }
  }

  lemma NoRounds(s: State)
    requires s.segments != []
    ensures Rounds(s, 0) == s
  {
  }

  // ---------- what a reader sleeps on, wrapped or not ----------

  /**
   * A reader that has loaded a segment's word and taken nothing since: after two bumps there is something
   * at its cursor, and after one with something published since; and what it has not seen is due, unless the
   * word was bumped since.
   */
  ghost predicate Awaits(s: State, r: Reader) {
    && r.segment < |s.segments| && r.taken <= s.segments[r.segment].committed
    && (r.at != Top ==> r.at.sequence <= r.segment && r.at.seen <= s.segments[r.at.sequence].bumps)
    && ((r.at.Loaded? || r.at.Polled?) && r.at.sequence == r.segment ==>
         Bumped2(s, r) && (s.segments[r.segment].bumps == r.at.seen + 1 && s.segments[r.segment].due ==> Unread(s, r)))
    && (r.at.Polled? && r.at.sequence == r.segment && s.segments[r.segment].bumps == r.at.seen && Unread(s, r) ==>
         s.segments[r.segment].due)
  }

  predicate Bumped2(s: State, r: Reader)
    requires r.segment < |s.segments| && (r.at.Loaded? || r.at.Polled?)
  {
    s.segments[r.segment].bumps >= r.at.seen + 2 ==> Unread(s, r)
  }

  ghost predicate Watched(s: State) {
    WriterHolds(s) && forall i :: 0 <= i < |s.readers| ==> Awaits(s, s.readers[i])
  }

  lemma WriterAlone(s: State, step: Step)
    requires WriterHolds(s) && Enabled(s, step)
    ensures WriterHolds(Apply(s, step))
  {
    hide Looked, Waited;
  }

  lemma AwaitsOthers(s: State, step: Step, r: Reader)
    requires WriterHolds(s) && Enabled(s, step) && (ByWriter(step) || step == WakeAll) && Awaits(s, r)
    ensures Awaits(Apply(s, step), r)
  {
  }

  lemma AwaitsAlike(s: State, t: State, r: Reader)
    requires Awaits(s, r) && t.segments == s.segments
    ensures Awaits(t, r)
  {
  }

  lemma AwaitsWoken(s: State, r: Reader, k: nat)
    requires Awaits(s, r)
    ensures Awaits(s, Woken(r, k))
  {
  }

  lemma AwaitsAnew(s: State, r: Reader, full: bool)
    requires WriterHolds(s) && Awaits(s, r)
    ensures r.segment < |s.segments| && Awaits(s, LoadedBy(s, r)) && Awaits(s, TimedOut(r, full))
    ensures !r.at.Polled? && !r.at.Asleep? ==> Awaits(s, Looked(s, r))
    ensures r.at.Polled? ==> Awaits(s, Waited(s, r))
  {
  }

  lemma WatchKept(s: State, step: Step)
    requires Watched(s) && Enabled(s, step)
    ensures Watched(Apply(s, step))
  {
    hide Awaits, Looked, Waited, Woken, WriterHolds, LoadedBy, TimedOut;
    WriterAlone(s, step);
    var t := Apply(s, step);
    forall i | 0 <= i < |t.readers|
      ensures Awaits(t, t.readers[i])
    {
      var r := s.readers[i];
      assert Awaits(s, r);
      if ByWriter(step) || step == WakeAll {
        AwaitsOthers(s, step, r);
        if step == WakeAll { AwaitsWoken(t, r, s.writer.segment); }
      } else {
        AwaitsAnew(s, r, step.TimeOut? && step.full);
        AwaitsAlike(s, t, t.readers[i]);
      }
    }
  }

  lemma {:induction false} WatchedThroughout(r: seq<State>, steps: seq<Step>, n: nat)
    requires Plays(r, steps) && Watched(r[0]) && n < |r|
    ensures Watched(r[n])
  {
    hide Watched, Enabled, Apply;
    if n > 0 {
      WatchedThroughout(r, steps, n - 1);
      WatchKept(r[n - 1], steps[n - 1]);
    }
  }

  /**
   * In any run, a reader that found nothing goes to sleep on something unread, with no waking owed for it,
   * if and only if its segment's word was bumped a multiple of 2^32 times since it was loaded, not none.
   */
  lemma WrapExact(r: seq<State>, steps: seq<Step>, m: nat, i: nat)
    requires Plays(r, steps) && Watched(r[0]) && m < |steps| && steps[m] == Wait(i) && i < |r[m].readers|
    requires var q := r[m].readers[i];
      q.at.Polled? && q.at.sequence == q.segment < |r[m].segments| && !Owed(r[m], q.segment)
    ensures i < |r[m + 1].readers|
    ensures var q := r[m].readers[i]; var bumps := r[m].segments[q.segment].bumps - q.at.seen;
      Misses(r[m + 1], i) <==> bumps > 0 && bumps % WORD == 0
  {
    hide WriterHolds;
    WatchedThroughout(r, steps, m);
    var q := r[m].readers[i];
    assert Awaits(r[m], q);
    Apart(r[m].segments[q.segment].bumps, q.at.seen);
  }

  lemma Apart(bumps: nat, seen: nat)
    requires seen <= bumps
    ensures bumps % WORD == seen % WORD <==> (bumps - seen) % WORD == 0
  {
  }

  /** And a run does so: 2^32 records pass a reader of the newest segment between its look and its sleep. */
  lemma WrapMisses(s: State, i: nat) returns (r: seq<State>, steps: seq<Step>)
    requires Watched(s) && s.writer == Quiet && s.waking && i < |s.readers|
    requires var q := s.readers[i]; q.segment == |s.segments| - 1 && !Unread(s, q)
    requires var q := s.readers[i]; q.at == Polled(q.segment, s.segments[q.segment].bumps)
    ensures Plays(r, steps) && r[0] == s
    ensures var t := r[|r| - 1]; i < |t.readers| && Misses(t, i) && t.writer == Quiet && !Owed(t, t.readers[i].segment)
  {
    var q, before := RoundsPlay(s, WORD);
    var t := Rounds(s, WORD);
    Apart(t.segments[|s.segments| - 1].bumps, s.readers[i].at.seen);
    r, steps := q + [Apply(t, Wait(i))], before + [Wait(i)];
    forall j | 0 <= j < |steps|
      ensures Enabled(r[j], steps[j]) && r[j + 1] == Apply(r[j], steps[j])
    {
      if j < |before| { assert r[j] == q[j] && r[j + 1] == q[j + 1] && steps[j] == before[j]; }
    }
  }
}
