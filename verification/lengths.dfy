/**
 * Growing a segment file from two threads. The writer and its helper share, under a lock, a view of one
 * segment and its length; after a roll that view may lag behind, and be handed over late with the length
 * the segment had at the roll. Lengths and positions count regions.
 */
module Lengths {
  import opened Wrappers

  /** A segment and the length it is believed to have. */
  datatype View = View(sequence: nat, len: nat)

  /**
   * Where the writer is in `roll_over_region`: between regions, with the next one grown, or moved but not yet
   * published there.
   */
  datatype WriterAt = Steady | Grown | Moved

  /**
   * Where the helper is in an iteration: having loaded where the writer is, or decided to prepare the region
   * after `index`.
   */
  datatype HelperAt = Top | Loaded(sequence: nat, index: nat) | Deciding(sequence: nat, index: nat)

  /**
   * `lengths` are the files' real lengths and `positions` the regions their write positions are in, by
   * segment; `birth` is what a new file starts with.
   */
  datatype State = State(
    birth: nat, lengths: seq<nat>, positions: seq<nat>,
    fileLen: nat, index: nat, writer: WriterAt,
    view: View, handoff: Option<View>, currentSequence: nat, currentIndex: nat,
    next: Option<View>, helper: HelperAt)
  {
    function Newest(): nat
      requires lengths != []
    {
      |lengths| - 1
    }
  }

  datatype Step =
    // the writer; `free` is whether the lock is, `shared` whether the helper could be given a handle on the new file
    | TakeAhead | Grow | Move(free: bool) | Store | Roll(free: bool, shared: bool) | StoreSequence
    // the helper
    | Load | Position | Prepare

  /** The view handed over, if one waits and the lock is free. */
  function HandOff(s: State, free: bool): State {
    if free && s.handoff.Some? then s.(view := s.handoff.value, handoff := None) else s
  }

  predicate Enabled(s: State, step: Step) {
    && s.lengths != [] && |s.positions| == |s.lengths|
    && match step
       case TakeAhead => s.writer == Steady && s.next == Some(View(s.Newest(), s.index + 1))
       case Grow => s.writer == Steady && s.view.sequence < |s.lengths|
       case Move(_) => s.writer == Grown
       case Store => s.writer == Moved
       case Roll(_, _) => s.writer == Steady && s.birth > 0
       case StoreSequence => true
       case Load => s.helper == Top
       case Position => s.helper.Loaded? && s.helper.sequence < |s.positions|
       case Prepare => s.helper.Deciding? && s.helper.sequence < |s.lengths|
  }

  function Apply(s: State, step: Step): State
    requires Enabled(s, step)
  {
    match step
    case TakeAhead =>
      var needed := s.index + 2;
      s.(fileLen := if s.fileLen < needed then needed else s.fileLen, next := None, writer := Grown)
    case Grow =>
      // `ensure_len`, through the shared view if it is of the writer's segment.
      var want := s.index + 2;
      if s.view.sequence == s.Newest() then
        if want > s.view.len
        then s.(lengths := s.lengths[s.Newest() := want], view := View(s.Newest(), want),
            fileLen := if s.fileLen < want then want else s.fileLen, writer := Grown)
        else s.(fileLen := if s.fileLen < s.view.len then s.view.len else s.fileLen, writer := Grown)
      else if want > s.fileLen
      then s.(lengths := s.lengths[s.Newest() := want], fileLen := want, writer := Grown)
      else s.(writer := Grown)
    case Move(free) => HandOff(s.(index := s.index + 1, currentIndex := s.index + 1, writer := Moved), free)
    case Store => s.(positions := s.positions[s.Newest() := s.index], writer := Steady)
    case Roll(free, shared) =>
      var t := s.(lengths := s.lengths + [s.birth], positions := s.positions + [0], fileLen := s.birth, index := 0,
                  currentIndex := 0, next := None);
      if shared then HandOff(t.(handoff := Some(View(|s.lengths|, s.birth))), free) else t
    case StoreSequence => s.(currentSequence := s.Newest())
    case Load => s.(helper := Loaded(s.currentSequence, s.currentIndex))
    case Position =>
      // The position is read through a mapping made from the shared view, once that is of this segment.
      if s.view.sequence == s.helper.sequence && s.positions[s.helper.sequence] == s.helper.index
      then s.(helper := Deciding(s.helper.sequence, s.helper.index))
      else s.(helper := Top)
    case Prepare =>
      var n, needed := s.helper.sequence, s.helper.index + 2;
      if s.view.sequence != n then s.(helper := Top)
      else if s.view.len < needed
      then s.(lengths := s.lengths[n := needed], view := View(n, needed), next := Some(View(n, s.helper.index + 1)),
          helper := Top)
      else s.(next := Some(View(n, s.helper.index + 1)), helper := Top)
  }

  /** A length too small by being late: the file is no longer than a helper acting on this position would make it. */
  predicate Late(s: State, v: View)
    requires |s.positions| == |s.lengths|
  {
    v.sequence < |s.lengths| && v.len <= s.lengths[v.sequence]
    && (v.len < s.lengths[v.sequence] ==> s.lengths[v.sequence] <= s.positions[v.sequence] + 2)
  }

  ghost predicate ViewHolds(s: State)
    requires s.lengths != [] && |s.positions| == |s.lengths|
  {
    && Late(s, s.view)
    && (s.handoff.Some? ==>
         && s.view.sequence < s.handoff.value.sequence < |s.lengths| && s.handoff.value.len == s.birth
         && (s.handoff.value.sequence < s.Newest() ==> Late(s, s.handoff.value)))
  }

  ghost predicate WriterHolds(s: State)
    requires s.lengths != [] && |s.positions| == |s.lengths|
  {
    && s.fileLen <= s.lengths[s.Newest()]
    && s.positions[s.Newest()] == (if s.writer == Moved then s.index - 1 else s.index)
    && (s.writer == Moved ==> s.index > 0)
    && s.index + (if s.writer == Grown then 2 else 1) <= s.fileLen
    && (s.view.sequence != s.Newest() ==>
         && s.lengths[s.Newest()] == s.fileLen && s.birth <= s.fileLen
         && (s.fileLen == s.birth || s.fileLen == s.index + if s.writer == Grown then 2 else 1))
  }

  ghost predicate HelperHolds(s: State)
    requires s.lengths != [] && |s.positions| == |s.lengths|
  {
    && (s.helper.Deciding? ==> s.helper.sequence <= s.view.sequence)
    && (s.helper.Deciding? && s.helper.sequence == s.view.sequence && s.view.sequence < |s.lengths|
        && s.view.len < s.lengths[s.view.sequence] ==>
        s.lengths[s.view.sequence] <= s.helper.index + 2)
    && (s.helper.Loaded? ==> s.helper.sequence < |s.lengths|)
    && (s.next.Some? ==> s.next.value.sequence <= s.view.sequence < |s.lengths|)
    && (s.next.Some? ==> s.next.value.len + 1 <= s.lengths[s.next.value.sequence])
    && s.currentSequence < |s.lengths|
  }

  ghost predicate Inv(s: State) {
    s.lengths != [] && |s.positions| == |s.lengths| && s.birth > 0 && ViewHolds(s) && WriterHolds(s) && HelperHolds(s)
  }

  lemma ViewKept(s: State, step: Step)
    requires Inv(s) && Enabled(s, step)
    ensures var t := Apply(s, step); t.lengths != [] && |t.positions| == |t.lengths| && ViewHolds(t)
  {
    hide Apply;
    match step
    case Move(free) => MoveKept(s, free);
    case Roll(free, shared) => RollKept(s, free, shared);
    case _ => OtherKept(s, step);
  }

  lemma MoveKept(s: State, free: bool)
    requires Inv(s) && Enabled(s, Move(free))
    ensures var t := Apply(s, Move(free)); t.lengths != [] && |t.positions| == |t.lengths| && ViewHolds(t)
  {
    hide HelperHolds;
  }

  lemma RollKept(s: State, free: bool, shared: bool)
    requires Inv(s) && Enabled(s, Roll(free, shared))
    ensures var t := Apply(s, Roll(free, shared)); t.lengths != [] && |t.positions| == |t.lengths| && ViewHolds(t)
  {
    hide HelperHolds;
  }

  lemma OtherKept(s: State, step: Step)
    requires Inv(s) && Enabled(s, step) && !step.Move? && !step.Roll?
    ensures var t := Apply(s, step); t.lengths != [] && |t.positions| == |t.lengths| && ViewHolds(t)
  {
  }

  lemma WriterKept(s: State, step: Step)
    requires Inv(s) && Enabled(s, step)
    ensures var t := Apply(s, step); t.lengths != [] && |t.positions| == |t.lengths| && WriterHolds(t)
  {
    match step
    case TakeAhead => assert WriterHolds(Apply(s, step));
    case Grow => assert WriterHolds(Apply(s, step));
    case Move(_) => assert WriterHolds(Apply(s, step));
    case Roll(_, _) => assert WriterHolds(Apply(s, step));
    case Prepare => assert WriterHolds(Apply(s, step));
    case _ => assert WriterHolds(Apply(s, step));
  }

  lemma HelperKept(s: State, step: Step)
    requires Inv(s) && Enabled(s, step)
    ensures var t := Apply(s, step); t.lengths != [] && |t.positions| == |t.lengths| && HelperHolds(t)
  {
    match step
    case Move(free) => HelperKeptMove(s, free);
    case Roll(free, shared) => HelperKeptRoll(s, free, shared);
    case Prepare => HelperKeptPrepare(s);
    case _ =>
  }

  lemma HelperKeptMove(s: State, free: bool)
    requires Inv(s) && Enabled(s, Move(free))
    ensures var t := Apply(s, Move(free)); t.lengths != [] && |t.positions| == |t.lengths| && HelperHolds(t)
  {
  }

  lemma HelperKeptRoll(s: State, free: bool, shared: bool)
    requires Inv(s) && Enabled(s, Roll(free, shared))
    ensures var t := Apply(s, Roll(free, shared)); t.lengths != [] && |t.positions| == |t.lengths| && HelperHolds(t)
  {
  }

  lemma HelperKeptPrepare(s: State)
    requires Inv(s) && Enabled(s, Prepare)
    ensures var t := Apply(s, Prepare); t.lengths != [] && |t.positions| == |t.lengths| && HelperHolds(t)
  {
  }

  lemma StepKeeps(s: State, step: Step)
    requires Inv(s) && Enabled(s, step)
    ensures Inv(Apply(s, step))
  {
    hide ViewHolds, WriterHolds, HelperHolds;
    ViewKept(s, step);
    WriterKept(s, step);
    HelperKept(s, step);
  }

  /** No step of either thread makes a file shorter. */
  lemma NeverShorter(s: State, step: Step, k: nat)
    requires Inv(s) && Enabled(s, step) && k < |s.lengths|
    ensures k < |Apply(s, step).lengths| && s.lengths[k] <= Apply(s, step).lengths[k]
  {
  }

  /** A helper starts on the newest segment with a right view of it. */
  lemma StartHolds(birth: nat, lengths: seq<nat>, positions: seq<nat>, index: nat)
    requires birth > 0 && lengths != [] && |positions| == |lengths|
    requires positions[|lengths| - 1] == index < lengths[|lengths| - 1]
    ensures var n := |lengths| - 1;
      Inv(State(birth, lengths, positions, lengths[n], index, Steady, View(n, lengths[n]), None, n, index, None, Top))
  {
  }

  /** Any interleaving of the two threads, from a state that satisfies the invariant. */
  ghost predicate Run(r: seq<State>, steps: seq<Step>) {
    |r| == |steps| + 1 && Inv(r[0]) && forall i :: 0 <= i < |steps| ==>
      Enabled(r[i], steps[i]) && r[i + 1] == Apply(r[i], steps[i])
  }

  /** In no interleaving does a segment file ever get shorter, a view handed over late included. */
  lemma {:induction false} RunNeverShortens(r: seq<State>, steps: seq<Step>, i: nat, j: nat, k: nat)
    requires Run(r, steps) && i <= j < |r| && k < |r[i].lengths|
    ensures Inv(r[j]) && k < |r[j].lengths| && r[i].lengths[k] <= r[j].lengths[k]
    decreases j
  {
    hide Inv, Enabled, Apply;
    if i < j {
      RunNeverShortens(r, steps, i, j - 1, k);
      StepKeeps(r[j - 1], steps[j - 1]);
      NeverShorter(r[j - 1], steps[j - 1], k);
    } else if j > 0 {
      RunReaches(r, steps, j);
    }
  }

  lemma {:induction false} RunReaches(r: seq<State>, steps: seq<Step>, j: nat)
    requires Run(r, steps) && j < |r|
    ensures Inv(r[j])
  {
    hide Inv, Enabled, Apply;
    if j > 0 {
      RunReaches(r, steps, j - 1);
      StepKeeps(r[j - 1], steps[j - 1]);
    }
  }
}
