/**
 * The writer and its helper, which installs the next segment ahead of the roll: one step per access to
 * what they share, in any interleaving. Retention runs on the writer, deletion mostly on the helper.
 */
module Prefault {
  import opened Wrappers
  import opened Retention

  /** How many segments may wait for the helper to delete them. */
  const DOOMED_QUEUE: nat := 2

  /** A file installed ahead, as it is handed over. */
  datatype Ahead = Ahead(sequence: nat, id: nat)

  /**
   * A segment file: the sequence it was created for, the file it names as its predecessor, and whether it was
   * published.
   */
  datatype File = File(sequence: nat, parent: nat, published: bool)

  /** Where the writer is in a roll. `Pruning` carries the segments retention has yet to see to. */
  datatype WriterAt =
    | Idle | Claimed | Tried(taken: Option<nat>) | Installed(id: nat) | Switching | Pruning(left: seq<nat>)

  /** Where the helper is in `prepare_segment`. `Skipping` is on its way out, with `in_flight` still set. */
  datatype HelperAt =
    | Resting | Saw(sequence: nat) | Parented(sequence: nat, parent: nat) | Announced(sequence: nat, parent: nat)
    | Checked(sequence: nat, parent: nat) | Skipping | InstalledAhead(file: Ahead) | HandingOver(file: Ahead) | Stopped

  /**
   * `chain` holds the files published, in order; `files` every file created; `names` the directory.
   * `doomed` is the queue of segments to delete and `deleting` what the helper has taken from it;
   * `dropped` is what retention has decided to remove, and `removed` what is gone.
   */
  datatype State = State(
    chain: seq<nat>, files: map<nat, File>, names: map<nat, nat>, keep: nat,
    claimed: nat, inFlight: Option<nat>, readySequence: Option<nat>, ready: Option<Ahead>,
    current: nat, segment: nat,
    deferred: seq<nat>, doomed: seq<nat>, deleting: seq<nat>, dropped: set<nat>, removed: set<nat>,
    writer: WriterAt, helper: HelperAt)
  {
    function Last(): nat
      requires chain != []
    {
      chain[|chain| - 1]
    }
  }

  datatype WriterStep =
    | Claim | Miss | Take | Use | Refuse | Prepare(file: nat) | Adopt | Fail | Publish | Switch | HandOff
    | Defer | Queue | Delete | PruneEnd | Release

  datatype HelperStep =
    | Swap | DeleteQueued | See | Sweep | Leave | Parent | Announce | Check | Install(file: nat) | Lose | Clear
    | HandOver | Stop

  datatype Step = Own(own: WriterStep) | Help(help: HelperStep)

  /** Retention after the roll to segment `n`, with what was deferred before it. */
  function ToPrune(s: State, n: nat): seq<nat> {
    s.deferred + if s.keep > 0 && n >= s.keep then [n - s.keep] else []
  }

  function SetOf(q: seq<nat>): set<nat> {
    set k | k in q
  }

  predicate AllBelow(a: set<nat>, n: int) {
    forall k :: k in a ==> k < n
  }

  /** The file is one prepared after the newest segment. */
  predicate Named(s: State, id: nat)
    requires s.chain != []
  {
    id in s.files && s.files[id].sequence == |s.chain| && s.files[id].parent == s.Last()
  }

  /** `installing`: the helper may still install segment `k`. */
  predicate Installing(s: State, k: nat) {
    s.inFlight == Some(k) && s.helper != Stopped
  }

  predicate WriterMay(s: State, step: WriterStep)
    requires s.chain != []
  {
    match step
    case Claim => s.writer == Idle
    case Miss => s.writer == Claimed
    case Take => s.writer == Claimed && s.readySequence == Some(|s.chain|) && s.ready.Some?
      && s.ready.value.sequence == |s.chain|
    case Use => s.writer.Tried? && s.writer.taken.Some? && Named(s, s.writer.taken.value)
    case Refuse => s.writer.Tried? && s.writer.taken.Some? && !Named(s, s.writer.taken.value)
    case Prepare(file) => s.writer == Tried(None) && |s.chain| !in s.names && file !in s.files
    case Adopt => s.writer == Tried(None) && |s.chain| in s.names
    case Fail => s.writer == Claimed || s.writer.Tried? || s.writer.Installed?
    case Publish => s.writer.Installed? && s.writer.id in s.files
    case Switch => s.writer == Switching
    case HandOff => s.segment < s.current
    case Defer => s.writer.Pruning? && s.writer.left != [] && Installing(s, s.writer.left[0])
    case Queue => s.writer.Pruning? && s.writer.left != [] && !Installing(s, s.writer.left[0])
      && |s.doomed| < DOOMED_QUEUE
    case Delete => s.writer.Pruning? && s.writer.left != [] && !Installing(s, s.writer.left[0])
      && |s.doomed| >= DOOMED_QUEUE
    case PruneEnd => s.writer == Pruning([])
    case Release => s.helper == Stopped && s.doomed != []
  }

  predicate HelperMay(s: State, step: HelperStep) {
    match step
    case Swap => s.helper == Resting && s.deleting == []
    case DeleteQueued => s.helper == Resting && s.deleting != []
    case See => s.helper == Resting && s.deleting == []
    case Sweep => s.helper.Saw? && s.ready.Some? && s.ready.value.sequence <= s.claimed
    case Leave => s.helper.Saw?
    case Parent => s.helper.Saw? && s.segment + 1 == s.helper.sequence && s.segment < |s.chain|
    case Announce => s.helper.Parented?
    case Check => s.helper.Announced?
    case Install(file) => s.helper.Checked? && s.helper.sequence !in s.names && file !in s.files
    case Lose => s.helper.Checked?
    case Clear => s.helper == Skipping || s.helper.InstalledAhead?
    case HandOver => s.helper.HandingOver?
    case Stop => s.helper != Stopped && s.deleting == []
  }

  predicate Enabled(s: State, step: Step) {
    s.chain != [] && if step.Own? then WriterMay(s, step.own) else HelperMay(s, step.help)
  }

  function Removing(s: State, k: nat): State {
    s.(names := s.names - {k}, removed := s.removed + {k})
  }

  function WriterStepped(s: State, step: WriterStep): State
    requires s.chain != [] && WriterMay(s, step)
  {
    match step
    case Claim => s.(claimed := |s.chain|, writer := Claimed)
    case Miss => s.(writer := Tried(None))
    case Take => s.(ready := None, readySequence := None, writer := Tried(Some(s.ready.value.id)))
    case Use => s.(writer := Installed(s.writer.taken.value))
    case Refuse => s.(writer := Tried(None))
    case Prepare(file) =>
      s.(names := s.names[|s.chain| := file], files := s.files[file := File(|s.chain|, s.Last(), false)],
          writer := Installed(file))
    case Adopt =>
      var id := s.names[|s.chain|];
      // `adopt_successor` refuses a file that is published or names another parent: the roll fails.
      if !Named(s, id) || s.files[id].published then s.(writer := Idle) else s.(writer := Installed(id))
    case Fail => s.(writer := Idle)
    case Publish =>
      var id := s.writer.id;
      s.(chain := s.chain + [id], files := s.files[id := s.files[id].(published := true)], writer := Switching)
    case Switch =>
      var left := ToPrune(s, |s.chain| - 1);
      s.(current := |s.chain| - 1, deferred := [], dropped := s.dropped + SetOf(left), writer := Pruning(left))
    case HandOff => s.(segment := s.current)
    case Defer => s.(deferred := s.deferred + [s.writer.left[0]], writer := Pruning(s.writer.left[1..]))
    case Queue => s.(doomed := s.doomed + [s.writer.left[0]], writer := Pruning(s.writer.left[1..]))
    case Delete => Removing(s, s.writer.left[0]).(writer := Pruning(s.writer.left[1..]))
    case PruneEnd => s.(writer := Idle)
    case Release => Removing(s, s.doomed[0]).(doomed := s.doomed[1..])
  }

  function HelperStepped(s: State, step: HelperStep): State
    requires HelperMay(s, step)
  {
    match step
    case Swap => s.(deleting := s.doomed, doomed := [])
    case DeleteQueued => Removing(s, s.deleting[0]).(deleting := s.deleting[1..])
    case See => s.(helper := Saw(s.current + 1))
    case Sweep => s.(ready := None, readySequence := None)
    case Leave => s.(helper := Resting)
    case Parent => s.(helper := Parented(s.helper.sequence, s.chain[s.segment]))
    case Announce => s.(inFlight := Some(s.helper.sequence), helper := Announced(s.helper.sequence, s.helper.parent))
    case Check =>
      if s.claimed >= s.helper.sequence then s.(helper := Skipping)
        else s.(helper := Checked(s.helper.sequence, s.helper.parent))
    case Install(file) =>
      s.(names := s.names[s.helper.sequence := file],
          files := s.files[file := File(s.helper.sequence, s.helper.parent, false)],
         helper := InstalledAhead(Ahead(s.helper.sequence, file)))
    case Lose => s.(helper := Skipping)
    case Clear => s.(inFlight := None, helper := if s.helper == Skipping then Resting else HandingOver(s.helper.file))
    case HandOver =>
      if s.claimed < s.helper.file.sequence
      then s.(ready := Some(s.helper.file), readySequence := Some(s.helper.file.sequence), helper := Resting)
      else s.(helper := Resting)
    case Stop => s.(helper := Stopped)
  }

  function Apply(s: State, step: Step): State
    requires Enabled(s, step)
  {
    if step.Own? then WriterStepped(s, step.own) else HelperStepped(s, step.help)
  }

  // ---------- the invariant ----------

  /** A published segment is under its name until it is removed, and only then not. */
  ghost predicate NamesHold(s: State) {
    && (forall k :: k in s.names ==> k <= |s.chain|)
    && (forall k :: 0 <= k < |s.chain| ==> (k in s.names <==> k !in s.removed))
    && (forall k :: k in s.names && k < |s.chain| ==> s.names[k] == s.chain[k])
    && (|s.chain| in s.names ==> Fits(s, s.names[|s.chain|]))
  }

  /**
   * A file that may be published next: not published yet, created for the next segment, naming the newest as
   * its parent.
   */
  ghost predicate Fits(s: State, id: nat) {
    s.chain != [] && Named(s, id) && !s.files[id].published
  }

  /** The files published are just those of the history, each naming the one before it. */
  ghost predicate ChainHolds(s: State) {
    && s.chain != []
    && (forall k :: 0 <= k < |s.chain| ==> s.chain[k] in s.files && s.files[s.chain[k]].sequence == k)
    && (forall k :: 0 < k < |s.chain| ==> s.files[s.chain[k]].parent == s.chain[k - 1])
    && (forall k :: 0 <= k < |s.chain| ==> s.files[s.chain[k]].published)
    && (forall id :: id in s.files && s.files[id].published ==> InChain(s, id))
  }

  predicate InChain(s: State, id: nat)
    requires id in s.files
  {
    s.files[id].sequence < |s.chain| && s.chain[s.files[id].sequence] == id
  }

  /** The file is the one under the name, or was published from it. */
  ghost predicate Owned(s: State, f: Ahead) {
    if f.sequence < |s.chain| then s.chain[f.sequence] == f.id else f.sequence in s.names && s.names[f.sequence] == f.id
  }

  ghost predicate RetentionHolds(s: State) {
    && s.dropped == s.removed + SetOf(s.doomed) + SetOf(s.deleting) + SetOf(s.deferred)
      + (if s.writer.Pruning? then SetOf(s.writer.left) else {})
    && (forall k :: k in s.dropped ==> k < |s.chain| - 1)
    && (forall k :: k in s.deferred ==> k < |s.chain| - 1)
  }

  ghost predicate WriterHolds(s: State) {
    && |s.chain| - 1 <= s.claimed <= |s.chain|
    && s.current < |s.chain| && s.segment <= s.current
    && (s.writer == Claimed || s.writer.Tried? || s.writer.Installed? ==> s.claimed == |s.chain|)
    && (s.writer.Tried? && s.writer.taken.Some? ==> |s.chain| in s.names && s.names[|s.chain|] == s.writer.taken.value)
    && (s.writer.Installed? ==> |s.chain| in s.names && s.names[|s.chain|] == s.writer.id)
  }

  ghost predicate HelperHolds(s: State) {
    && (s.ready.Some? ==> Owned(s, s.ready.value))
    && (s.readySequence.Some? ==> s.ready.Some? && s.ready.value.sequence == s.readySequence.value)
    && (s.helper.InstalledAhead? || s.helper.HandingOver? ==> Owned(s, s.helper.file))
    && WorkHolds(s)
  }

  /**
   * The segment the helper is at work on follows one that is published; past the check, it is announced and
   * not retired.
   */
  ghost predicate WorkHolds(s: State) {
    && (s.helper.Parented? || s.helper.Announced? || s.helper.Checked? ==>
         0 < s.helper.sequence <= |s.chain| && s.helper.parent == s.chain[s.helper.sequence - 1])
    && (s.helper.Announced? || s.helper.Checked? ==> s.inFlight == Some(s.helper.sequence))
    && (s.helper.Checked? ==> s.helper.sequence !in s.removed && s.helper.sequence !in s.doomed)
    && (s.helper != Resting ==> s.deleting == [])
  }

  ghost predicate Inv(s: State) {
    ChainHolds(s) && NamesHold(s) && WriterHolds(s) && HelperHolds(s) && RetentionHolds(s)
  }

  // ---------- every step keeps it ----------

  lemma ChainKept(s: State, step: Step)
    requires Inv(s) && Enabled(s, step)
    ensures ChainHolds(Apply(s, step))
  {
    hide RetentionHolds, HelperHolds, SetOf, Owned, ChainHolds, NamesHold, WriterHolds, Fits;
    if step == Own(Publish) { ChainPublished(s); } else { SameChain(s, Apply(s, step)); }
  }

  lemma SameChain(s: State, t: State)
    requires ChainHolds(s) && t.chain == s.chain && forall f :: f in s.files ==>
      f in t.files && t.files[f] == s.files[f]
    requires forall f :: f in t.files && f !in s.files ==> !t.files[f].published
    ensures ChainHolds(t)
  {
  }

  lemma ChainAdds(s: State, t: State, id: nat)
    requires ChainHolds(s) && Fits(s, id)
    requires t.chain == s.chain + [id] && t.files == s.files[id := s.files[id].(published := true)]
    ensures ChainHolds(t)
  {
    assert id !in s.chain by { assert !s.files[id].published; }
  }

  lemma ChainPublished(s: State)
    requires Inv(s) && Enabled(s, Own(Publish))
    ensures ChainHolds(Apply(s, Own(Publish)))
  {
    hide RetentionHolds, HelperHolds, SetOf, Owned, ChainHolds, Fits;
    assert Fits(s, s.writer.id);
    ChainAdds(s, Apply(s, Own(Publish)), s.writer.id);
  }

  lemma NamesKept(s: State, step: Step)
    requires Inv(s) && Enabled(s, step)
    ensures NamesHold(Apply(s, step))
  {
    hide Inv, NamesHold, WriterMay, HelperMay, WriterStepped, HelperStepped;
    if step.Own? { NamesKeptOwn(s, step.own); } else { NamesKeptHelp(s, step.help); }
  }

  lemma NamesKeptOwn(s: State, step: WriterStep)
    requires Inv(s) && s.chain != [] && WriterMay(s, step)
    ensures NamesHold(WriterStepped(s, step))
  {
    hide SetOf, Owned, RetentionHolds, NamesHold, ChainHolds, HelperHolds, WriterHolds, Fits, ToPrune;
    LeftDropped(s);
    var t := WriterStepped(s, step);
    match step
    case Prepare(file) => NameAdded(s, file, s.Last(), t);
    case Publish => NamePublished(s);
    case Delete => NameRemoved(s, s.writer.left[0], t);
    case Release => NameRemoved(s, s.doomed[0], t);
    case _ => SameNames(s, t);
  }

  lemma NamesKeptHelp(s: State, step: HelperStep)
    requires Inv(s) && s.chain != [] && HelperMay(s, step)
    ensures NamesHold(HelperStepped(s, step))
  {
    hide SetOf, Owned, RetentionHolds, NamesHold, ChainHolds, HelperHolds, WriterHolds, Fits;
    LeftDropped(s);
    var t := HelperStepped(s, step);
    match step
    case Install(file) => InstallNext(s, file); NameAdded(s, file, s.helper.parent, t);
    case DeleteQueued => NameRemoved(s, s.deleting[0], t);
    case _ => SameNames(s, t);
  }

  lemma SameNames(s: State, t: State)
    requires NamesHold(s) && t.chain == s.chain && t.names == s.names && t.removed == s.removed && t.files == s.files
    ensures NamesHold(t)
  {
  }

  /** A new file under the name after the newest. */
  lemma NameAdded(s: State, file: nat, parent: nat, t: State)
    requires ChainHolds(s) && NamesHold(s) && file !in s.files && |s.chain| !in s.names && parent == s.Last()
    requires t == s.(names := s.names[|s.chain| := file], files := s.files[file := File(|s.chain|, parent, false)],
                     writer := t.writer, helper := t.helper)
    ensures NamesHold(t)
  {
  }

  /**
   * The helper installs nothing but the segment after the newest: an older one, retention aside, still has
   * its name.
   */
  lemma InstallNext(s: State, file: nat)
    requires Inv(s) && Enabled(s, Help(Install(file)))
    ensures s.helper.sequence == |s.chain| && s.helper.parent == s.Last()
  {
    hide RetentionHolds;
  }

  lemma NamePublished(s: State)
    requires Inv(s) && Enabled(s, Own(Publish))
    ensures NamesHold(Apply(s, Own(Publish)))
  {
    hide HelperHolds, SetOf;
    assert |s.chain| !in s.removed;
  }

  lemma NameRemoved(s: State, k: nat, t: State)
    requires NamesHold(s) && k < |s.chain|
    requires t == Removing(s, k).(writer := t.writer, doomed := t.doomed, deleting := t.deleting)
    ensures NamesHold(t)
  {
  }

  /** What retention is about to remove is of an older segment than the newest. */
  lemma LeftDropped(s: State)
    requires RetentionHolds(s)
    ensures s.writer.Pruning? && s.writer.left != [] ==>
      s.writer.left[0] in s.dropped && s.writer.left[0] < |s.chain| - 1
    ensures s.doomed != [] ==> s.doomed[0] in s.dropped && s.doomed[0] < |s.chain| - 1
    ensures s.deleting != [] ==> s.deleting[0] in s.dropped && s.deleting[0] < |s.chain| - 1
  {
  }

  /** What is pending is of older segments than the newest. */
  lemma PendingOld(s: State)
    requires RetentionHolds(s)
    ensures forall k :: k in Pending(s) ==> k < |s.chain| - 1
  {
    assert forall k :: k in s.doomed ==> k in SetOf(s.doomed);
    assert forall k :: k in s.deleting ==> k in SetOf(s.deleting);
  }

  lemma WriterKept(s: State, step: Step)
    requires Inv(s) && Enabled(s, step)
    ensures WriterHolds(Apply(s, step))
  {
    hide Inv, WriterHolds, WriterMay, HelperMay, WriterStepped, HelperStepped;
    if step.Own? { WriterKeptOwn(s, step.own); } else { WriterKeptHelp(s, step.help); }
  }

  lemma WriterKeptOwn(s: State, step: WriterStep)
    requires Inv(s) && s.chain != [] && WriterMay(s, step)
    ensures WriterHolds(WriterStepped(s, step))
  {
    hide SetOf, ChainHolds, NamesHold, RetentionHolds, HelperHolds, ToPrune, Named;
    LeftDropped(s);
    if step == Take { TakenOwned(s); }
  }

  /** What the writer takes from the slot is the file under the next name. */
  lemma TakenOwned(s: State)
    requires Inv(s) && s.chain != [] && WriterMay(s, Take)
    ensures |s.chain| in s.names && s.names[|s.chain|] == s.ready.value.id
  {
    hide SetOf, ChainHolds, NamesHold, RetentionHolds, WorkHolds, WriterHolds;
  }

  lemma WriterKeptHelp(s: State, step: HelperStep)
    requires Inv(s) && HelperMay(s, step)
    ensures WriterHolds(HelperStepped(s, step))
  {
    hide SetOf, ChainHolds, NamesHold, RetentionHolds, HelperHolds;
    LeftDropped(s);
  }

  /** What the helper or its slot holds stays the file of its segment. */
  lemma OwnedKeptOwn(s: State, step: WriterStep, f: Ahead)
    requires Inv(s) && s.chain != [] && WriterMay(s, step) && Owned(s, f)
    ensures Owned(WriterStepped(s, step), f)
  {
    hide SetOf, RetentionHolds, HelperHolds, ChainHolds, ToPrune;
    LeftDropped(s);
  }

  lemma OwnedKeptHelp(s: State, step: HelperStep, f: Ahead)
    requires Inv(s) && HelperMay(s, step) && Owned(s, f)
    ensures Owned(HelperStepped(s, step), f)
  {
    hide SetOf, RetentionHolds, HelperHolds, ChainHolds, WriterHolds;
    LeftDropped(s);
  }

  lemma HelperKept(s: State, step: Step)
    requires Inv(s) && Enabled(s, step)
    ensures HelperHolds(Apply(s, step))
  {
    hide Inv, HelperHolds, WriterMay, HelperMay, WriterStepped, HelperStepped;
    if step.Own? { HelperKeptOwn(s, step.own); } else { HelperKeptHelp(s, step.help); }
  }

  lemma HelperKeptOwn(s: State, step: WriterStep)
    requires Inv(s) && s.chain != [] && WriterMay(s, step)
    ensures HelperHolds(WriterStepped(s, step))
  {
    hide SetOf, Owned, NamesHold, ChainHolds, RetentionHolds, WorkHolds, WriterHolds, ToPrune;
    if s.ready.Some? { OwnedKeptOwn(s, step, s.ready.value); }
    if s.helper.InstalledAhead? || s.helper.HandingOver? { OwnedKeptOwn(s, step, s.helper.file); }
    WorkKeptOwn(s, step);
  }

  lemma HelperKeptHelp(s: State, step: HelperStep)
    requires Inv(s) && HelperMay(s, step)
    ensures HelperHolds(HelperStepped(s, step))
  {
    hide SetOf, Owned, NamesHold, ChainHolds, RetentionHolds, WorkHolds, WriterHolds;
    if s.ready.Some? { OwnedKeptHelp(s, step, s.ready.value); }
    if s.helper.InstalledAhead? || s.helper.HandingOver? { OwnedKeptHelp(s, step, s.helper.file); }
    if step.Install? { InstalledOwned(s, step.file); }
    WorkKeptHelp(s, step);
  }

  lemma InstalledOwned(s: State, file: nat)
    requires Inv(s) && HelperMay(s, Install(file))
    ensures Owned(HelperStepped(s, Install(file)), Ahead(s.helper.sequence, file))
  {
    hide RetentionHolds;
    InstallNext(s, file);
  }

  lemma NotRetired(s: State)
    requires Inv(s) && s.helper.Announced? && s.claimed < s.helper.sequence
    ensures s.helper.sequence !in s.removed && s.helper.sequence !in s.doomed
  {
    hide HelperHolds, NamesHold, ChainHolds;
    assert forall k :: k in s.doomed ==> k in SetOf(s.doomed);
  }

  /** The helper's place in `prepare_segment`, whatever it or the writer does. */
  lemma WorkKeptOwn(s: State, step: WriterStep)
    requires Inv(s) && s.chain != [] && WriterMay(s, step)
    ensures WorkHolds(WriterStepped(s, step))
  {
    hide SetOf, Owned, NamesHold, ChainHolds, RetentionHolds, WriterHolds, ToPrune;
  }

  lemma WorkKeptHelp(s: State, step: HelperStep)
    requires Inv(s) && HelperMay(s, step)
    ensures WorkHolds(HelperStepped(s, step))
  {
    hide SetOf, Owned, NamesHold, ChainHolds, RetentionHolds, WriterHolds;
    if step == Check && s.claimed < s.helper.sequence { NotRetired(s); }
  }

  lemma SetOfNone()
    ensures SetOf([]) == {}
  {
  }

  lemma SetOfJoin(p: seq<nat>, q: seq<nat>)
    ensures SetOf(p + q) == SetOf(p) + SetOf(q)
  {
  }

  lemma SetOfFirst(q: seq<nat>)
    requires q != []
    ensures SetOf(q) == {q[0]} + SetOf(q[1..]) && SetOf([q[0]]) == {q[0]}
  {
    assert q == [q[0]] + q[1..];
    SetOfJoin([q[0]], q[1..]);
  }

  lemma RetentionKept(s: State, step: Step)
    requires Inv(s) && Enabled(s, step)
    ensures RetentionHolds(Apply(s, step))
  {
    hide Inv, RetentionHolds, WriterMay, HelperMay, WriterStepped, HelperStepped;
    if step.Own? { RetentionKeptOwn(s, step.own); } else { RetentionKeptHelp(s, step.help); }
  }

  lemma RetentionKeptOwn(s: State, step: WriterStep)
    requires Inv(s) && s.chain != [] && WriterMay(s, step)
    ensures RetentionHolds(WriterStepped(s, step))
  {
    hide ChainHolds, NamesHold, HelperHolds, WriterHolds, Owned, SetOf;
    SetOfNone();
    match step
    case Switch =>
      SetOfJoin(s.deferred, if s.keep > 0 && |s.chain| - 1 >= s.keep then [|s.chain| - 1 - s.keep] else []);
      Covered(s);
    case Defer => SetOfFirst(s.writer.left); SetOfJoin(s.deferred, [s.writer.left[0]]); LeftDropped(s);
    case Queue => SetOfFirst(s.writer.left); SetOfJoin(s.doomed, [s.writer.left[0]]);
    case Delete => SetOfFirst(s.writer.left);
    case Release => SetOfFirst(s.doomed);
    case _ =>
  }

  lemma RetentionKeptHelp(s: State, step: HelperStep)
    requires Inv(s) && HelperMay(s, step)
    ensures RetentionHolds(HelperStepped(s, step))
  {
    hide ChainHolds, NamesHold, HelperHolds, WriterHolds, Owned, SetOf;
    SetOfNone();
    if step == DeleteQueued { SetOfFirst(s.deleting); }
  }

  lemma Covered(s: State)
    requires RetentionHolds(s) && s.chain != []
    ensures AllBelow(SetOf(ToPrune(s, |s.chain| - 1)), |s.chain| - 1)
  {
  }

  lemma StepKeeps(s: State, step: Step)
    requires Inv(s) && Enabled(s, step)
    ensures Inv(Apply(s, step))
  {
    hide ChainHolds, NamesHold, WriterHolds, HelperHolds, RetentionHolds, Enabled, Apply;
    ChainKept(s, step);
    NamesKept(s, step);
    WriterKept(s, step);
    HelperKept(s, step);
    RetentionKept(s, step);
  }

  // ---------- over whole runs ----------

  /** A helper starts on a channel with whatever segments it has left, the newest among them. */
  function Started(chain: seq<nat>, files: map<nat, File>, names: map<nat, nat>, keep: nat): State
    requires chain != []
  {
    var gone := set k | 0 <= k < |chain| && k !in names;
    State(chain, files, names, keep, |chain| - 1, None, None, None, |chain| - 1, |chain| - 1, [], [], [], gone, gone,
        Idle, Resting)
  }

  lemma StartHolds(chain: seq<nat>, files: map<nat, File>, names: map<nat, nat>, keep: nat)
    requires chain != [] && |chain| - 1 in names && forall k :: k in names ==> k < |chain| && names[k] == chain[k]
    requires forall k ::
      0 <= k < |chain| ==> chain[k] in files && files[chain[k]].sequence == k && files[chain[k]].published
    requires forall k :: 0 < k < |chain| ==> files[chain[k]].parent == chain[k - 1]
    requires forall id ::
      id in files && files[id].published ==> files[id].sequence < |chain| && chain[files[id].sequence] == id
    ensures Inv(Started(chain, files, names, keep))
  {
    SetOfNone();
  }

  /** Any interleaving of the writer's steps and the helper's, from a state that satisfies the invariant. */
  ghost predicate Run(r: seq<State>, steps: seq<Step>) {
    |r| == |steps| + 1 && Inv(r[0]) && forall i :: 0 <= i < |steps| ==>
      Enabled(r[i], steps[i]) && r[i + 1] == Apply(r[i], steps[i])
  }

  /** What no step takes back: files created, segments published, and removals decided and done. */
  ghost predicate Extends(s: State, t: State) {
    && |s.chain| <= |t.chain| && t.chain[..|s.chain|] == s.chain
    && s.removed <= t.removed && s.dropped <= t.dropped
    && forall id :: id in s.files ==>
      (id in t.files && t.files[id] == s.files[id].(published := t.files[id].published)
          && (s.files[id].published ==> t.files[id].published))
  }

  lemma StepExtends(s: State, step: Step)
    requires Enabled(s, step)
    ensures Extends(s, Apply(s, step))
  {
    hide Extends, WriterMay, HelperMay, WriterStepped, HelperStepped;
    if step.Own? { StepExtendsOwn(s, step.own); } else { StepExtendsHelp(s, step.help); }
  }

  lemma StepExtendsOwn(s: State, step: WriterStep)
    requires s.chain != [] && WriterMay(s, step)
    ensures Extends(s, WriterStepped(s, step))
  {
    hide SetOf, ToPrune;
  }

  lemma StepExtendsHelp(s: State, step: HelperStep)
    requires HelperMay(s, step)
    ensures Extends(s, HelperStepped(s, step))
  {
  }

  lemma {:induction false} RunHolds(r: seq<State>, steps: seq<Step>, i: nat, j: nat)
    requires Run(r, steps) && i <= j < |r|
    ensures Inv(r[i]) && Inv(r[j]) && Extends(r[i], r[j])
    decreases j
  {
    hide Inv, Apply;
    if i < j {
      RunHolds(r, steps, i, j - 1);
      StepKeeps(r[j - 1], steps[j - 1]);
      StepExtends(r[j - 1], steps[j - 1]);
      var s, t, u := r[i], r[j - 1], r[j];
      assert u.chain[..|s.chain|] == u.chain[..|t.chain|][..|s.chain|] == t.chain[..|s.chain|];
    } else if j > 0 {
      RunHolds(r, steps, j - 1, j - 1);
      StepKeeps(r[j - 1], steps[j - 1]);
    }
  }

  /** In no interleaving is a segment that retention has removed ever under its name again. */
  lemma RemovedForGood(r: seq<State>, steps: seq<Step>, i: nat, j: nat, k: nat)
    requires Run(r, steps) && i <= j < |r| && k in r[i].removed
    ensures k !in r[j].names
  {
    hide Run, SetOf, HelperHolds, WriterHolds, ChainHolds;
    RunHolds(r, steps, i, j);
  }

  predicate IsPublished(s: State, id: nat) {
    id in s.files && s.files[id].published
  }

  /** At most one file is ever published per sequence: two published with the same one, at whatever moments, are one. */
  lemma OneFileEver(r: seq<State>, steps: seq<Step>, i: nat, a: nat, j: nat, b: nat)
    requires Run(r, steps) && i <= j < |r| && IsPublished(r[i], a) && IsPublished(r[j], b)
    requires r[i].files[a].sequence == r[j].files[b].sequence
    ensures a == b
  {
    hide Run, SetOf, HelperHolds, WriterHolds, RetentionHolds, NamesHold;
    RunHolds(r, steps, i, j);
    assert IsPublished(r[j], a);
    assert InChain(r[j], a) && InChain(r[j], b);
  }

  /** And it names the one published before it as its predecessor. */
  lemma NamesPredecessor(r: seq<State>, steps: seq<Step>, i: nat, a: nat, b: nat)
    requires Run(r, steps) && i < |r| && IsPublished(r[i], a) && IsPublished(r[i], b)
    requires r[i].files[b].sequence == r[i].files[a].sequence + 1
    ensures r[i].files[b].parent == a
  {
    hide Run, SetOf, HelperHolds, WriterHolds, RetentionHolds, NamesHold;
    RunHolds(r, steps, i, i);
    assert InChain(r[i], a) && InChain(r[i], b);
  }

  /** The file a roll takes, adopts or prepares is never refused, whoever installed it. */
  lemma NeverRefused(s: State)
    requires Inv(s)
    ensures !Enabled(s, Own(Refuse))
    ensures Enabled(s, Own(Adopt)) ==> Apply(s, Own(Adopt)).writer.Installed?
    ensures Enabled(s, Own(Publish)) ==> Fits(s, s.writer.id)
  {
    hide SetOf, HelperHolds, RetentionHolds;
  }

  // ---------- dropping the writer ----------

  /**
   * `Drop`, once the helper has stopped: an unused file goes if it is unpublished, then what was queued, then
   * what was deferred.
   */
  function Close(s: State): map<nat, nat> {
    var unused := if s.ready.Some? && !IsPublished(s, s.ready.value.id) then {s.ready.value.sequence} else {};
    s.names - unused - SetOf(s.doomed) - SetOf(s.deferred)
  }

  /**
   * Dropping the writer leaves exactly the published segments that retention did not decide to remove: none
   * is forgotten, no other is lost. Of the file after them, unpublished, it takes away what the helper offered.
   */
  lemma ClosedExactly(s: State)
    requires Inv(s) && s.helper == Stopped && s.writer == Idle
    ensures forall k :: 0 <= k < |s.chain| ==> (k in Close(s) <==> k !in s.dropped)
    ensures forall k :: k in Close(s) && k < |s.chain| ==> Close(s)[k] == s.chain[k]
    ensures forall k :: k in Close(s) ==> k <= |s.chain|
    ensures |s.chain| in Close(s) <==>
      |s.chain| in s.names && !(s.ready.Some? && s.ready.value.sequence == |s.chain|)
  {
    hide SetOf, WriterHolds;
    SetOfNone();
    assert s.ready.Some? && !IsPublished(s, s.ready.value.id) ==> s.ready.value.sequence == |s.chain|;
  }

  // ---------- the order of removal ----------

  /** What is to be deleted yet, in the order it will be. */
  function Pending(s: State): seq<nat> {
    s.deleting + s.doomed
  }

  /** Deleting what is pending takes every segment only after all older ones. */
  ghost predicate Lined(s: State) {
    LinedUp(s.names, Pending(s))
  }

  ghost predicate LinedUp(names: map<nat, nat>, q: seq<nat>) {
    forall i, k :: 0 <= i < |q| && k in names && k < q[i] ==> k in q[..i]
  }

  /** Segments have gone oldest first, and will as far as has been decided. */
  ghost predicate InOrder(s: State) {
    OldestFirst(s.names, |s.chain|) && Lined(s)
  }

  /** The writer may queue a segment once every older one left is queued, and delete one once none is left. */
  predicate Guard(s: State, step: Step) {
    match step
    case Own(Queue) => s.writer.Pruning? && s.writer.left != [] && forall k :: k in s.names && k < s.writer.left[0] ==>
      k in Pending(s)
    case Own(Delete) => s.writer.Pruning? && s.writer.left != [] && forall k :: k in s.names ==> k >= s.writer.left[0]
    case _ => true
  }

  /** Once the first in line is gone the rest are in line. */
  lemma RestLined(names: map<nat, nat>, q: seq<nat>)
    requires q != [] && LinedUp(names, q)
    ensures LinedUp(names - {q[0]}, q[1..])
  {
    var u := q[1..];
    forall i, k | 0 <= i < |u| && k in names - {q[0]} && k < u[i]
      ensures k in u[..i]
    {
      assert u[i] == q[i + 1] && k in q[..i + 1];
      InRest(q, i, k);
    }
  }

  lemma InRest(q: seq<nat>, i: nat, k: nat)
    requires i < |q| && k in q[..i + 1] && k != q[0]
    ensures k in q[1..][..i]
  {
    var j :| 0 <= j < i + 1 && q[j] == k;
    assert q[1..][..i][j - 1] == k;
  }

  lemma FewerLined(names: map<nat, nat>, fewer: map<nat, nat>, q: seq<nat>)
    requires LinedUp(names, q) && fewer.Keys <= names.Keys
    ensures LinedUp(fewer, q)
  {
    forall i, k | 0 <= i < |q| && k in fewer && k < q[i]
      ensures k in q[..i]
    {
      assert k in names;
    }
  }

  /** No segment is left that is older than the first in line. */
  lemma FirstInLine(names: map<nat, nat>, q: seq<nat>)
    requires q != [] && LinedUp(names, q)
    ensures q[0] == 0 || q[0] - 1 !in names
  {
    assert q[..0] == [];
    assert forall k :: k in names && k < q[0] ==> k in q[..0];
  }

  /** Queueing keeps the order if and only if every older segment left is queued already. */
  lemma QueueExact(s: State)
    requires Enabled(s, Own(Queue)) && InOrder(s)
    ensures InOrder(Apply(s, Own(Queue))) <==> Guard(s, Own(Queue))
  {
    hide LinedUp, OldestFirst;
    assert Pending(Apply(s, Own(Queue))) == Pending(s) + [s.writer.left[0]];
    LinedOneMore(s.names, Pending(s), s.writer.left[0]);
  }

  lemma LinedOneMore(names: map<nat, nat>, q: seq<nat>, p: nat)
    requires LinedUp(names, q)
    ensures LinedUp(names, q + [p]) <==> forall k :: k in names && k < p ==> k in q
  {
    var u := q + [p];
    assert u[..|q|] == q;
    if forall k :: k in names && k < p ==> k in q {
      forall i, k | 0 <= i < |u| && k in names && k < u[i]
        ensures k in u[..i]
      {
        if i < |q| { assert k in q[..i] && u[..i] == q[..i]; }
      }
    }
    if LinedUp(names, u) {
      forall k | k in names && k < p
        ensures k in q
      {
        assert k < u[|q|] && k in u[..|q|];
      }
    }
  }

  /** Deleting directly keeps the order if and only if no older segment is left. */
  lemma DeleteExact(s: State)
    requires Inv(s) && Enabled(s, Own(Delete)) && InOrder(s)
    ensures InOrder(Apply(s, Own(Delete))) <==> Guard(s, Own(Delete))
  {
    hide HelperHolds, WriterHolds, ChainHolds, NamesHold, LinedUp;
    LeftDropped(s);
    var p, t := s.writer.left[0], Apply(s, Own(Delete));
    assert Pending(t) == Pending(s) && t.names == s.names - {p};
    TakingExact(s.names, |s.chain|, p);
    if p > 0 && p - 1 in s.names {
      assert !Guard(s, Own(Delete));
    } else {
      FewerLined(s.names, t.names, Pending(s));
      forall k | k in s.names
        ensures k >= p
      {
        if k < p { NamedFrom(s.names, |s.chain|, k, p - 1); }
      }
    }
  }

  /** Every other step keeps the order. */
  lemma OtherStepsKeep(s: State, step: Step)
    requires Inv(s) && Enabled(s, step) && InOrder(s) && step != Own(Queue) && step != Own(Delete)
    ensures InOrder(Apply(s, step))
  {
    hide Inv, LinedUp, OldestFirst, SetOf, ToPrune, Named, Installing;
    var t := Apply(s, step);
    match step
    case Help(DeleteQueued) => FirstDeleted(s, t);
    case Own(Release) => StoppedIdle(s); FirstDeleted(s, t);
    case Own(Prepare(file)) => PendingBefore(s); NextNamed(s, t);
    case Help(Install(file)) => InstallNext(s, file); PendingBefore(s); NextNamed(s, t);
    case Own(Publish) => PublishedNext(s, t);
    case Help(Swap) => assert Pending(t) == Pending(s);
    case _ =>
  }

  lemma StoppedIdle(s: State)
    requires Inv(s) && s.helper == Stopped
    ensures s.deleting == []
  {
    hide Owned, ChainHolds, NamesHold, WriterHolds, RetentionHolds;
  }

  lemma PendingBefore(s: State)
    requires Inv(s)
    ensures forall k :: k in Pending(s) ==> k < |s.chain|
  {
    hide HelperHolds, ChainHolds, NamesHold, WriterHolds, RetentionHolds;
    PendingOld(s);
  }

  /** The first in line goes in its turn. */
  lemma FirstDeleted(s: State, t: State)
    requires Inv(s) && InOrder(s) && Pending(s) != []
    requires t.chain == s.chain && t.names == s.names - {Pending(s)[0]} && Pending(t) == Pending(s)[1..]
    ensures InOrder(t)
  {
    hide Inv, LinedUp, OldestFirst;
    PendingBefore(s);
    assert Pending(s)[0] in Pending(s);
    FirstInLine(s.names, Pending(s));
    TakingExact(s.names, |s.chain|, Pending(s)[0]);
    RestLined(s.names, Pending(s));
  }

  /** A name for the segment after the newest concerns no removal. */
  lemma NextNamed(s: State, t: State)
    requires InOrder(s) && (forall k :: k in Pending(s) ==> k < |s.chain|)
    requires t.chain == s.chain && t.names.Keys == s.names.Keys + {|s.chain|} && Pending(t) == Pending(s)
    ensures InOrder(t)
  {
    forall i, k | 0 <= i < |Pending(t)| && k in t.names && k < Pending(t)[i]
      ensures k in Pending(t)[..i]
    {
      assert Pending(s)[i] in Pending(s);
      assert k in s.names;
    }
    forall k | k in t.names && k + 1 < |t.chain|
      ensures k + 1 in t.names
    {
      assert k in s.names;
    }
  }

  lemma PublishedNext(s: State, t: State)
    requires Inv(s) && Enabled(s, Own(Publish)) && t == Apply(s, Own(Publish)) && InOrder(s)
    ensures InOrder(t)
  {
    hide HelperHolds, ChainHolds, RetentionHolds, NamesHold, LinedUp;
    assert Pending(t) == Pending(s);
    forall k | k in t.names && k + 1 < |t.chain|
      ensures k + 1 in t.names
    {
      if k + 1 < |s.chain| { assert k in s.names; }
    }
  }

  /** A run keeps the order throughout if and only if every segment is queued, or deleted directly, under the guard. */
  lemma OrderExact(r: seq<State>, steps: seq<Step>)
    requires Run(r, steps) && InOrder(r[0])
    ensures (forall n :: 0 <= n < |r| ==> InOrder(r[n])) <==> (forall i :: 0 <= i < |steps| ==> Guard(r[i], steps[i]))
  {
    hide Inv, InOrder, Guard, Enabled, Apply;
    if forall n :: 0 <= n < |r| ==> InOrder(r[n]) {
      forall i | 0 <= i < |steps|
        ensures Guard(r[i], steps[i])
      {
        RunHolds(r, steps, i, i);
        GuardExact(r[i], steps[i]);
        assert InOrder(r[i]) && InOrder(r[i + 1]);
      }
    }
    if forall i :: 0 <= i < |steps| ==> Guard(r[i], steps[i]) {
      forall n | 0 <= n < |r|
        ensures InOrder(r[n])
      {
        GuardedInOrder(r, steps, n);
      }
    }
  }

  lemma GuardExact(s: State, step: Step)
    requires Inv(s) && Enabled(s, step) && InOrder(s)
    ensures InOrder(Apply(s, step)) <==> Guard(s, step)
  {
    hide Inv, InOrder, Enabled, Apply;
    match step
    case Own(Queue) => QueueExact(s);
    case Own(Delete) => DeleteExact(s);
    case _ => OtherStepsKeep(s, step);
  }

  lemma {:induction false} GuardedInOrder(r: seq<State>, steps: seq<Step>, n: nat)
    requires Run(r, steps) && InOrder(r[0]) && (forall i :: 0 <= i < |steps| ==> Guard(r[i], steps[i])) && n < |r|
    ensures InOrder(r[n])
  {
    hide Inv, InOrder, Guard, Enabled, Apply;
    if n > 0 {
      GuardedInOrder(r, steps, n - 1);
      RunHolds(r, steps, n - 1, n - 1);
      GuardExact(r[n - 1], steps[n - 1]);
      assert Guard(r[n - 1], steps[n - 1]);
    }
  }

  /** Where the queue is out of line, the deletions already decided break the order: a run of them alone. */
  lemma {:induction false} OutOfLine(s: State) returns (r: seq<State>, steps: seq<Step>)
    requires Inv(s) && !Lined(s)
    ensures Run(r, steps) && r[0] == s && !OldestFirst(r[|r| - 1].names, |r[|r| - 1].chain|)
    decreases |Pending(s)|, if s.helper == Stopped then 0 else 1
  {
    hide Inv, LinedUp, OldestFirst, Enabled, Apply, Pending;
    if !OldestFirst(s.names, |s.chain|) { return [s], []; }
    var step := NextDeletion(s);
    StepKeeps(s, step);
    var t := Apply(s, step);
    if step != Help(Stop) {
      NextOut(s.names, Pending(s), |s.chain|);
      if Lined(t) { return [s, t], [step]; }
    }
    var q, more := OutOfLine(t);
    r, steps := [s] + q, [step] + more;
    Prepended(s, step, q, more);
  }

  /** The next of the deletions decided, once the helper is at rest or has stopped. */
  lemma NextDeletion(s: State) returns (step: Step)
    requires Inv(s) && !Lined(s)
    ensures Enabled(s, step) && Pending(s) != [] && (forall k :: k in Pending(s) ==> k < |s.chain|)
    ensures var t := Apply(s, step);
      && t.chain == s.chain
      && (if step == Help(Stop) then s.helper != Stopped && t.helper == Stopped && t.names == s.names
          && Pending(t) == Pending(s)
          else t.names == s.names - {Pending(s)[0]} && Pending(t) == Pending(s)[1..])
  {
    hide Inv, LinedUp, SetOf, ToPrune, OldestFirst;
    PendingDeletes(s);
    step := if s.deleting != [] then Help(DeleteQueued) else if s.helper == Stopped then Own(Release) else Help(Stop);
  }

  lemma Prepended(s: State, step: Step, q: seq<State>, more: seq<Step>)
    requires Inv(s) && Enabled(s, step) && Run(q, more) && q[0] == Apply(s, step)
    ensures Run([s] + q, [step] + more)
  {
    hide Inv, Enabled, Apply;
    var r, steps := [s] + q, [step] + more;
    forall i | 0 <= i < |steps|
      ensures Enabled(r[i], steps[i]) && r[i + 1] == Apply(r[i], steps[i])
    {
      if i > 0 { assert r[i] == q[i - 1] && r[i + 1] == q[i] && steps[i] == more[i - 1]; }
    }
  }

  lemma PendingDeletes(s: State)
    requires Inv(s) && !Lined(s)
    ensures s.chain != [] && Pending(s) != []
    ensures s.deleting != [] ==> s.helper == Resting
    ensures forall k :: k in Pending(s) ==> k < |s.chain|
  {
    hide ChainHolds, NamesHold, WriterHolds, Owned, RetentionHolds;
    PendingBefore(s);
    assert s.chain != [] by { ChainSome(s); }
  }

  lemma ChainSome(s: State)
    requires ChainHolds(s)
    ensures s.chain != []
  {
  }

  /** The next deletion leaves the order broken, or the rest still out of line. */
  lemma NextOut(names: map<nat, nat>, q: seq<nat>, n: nat)
    requires !LinedUp(names, q) && q != [] && (forall k :: k in q ==> k < n)
    ensures LinedUp(names - {q[0]}, q[1..]) ==> !OldestFirst(names - {q[0]}, n)
  {
    var i, k :| 0 <= i < |q| && k in names && k < q[i] && k !in q[..i];
    var fewer, u := names - {q[0]}, q[1..];
    if i == 0 {
      assert q[0] in q;
      if OldestFirst(fewer, n) { NamedFrom(fewer, n, k, q[0]); }
    } else {
      assert q[..i] == [q[0]] + u[..i - 1];
      assert k in fewer && k < u[i - 1] && k !in u[..i - 1];
    }
  }

  // ---------- two runs that break it ----------

  /** A run given by its steps alone: they can be taken from `s`, one after another, and lead to `t`. */
  ghost predicate Leads(s: State, steps: seq<Step>, t: State)
    decreases |steps|
  {
    if steps == [] then t == s else Enabled(s, steps[0]) && Leads(Apply(s, steps[0]), steps[1..], t)
  }

  lemma {:induction false} LeadsOn(s: State, a: seq<Step>, t: State, b: seq<Step>, u: State)
    requires Leads(s, a, t) && Leads(t, b, u)
    ensures Leads(s, a + b, u)
    decreases |a|
  {
    hide Enabled, Apply;
    if a == [] {
      assert a + b == b;
    } else {
      LeadsOn(Apply(s, a[0]), a[1..], t, b, u);
      assert (a + b)[1..] == a[1..] + b;
    }
  }

  lemma LeadsStep(s: State, steps: seq<Step>, t: State, step: Step)
    requires Leads(s, steps, t) && Enabled(t, step)
    ensures Leads(s, steps + [step], Apply(t, step))
  {
    hide Enabled, Apply;
    assert Leads(t, [step], Apply(t, step)) by { assert [step][1..] == []; }
    LeadsOn(s, steps, t, [step], Apply(t, step));
  }

  lemma {:induction false} LedRun(s: State, steps: seq<Step>, t: State) returns (r: seq<State>)
    requires Inv(s) && Leads(s, steps, t)
    ensures Run(r, steps) && r != [] && r[0] == s && r[|r| - 1] == t
    decreases |steps|
  {
    hide Inv, Enabled, Apply;
    if steps == [] {
      r := [s];
    } else {
      StepKeeps(s, steps[0]);
      var q := LedRun(Apply(s, steps[0]), steps[1..], t);
      r := [s] + q;
      Prepended(s, steps[0], q, steps[1..]);
      assert [steps[0]] + steps[1..] == steps;
    }
  }

  /** A roll for which the writer prepares the file itself, up to where retention begins. */
  function OwnRoll(file: nat): seq<Step> {
    [Own(Claim), Own(Miss), Own(Prepare(file)), Own(Publish), Own(Switch)]
  }

  function Rolled(s: State, file: nat): State
    requires s.chain != []
  {
    var n := |s.chain|;
    s.(chain := s.chain + [file], files := s.files[file := File(n, s.Last(), true)], names := s.names[n := file],
       claimed := n, current := n, deferred := [], dropped := s.dropped + SetOf(ToPrune(s, n)),
         writer := Pruning(ToPrune(s, n)))
  }

  lemma RollLeads(s: State, steps: seq<Step>, t: State, file: nat)
    requires Leads(s, steps, t) && t.chain != [] && t.writer == Idle && |t.chain| !in t.names && file !in t.files
    ensures Leads(s, steps + OwnRoll(file), Rolled(t, file))
  {
    hide Rolled, Leads, Enabled, Apply;
    RollSteps(t, file);
    var a := Apply(t, Own(Claim));
    var b := Apply(a, Own(Miss));
    var c := Apply(b, Own(Prepare(file)));
    var d := Apply(c, Own(Publish));
    LeadsStep(s, steps, t, Own(Claim));
    LeadsStep(s, steps + [Own(Claim)], a, Own(Miss));
    LeadsStep(s, steps + [Own(Claim)] + [Own(Miss)], b, Own(Prepare(file)));
    LeadsStep(s, steps + [Own(Claim)] + [Own(Miss)] + [Own(Prepare(file))], c, Own(Publish));
    LeadsStep(s, steps + [Own(Claim)] + [Own(Miss)] + [Own(Prepare(file))] + [Own(Publish)], d, Own(Switch));
    assert steps + OwnRoll(file)
        == steps + [Own(Claim)] + [Own(Miss)] + [Own(Prepare(file))] + [Own(Publish)] + [Own(Switch)];
  }

  /** The steps of such a roll, and what they come to. */
  lemma RollSteps(t: State, file: nat)
    requires t.chain != [] && t.writer == Idle && |t.chain| !in t.names && file !in t.files
    ensures Enabled(t, Own(Claim)) && Enabled(Apply(t, Own(Claim)), Own(Miss))
    ensures Enabled(Apply(Apply(t, Own(Claim)), Own(Miss)), Own(Prepare(file)))
    ensures Enabled(Apply(Apply(Apply(t, Own(Claim)), Own(Miss)), Own(Prepare(file))), Own(Publish))
    ensures var d := Apply(Apply(Apply(Apply(t, Own(Claim)), Own(Miss)), Own(Prepare(file))), Own(Publish));
      Enabled(d, Own(Switch)) && Apply(d, Own(Switch)) == Rolled(t, file)
  {
    hide WriterMay, WriterStepped, HelperMay, HelperStepped, Rolled, Prepared;
    RollPrepares(t, file);
    RollPublishes(t, file);
  }

  /** Such a roll up to the file being under its name. */
  function Prepared(t: State, file: nat): State
    requires t.chain != []
  {
    var n := |t.chain|;
    t.(claimed := n, names := t.names[n := file], files := t.files[file := File(n, t.Last(), false)],
       writer := Installed(file))
  }

  lemma RollPrepares(t: State, file: nat)
    requires t.chain != [] && t.writer == Idle && |t.chain| !in t.names && file !in t.files
    ensures Enabled(t, Own(Claim)) && Enabled(Apply(t, Own(Claim)), Own(Miss))
    ensures Enabled(Apply(Apply(t, Own(Claim)), Own(Miss)), Own(Prepare(file)))
    ensures Apply(Apply(Apply(t, Own(Claim)), Own(Miss)), Own(Prepare(file))) == Prepared(t, file)
  {
    assert Apply(Apply(t, Own(Claim)), Own(Miss)) == t.(claimed := |t.chain|, writer := Tried(None));
  }

  lemma RollPublishes(t: State, file: nat)
    requires t.chain != []
    ensures Enabled(Prepared(t, file), Own(Publish))
    ensures var d := Apply(Prepared(t, file), Own(Publish));
      Enabled(d, Own(Switch)) && Apply(d, Own(Switch)) == Rolled(t, file)
  {
    hide SetOf;
    var d := Apply(Prepared(t, file), Own(Publish));
    assert d.files == t.files[file := File(|t.chain|, t.Last(), true)];
  }

  /** A channel of one segment, of which retention keeps one. */
  function Single(a: nat): State {
    Started([a], map[a := File(0, 0, true)], map[0 := a], 1)
  }

  lemma SingleHolds(a: nat)
    ensures Inv(Single(a)) && InOrder(Single(a))
  {
    StartHolds([a], map[a := File(0, 0, true)], map[0 := a], 1);
  }

  /** A roll to `file` led from `s` to `t`, retention leaving `deferred` and `doomed`, with the helper where it was. */
  predicate RolledTo(s: State, file: nat, t: State, deferred: seq<nat>, doomed: seq<nat>) {
    && t.chain == s.chain + [file] && t.names == s.names[|s.chain| := file] && t.files.Keys == s.files.Keys + {file}
    && t.deferred == deferred && t.doomed == doomed && t.deleting == s.deleting
    && t.writer == Idle && t.keep == s.keep && t.helper == s.helper && t.inFlight == s.inFlight
  }

  predicate KeepsOne(s: State) {
    s.chain != [] && s.writer == Idle && s.keep == 1
  }

  /** A roll of a writer that keeps one segment and has deferred none, its retention queueing the segment left. */
  lemma QueuedLeads(s: State, steps: seq<Step>, t: State, file: nat) returns (u: State)
    requires Leads(s, steps, t) && KeepsOne(t) && t.deferred == [] && |t.chain| !in t.names && file !in t.files
    requires |t.doomed| < DOOMED_QUEUE && !Installing(t, |t.chain| - 1)
    ensures Leads(s, steps + OwnRoll(file) + [Own(Queue)] + [Own(PruneEnd)], u)
    ensures RolledTo(t, file, u, [], t.doomed + [|t.chain| - 1])
  {
    hide SetOf, Leads;
    RollLeads(s, steps, t, file);
    var a := Rolled(t, file);
    assert a.writer.left == [|t.chain| - 1];
    LeadsStep(s, steps + OwnRoll(file), a, Own(Queue));
    LeadsStep(s, steps + OwnRoll(file) + [Own(Queue)], Apply(a, Own(Queue)), Own(PruneEnd));
    u := Apply(Apply(a, Own(Queue)), Own(PruneEnd));
  }

  /** With the queue full the writer deletes the segment left itself. */
  lemma DeletedLeads(s: State, steps: seq<Step>, t: State, file: nat) returns (u: State)
    requires Leads(s, steps, t) && KeepsOne(t) && t.deferred == [] && |t.chain| !in t.names && file !in t.files
    requires |t.doomed| >= DOOMED_QUEUE && !Installing(t, |t.chain| - 1)
    ensures Leads(s, steps + OwnRoll(file) + [Own(Delete)], u)
    ensures u.chain == t.chain + [file] && u.names == t.names[|t.chain| := file] - {|t.chain| - 1}
  {
    hide SetOf, Leads;
    RollLeads(s, steps, t, file);
    var a := Rolled(t, file);
    assert a.writer.left == [|t.chain| - 1];
    LeadsStep(s, steps + OwnRoll(file), a, Own(Delete));
    u := Apply(a, Own(Delete));
  }

  /**
   * With the helper busy elsewhere and the queue full, the third roll deletes segment 2 while 0 and 1 are
   * still queued.
   */
  lemma QueueFullReorders(a: nat, b: nat, c: nat, d: nat) returns (r: seq<State>, steps: seq<Step>)
    requires a != b && a != c && a != d && b != c && b != d && c != d
    ensures Run(r, steps) && InOrder(r[0]) && r[0] == Single(a)
    ensures var t := r[|r| - 1]; |t.chain| == 4 && 1 in t.names && 2 !in t.names && !OldestFirst(t.names, |t.chain|)
  {
    hide SetOf, Leads, Inv, InOrder, OldestFirst, Run, OwnRoll;
    SingleHolds(a);
    var s0 := Single(a);
    LeadsNowhere(s0);
    var s1 := QueuedLeads(s0, [], s0, b);
    var p1 := [] + OwnRoll(b) + [Own(Queue)] + [Own(PruneEnd)];
    var s2 := QueuedLeads(s0, p1, s1, c);
    var p2 := p1 + OwnRoll(c) + [Own(Queue)] + [Own(PruneEnd)];
    var s3 := DeletedLeads(s0, p2, s2, d);
    steps := p2 + OwnRoll(d) + [Own(Delete)];
    r := LedRun(s0, steps, s3);
    GapMisorders(s3.names, 4, 1);
  }

  /** The helper has checked that it may install segment 1, and is held up there. */
  function HeldUp(s: State): State
    requires s.chain != []
  {
    s.(inFlight := Some(1), helper := Checked(1, s.chain[0]))
  }

  lemma HeldUpLeads(s: State)
    requires |s.chain| == 1 && s.helper == Resting && s.deleting == [] && s.current == 0 && s.segment == 0
    requires s.claimed == 0
    ensures Leads(s, [Help(See), Help(Parent), Help(Announce), Help(Check)], HeldUp(s))
  {
    hide Leads, Enabled, Apply;
    LeadsNowhere(s);
    SeeIs(s);
    LeadsStep(s, [], s, Help(See));
    LeadsStep(s, [] + [Help(See)], Apply(s, Help(See)), Help(Parent));
    LeadsStep(s, [] + [Help(See)] + [Help(Parent)], Apply(Apply(s, Help(See)), Help(Parent)), Help(Announce));
    LeadsStep(s, [] + [Help(See)] + [Help(Parent)] + [Help(Announce)],
        Apply(Apply(Apply(s, Help(See)), Help(Parent)), Help(Announce)), Help(Check));
    assert [] + [Help(See)] + [Help(Parent)] + [Help(Announce)] + [Help(Check)]
        == [Help(See), Help(Parent), Help(Announce), Help(Check)];
  }

  lemma SeeIs(s: State)
    requires |s.chain| == 1 && s.helper == Resting && s.deleting == [] && s.current == 0 && s.segment == 0
    requires s.claimed == 0
    ensures Enabled(s, Help(See)) && Enabled(Apply(s, Help(See)), Help(Parent))
    ensures Enabled(Apply(Apply(s, Help(See)), Help(Parent)), Help(Announce))
    ensures Enabled(Apply(Apply(Apply(s, Help(See)), Help(Parent)), Help(Announce)), Help(Check))
    ensures Apply(Apply(Apply(Apply(s, Help(See)), Help(Parent)), Help(Announce)), Help(Check)) == HeldUp(s)
  {
  }

  /** A roll whose retention defers segment 1. */
  lemma DeferredLeads(s: State, steps: seq<Step>, t: State, file: nat) returns (u: State)
    requires Leads(s, steps, t) && KeepsOne(t) && t.deferred == [] && |t.chain| == 2 && 2 !in t.names
    requires file !in t.files && Installing(t, 1)
    ensures Leads(s, steps + OwnRoll(file) + [Own(Defer)] + [Own(PruneEnd)], u) && RolledTo(t, file, u, [1], t.doomed)
  {
    hide SetOf, Leads;
    RollLeads(s, steps, t, file);
    var a := Rolled(t, file);
    assert a.writer.left == [1];
    LeadsStep(s, steps + OwnRoll(file), a, Own(Defer));
    LeadsStep(s, steps + OwnRoll(file) + [Own(Defer)], Apply(a, Own(Defer)), Own(PruneEnd));
    u := Apply(Apply(a, Own(Defer)), Own(PruneEnd));
  }

  /** A roll whose retention defers segment 1 again and queues segment 2. */
  lemma OvertakenLeads(s: State, steps: seq<Step>, t: State, file: nat) returns (u: State)
    requires Leads(s, steps, t) && KeepsOne(t) && t.deferred == [1] && |t.chain| == 3 && 3 !in t.names
    requires file !in t.files
    requires Installing(t, 1) && |t.doomed| < DOOMED_QUEUE
    ensures Leads(s, steps + OwnRoll(file) + [Own(Defer)] + [Own(Queue)] + [Own(PruneEnd)], u)
    ensures RolledTo(t, file, u, [1], t.doomed + [2])
  {
    hide SetOf, Leads, Enabled, Apply, OwnRoll;
    RollLeads(s, steps, t, file);
    var a := Rolled(t, file);
    assert a.writer.left == [1, 2];
    DeferThenQueue(a);
    var b := Apply(a, Own(Defer));
    var c := Apply(b, Own(Queue));
    u := Apply(c, Own(PruneEnd));
    LeadsStep(s, steps + OwnRoll(file), a, Own(Defer));
    LeadsStep(s, steps + OwnRoll(file) + [Own(Defer)], b, Own(Queue));
    LeadsStep(s, steps + OwnRoll(file) + [Own(Defer)] + [Own(Queue)], c, Own(PruneEnd));
  }

  lemma DeferThenQueue(s: State)
    requires s.chain != [] && s.writer == Pruning([1, 2]) && s.deferred == [] && Installing(s, 1)
    requires |s.doomed| < DOOMED_QUEUE
    ensures Enabled(s, Own(Defer)) && Enabled(Apply(s, Own(Defer)), Own(Queue))
    ensures Enabled(Apply(Apply(s, Own(Defer)), Own(Queue)), Own(PruneEnd))
    ensures Apply(Apply(Apply(s, Own(Defer)), Own(Queue)), Own(PruneEnd)) ==
      s.(deferred := [1], doomed := s.doomed + [2], writer := Idle)
  {
    assert [1, 2][1..] == [2] && [2][1..] == [] && [] + [1] == [1];
  }

  /** The helper gives up the segment it was held up on, takes the queue, and deletes what was in it. */
  lemma CaughtUpLeads(s: State, steps: seq<Step>, t: State) returns (u: State)
    requires Leads(s, steps, t) && t.chain != [] && t.helper.Checked? && t.deleting == [] && t.doomed == [0, 2]
    ensures Leads(s, steps + [Help(Lose)] + [Help(Clear)] + [Help(Swap)] + [Help(DeleteQueued)] + [Help(DeleteQueued)],
        u)
    ensures u.names == t.names - {0} - {2} && u.chain == t.chain
  {
    hide Leads;
    LeadsStep(s, steps, t, Help(Lose));
    var a := Apply(t, Help(Lose));
    LeadsStep(s, steps + [Help(Lose)], a, Help(Clear));
    var b := Apply(a, Help(Clear));
    LeadsStep(s, steps + [Help(Lose)] + [Help(Clear)], b, Help(Swap));
    var c := Apply(b, Help(Swap));
    assert c.deleting == [0, 2];
    LeadsStep(s, steps + [Help(Lose)] + [Help(Clear)] + [Help(Swap)], c, Help(DeleteQueued));
    var d := Apply(c, Help(DeleteQueued));
    assert d.deleting == [2];
    LeadsStep(s, steps + [Help(Lose)] + [Help(Clear)] + [Help(Swap)] + [Help(DeleteQueued)], d, Help(DeleteQueued));
    u := Apply(d, Help(DeleteQueued));
  }

  /** The helper is held up, and the writer has rolled once. */
  lemma StalledLeads(a: nat, b: nat) returns (steps: seq<Step>, t: State)
    requires a != b
    ensures Leads(Single(a), steps, t) && Own(Delete) !in steps
    ensures KeepsOne(t) && t.chain == [a, b] && t.names.Keys == {0, 1} && t.files.Keys == {a, b}
    ensures t.deferred == [] && t.doomed == [0] && t.deleting == [] && t.helper.Checked? && t.inFlight == Some(1)
  {
    hide SetOf, Leads, OwnRoll;
    var s := Single(a);
    HeldUpLeads(s);
    t := QueuedLeads(s, [Help(See), Help(Parent), Help(Announce), Help(Check)], HeldUp(s), b);
    steps := [Help(See), Help(Parent), Help(Announce), Help(Check)] + OwnRoll(b) + [Own(Queue)] + [Own(PruneEnd)];
    NoDelete(b);
  }

  lemma RolledFields(s: State, file: nat, t: State, deferred: seq<nat>, doomed: seq<nat>)
    requires RolledTo(s, file, t, deferred, doomed)
    ensures t.chain == s.chain + [file] && t.names.Keys == s.names.Keys + {|s.chain|}
    ensures t.files.Keys == s.files.Keys + {file}
    ensures t.deferred == deferred && t.doomed == doomed && t.deleting == s.deleting
    ensures t.writer == Idle && t.keep == s.keep && t.helper == s.helper && t.inFlight == s.inFlight
  {
  }

  /**
   * With the queue never overrun: while the helper is held up before installing segment 1, retention
   * defers it twice, and segment 2 is queued past it.
   */
  lemma DeferralReorders(a: nat, b: nat, c: nat, d: nat) returns (r: seq<State>, steps: seq<Step>)
    requires a != b && a != c && a != d && b != c && b != d && c != d
    ensures Run(r, steps) && InOrder(r[0]) && r[0] == Single(a) && Own(Delete) !in steps
    ensures var t := r[|r| - 1]; |t.chain| == 4 && 1 in t.names && 2 !in t.names && !OldestFirst(t.names, |t.chain|)
  {
    hide SetOf, Leads, Inv, InOrder, OldestFirst, Run, OwnRoll, Single, HeldUp, RolledTo;
    SingleHolds(a);
    var s0 := Single(a);
    var p1, s1 := StalledLeads(a, b);
    var s2 := DeferredLeads(s0, p1, s1, c);
    var p2 := p1 + OwnRoll(c) + [Own(Defer)] + [Own(PruneEnd)];
    RolledFields(s1, c, s2, [1], [0]);
    var s3 := OvertakenLeads(s0, p2, s2, d);
    var p3 := p2 + OwnRoll(d) + [Own(Defer)] + [Own(Queue)] + [Own(PruneEnd)];
    RolledFields(s2, d, s3, [1], [0] + [2]);
    var s4 := CaughtUpLeads(s0, p3, s3);
    steps := p3 + [Help(Lose)] + [Help(Clear)] + [Help(Swap)] + [Help(DeleteQueued)] + [Help(DeleteQueued)];
    NoDelete(c);
    NoDelete(d);
    r := LedRun(s0, steps, s4);
    GapMisorders(s4.names, 4, 1);
  }

  lemma NoDelete(file: nat)
    ensures Own(Delete) !in OwnRoll(file)
  {
  }

  lemma LeadsNowhere(s: State)
    ensures Leads(s, [], s)
  {
  }

  lemma GapMisorders(names: map<nat, nat>, n: nat, k: nat)
    requires k + 1 < n && k in names && k + 1 !in names
    ensures !OldestFirst(names, n)
  {
  }
}
