/**
 * A reader and its helper, which maps regions and opens the next segment ahead of it, while writers
 * install, abandon, replace, publish and unlink files: one step per access to what they share.
 */
module MapAhead {
  import opened Wrappers

  /** A file, or a region of one, with the segment it was opened as. */
  datatype Opened = Opened(sequence: nat, id: nat)

  datatype Region = Region(sequence: nat, region: nat, id: nat)

  /** What the reader tells the helper of a roll: the file it opened, or nothing if it took the one opened ahead. */
  datatype Roll = Roll(sequence: nat, file: Option<nat>)

  /** Where the reader is: in a segment, holding what it took from the slot, or in the next one but yet to say so. */
  datatype ReaderAt = Reading | Took(file: Option<Opened>) | Entered(ahead: bool)

  /**
   * Where the helper is in an iteration. `Finding` has seen that the slot lacks the next segment; `Holding`
   * has opened it.
   */
  datatype HelperAt = Top | Finding(sequence: nat) | Holding(file: Opened) | Storing(file: Opened)

  /**
   * `chain` holds the published files, by segment, each named by the committed Roll before it; `names`
   * the directory. The reader is in segment `sequence`, file `id`, with regions `mapped`.
   */
  datatype State = State(
    chain: seq<nat>, names: map<nat, nat>,
    sequence: nat, id: nat, reader: ReaderAt, mapped: seq<Region>,
    wantSequence: nat, wantRegion: nat, rolled: Option<Roll>, ready: Option<Region>, nextSegment: Option<Opened>,
    segment: Option<Opened>, upcoming: Option<Opened>, helper: HelperAt)

  datatype Step =
    // writers
    | Install(id: nat) | Abandon | Publish | Unlink(k: nat)
    // the reader
    | MapRegion(region: nat) | TakeRegion(region: nat) | TakeSegment | Follow | Tell(cloned: bool)
    // the helper
    | Learn | Map | Find | Open | Keep(cloned: bool) | Offer

  predicate Enabled(s: State, step: Step) {
    && s.chain != []
    && match step
       case Install(id) => |s.chain| !in s.names && id !in s.chain
       case Abandon => |s.chain| in s.names
       case Publish => |s.chain| in s.names && s.names[|s.chain|] !in s.chain
       case Unlink(k) => k + 1 < |s.chain|
       case MapRegion(region) => s.reader == Reading
       case TakeRegion(region) => s.reader == Reading && s.ready.Some? && s.ready.value.sequence == s.sequence
         && s.ready.value.region == region
       case TakeSegment => s.reader == Reading && s.sequence + 1 < |s.chain|
       case Follow => s.reader.Took? && s.sequence + 1 < |s.chain|
       case Tell(cloned) => s.reader.Entered?
       case Learn => s.helper == Top && s.rolled.Some?
       case Map => s.helper == Top && s.segment.Some? && s.segment.value.sequence == s.wantSequence
       case Find => s.helper == Top && s.segment.Some? && s.segment.value.sequence == s.wantSequence
         && !(s.nextSegment.Some? && s.nextSegment.value.sequence == s.wantSequence + 1)
       case Open => s.helper.Finding?
       case Keep(cloned) => s.helper.Holding?
       case Offer => s.helper.Storing?
  }

  function Apply(s: State, step: Step): State
    requires Enabled(s, step)
  {
    match step
    case Install(id) => s.(names := s.names[|s.chain| := id])
    case Abandon => s.(names := s.names - {|s.chain|})
    case Publish => s.(chain := s.chain + [s.names[|s.chain|]])
    case Unlink(k) => s.(names := s.names - {k})
    case MapRegion(region) => s.(mapped := s.mapped + [Region(s.sequence, region, s.id)], wantRegion := region + 1,
        wantSequence := s.sequence)
    case TakeRegion(region) =>
      s.(ready := None, mapped := s.mapped + [s.ready.value], wantRegion := region + 1, wantSequence := s.sequence)
    case TakeSegment =>
      if s.nextSegment.Some? && s.nextSegment.value.sequence == s.sequence + 1
      then s.(nextSegment := None, reader := Took(s.nextSegment))
      else s.(reader := Took(None))
    case Follow =>
      // The committed Roll names the file; one opened ahead is used only if it is that file.
      var n := s.sequence + 1;
      if s.reader.file.Some? && s.reader.file.value.id == s.chain[n]
      then s.(sequence := n, id := s.reader.file.value.id, mapped := [Region(n, 0, s.reader.file.value.id)],
          reader := Entered(true))
      else if n in s.names && s.names[n] == s.chain[n]
      then s.(sequence := n, id := s.names[n], mapped := [Region(n, 0, s.names[n])], reader := Entered(false))
      else s.(reader := Reading)
    case Tell(cloned) =>
      var t := s.(reader := Reading, wantSequence := s.sequence, wantRegion := 1);
      if s.reader.ahead then t.(rolled := Some(Roll(s.sequence, None)))
      else if cloned then t.(rolled := Some(Roll(s.sequence, Some(s.id))))
      else t
    case Learn =>
      var r := s.rolled.value;
      if r.file.Some? then s.(rolled := None, segment := Some(Opened(r.sequence, r.file.value)))
      else s.(rolled := None, upcoming := None,
              segment := if s.upcoming.Some? && s.upcoming.value.sequence == r.sequence then s.upcoming else None)
    case Map => s.(ready := Some(Region(s.segment.value.sequence, s.wantRegion, s.segment.value.id)))
    case Find => s.(helper := Finding(s.wantSequence + 1))
    case Open =>
      var n := s.helper.sequence;
      if n in s.names then s.(helper := Holding(Opened(n, s.names[n]))) else s.(helper := Top)
    case Keep(cloned) => s.(upcoming := if cloned then Some(s.helper.file) else None, helper := Storing(s.helper.file))
    case Offer => s.(nextSegment := Some(s.helper.file), helper := Top)
  }

  // ---------- the invariant ----------

  /** A segment's own file. */
  predicate Own(chain: seq<nat>, f: Opened) {
    f.sequence < |chain| && chain[f.sequence] == f.id
  }

  /** The reader took the file of segment `n` from the slot, and the helper has yet to hear of it. */
  predicate Untold(s: State, n: nat) {
    (s.reader == Entered(true) && s.sequence == n) || s.rolled == Some(Roll(n, None))
  }

  ghost predicate DirectoryHolds(s: State) {
    && s.chain != []
    && (forall k :: k in s.names ==> k <= |s.chain|)
    && (forall k :: k in s.names && k < |s.chain| ==> s.names[k] == s.chain[k])
    && (|s.chain| in s.names ==> s.names[|s.chain|] !in s.chain)
  }

  ghost predicate ReaderHolds(s: State) {
    && Own(s.chain, Opened(s.sequence, s.id))
    && (forall i :: 0 <= i < |s.mapped| ==> s.mapped[i].sequence == s.sequence && s.mapped[i].id == s.id)
    && (s.reader.Took? ==> s.sequence + 1 < |s.chain|)
    && (s.reader.Took? && s.reader.file.Some? ==> s.reader.file.value.sequence == s.sequence + 1)
    && (s.rolled.Some? ==> s.rolled.value.sequence < |s.chain|)
    && (s.rolled.Some? && s.rolled.value.file.Some? ==>
        Own(s.chain, Opened(s.rolled.value.sequence, s.rolled.value.file.value)))
  }

  /** What the helper maps from is the reader's word, or the file the reader took from it. */
  ghost predicate HelperHolds(s: State) {
    && (s.segment.Some? ==> Own(s.chain, s.segment.value))
    && (s.ready.Some? ==> Own(s.chain, Opened(s.ready.value.sequence, s.ready.value.id)))
    && (s.upcoming.Some? && Untold(s, s.upcoming.value.sequence) ==> Own(s.chain, s.upcoming.value))
  }

  /**
   * The slot, what the reader took from it and the helper's own handle are all one file; a file opened later
   * is what the name then led to.
   */
  ghost predicate SlotHolds(s: State) {
    && (s.nextSegment.Some? && s.upcoming.Some? && s.nextSegment.value.sequence == s.upcoming.value.sequence ==>
        s.nextSegment == s.upcoming)
    && (s.reader.Took? && s.reader.file.Some? && s.upcoming.Some?
        && s.upcoming.value.sequence == s.reader.file.value.sequence ==>
         s.upcoming == s.reader.file || Own(s.chain, s.upcoming.value))
    && (s.helper.Finding? ==> !(s.nextSegment.Some? && s.nextSegment.value.sequence == s.helper.sequence))
    && (s.helper.Holding? || s.helper.Storing? ==>
         && !(s.nextSegment.Some? && s.nextSegment.value.sequence == s.helper.file.sequence)
         && (Untold(s, s.helper.file.sequence) ==> Own(s.chain, s.helper.file))
         && (s.reader.Took? && s.reader.file.Some? && s.reader.file.value.sequence == s.helper.file.sequence ==>
             Own(s.chain, s.helper.file)))
    && (s.helper.Storing? ==> s.upcoming.None? || s.upcoming == Some(s.helper.file))
  }

  ghost predicate Inv(s: State) {
    DirectoryHolds(s) && ReaderHolds(s) && HelperHolds(s) && SlotHolds(s)
  }

  lemma DirectoryKept(s: State, step: Step)
    requires Inv(s) && Enabled(s, step)
    ensures DirectoryHolds(Apply(s, step))
  {
    hide HelperHolds, SlotHolds, ReaderHolds;
  }

  /** What writers do makes no file another segment's. */
  lemma WritersKeep(s: State, step: Step)
    requires Inv(s) && Enabled(s, step) && (step.Install? || step.Abandon? || step.Publish? || step.Unlink?)
    ensures var t := Apply(s, step); ReaderHolds(t) && HelperHolds(t) && SlotHolds(t)
  {
    hide DirectoryHolds;
    var t := Apply(s, step);
    forall f: Opened | Own(s.chain, f)
      ensures Own(t.chain, f)
    {
    }
  }

  lemma MappingKeeps(s: State, step: Step)
    requires Inv(s) && Enabled(s, step) && (step.MapRegion? || step.TakeRegion?)
    ensures var t := Apply(s, step); ReaderHolds(t) && HelperHolds(t) && SlotHolds(t)
  {
    hide DirectoryHolds;
  }

  lemma TakingKeeps(s: State)
    requires Inv(s) && Enabled(s, TakeSegment)
    ensures var t := Apply(s, TakeSegment); ReaderHolds(t) && HelperHolds(t) && SlotHolds(t)
  {
    hide ReaderHolds, HelperHolds, SlotHolds, DirectoryHolds, Enabled, Apply;
    TakingReader(s);
    TakingHelper(s);
    TakingSlot(s);
  }

  lemma TakingReader(s: State)
    requires Inv(s) && Enabled(s, TakeSegment)
    ensures ReaderHolds(Apply(s, TakeSegment))
  {
    hide DirectoryHolds, HelperHolds, SlotHolds;
  }

  lemma TakingHelper(s: State)
    requires Inv(s) && Enabled(s, TakeSegment)
    ensures HelperHolds(Apply(s, TakeSegment))
  {
    hide DirectoryHolds;
  }

  lemma TakingSlot(s: State)
    requires Inv(s) && Enabled(s, TakeSegment)
    ensures SlotHolds(Apply(s, TakeSegment))
  {
    hide DirectoryHolds;
  }

  lemma TellingKeeps(s: State, cloned: bool)
    requires Inv(s) && Enabled(s, Tell(cloned))
    ensures var t := Apply(s, Tell(cloned)); ReaderHolds(t) && HelperHolds(t) && SlotHolds(t)
  {
    hide ReaderHolds, HelperHolds, SlotHolds, DirectoryHolds, Enabled, Apply;
    TellingReader(s, cloned);
    TellingHelper(s, cloned);
    TellingSlot(s, cloned);
  }

  lemma TellingReader(s: State, cloned: bool)
    requires Inv(s) && Enabled(s, Tell(cloned))
    ensures ReaderHolds(Apply(s, Tell(cloned)))
  {
    hide DirectoryHolds, HelperHolds, SlotHolds;
  }

  lemma TellingHelper(s: State, cloned: bool)
    requires Inv(s) && Enabled(s, Tell(cloned))
    ensures HelperHolds(Apply(s, Tell(cloned)))
  {
    hide DirectoryHolds;
  }

  lemma TellingSlot(s: State, cloned: bool)
    requires Inv(s) && Enabled(s, Tell(cloned))
    ensures SlotHolds(Apply(s, Tell(cloned)))
  {
    hide DirectoryHolds;
  }

  lemma FollowKeeps(s: State)
    requires Inv(s) && Enabled(s, Follow)
    ensures var t := Apply(s, Follow); ReaderHolds(t) && HelperHolds(t) && SlotHolds(t)
  {
    hide ReaderHolds, HelperHolds, SlotHolds, DirectoryHolds, Enabled, Apply;
    FollowReader(s);
    FollowHelper(s);
    FollowSlot(s);
  }

  lemma FollowReader(s: State)
    requires Inv(s) && Enabled(s, Follow)
    ensures ReaderHolds(Apply(s, Follow))
  {
    hide DirectoryHolds, HelperHolds, SlotHolds;
  }

  lemma FollowHelper(s: State)
    requires Inv(s) && Enabled(s, Follow)
    ensures HelperHolds(Apply(s, Follow))
  {
    hide DirectoryHolds;
  }

  lemma FollowSlot(s: State)
    requires Inv(s) && Enabled(s, Follow)
    ensures SlotHolds(Apply(s, Follow))
  {
    hide DirectoryHolds;
  }

  lemma HelperKeeps(s: State, step: Step)
    requires Inv(s) && Enabled(s, step)
    requires step.Learn? || step.Map? || step.Find? || step.Open? || step.Keep? || step.Offer?
    ensures var t := Apply(s, step); ReaderHolds(t) && HelperHolds(t) && SlotHolds(t)
  {
    hide Inv, ReaderHolds, HelperHolds, SlotHolds, Enabled, Apply;
    match step
    case Learn => LearnKeeps(s);
    case Map => MapKeeps(s);
    case Find => FindKeeps(s);
    case Open => OpenKeeps(s);
    case Keep(cloned) => KeepKeeps(s, cloned);
    case Offer => OfferKeeps(s);
  }

  lemma LearnKeeps(s: State)
    requires Inv(s) && Enabled(s, Learn)
    ensures var t := Apply(s, Learn); ReaderHolds(t) && HelperHolds(t) && SlotHolds(t)
  {
    hide DirectoryHolds;
  }

  lemma MapKeeps(s: State)
    requires Inv(s) && Enabled(s, Map)
    ensures var t := Apply(s, Map); ReaderHolds(t) && HelperHolds(t) && SlotHolds(t)
  {
    hide DirectoryHolds;
  }

  lemma FindKeeps(s: State)
    requires Inv(s) && Enabled(s, Find)
    ensures var t := Apply(s, Find); ReaderHolds(t) && HelperHolds(t) && SlotHolds(t)
  {
    hide DirectoryHolds;
  }

  lemma KeepKeeps(s: State, cloned: bool)
    requires Inv(s) && Enabled(s, Keep(cloned))
    ensures var t := Apply(s, Keep(cloned)); ReaderHolds(t) && HelperHolds(t) && SlotHolds(t)
  {
    hide DirectoryHolds;
  }

  lemma OfferKeeps(s: State)
    requires Inv(s) && Enabled(s, Offer)
    ensures var t := Apply(s, Offer); ReaderHolds(t) && HelperHolds(t) && SlotHolds(t)
  {
    hide DirectoryHolds;
  }

  lemma OpenKeeps(s: State)
    requires Inv(s) && Enabled(s, Open)
    ensures var t := Apply(s, Open); ReaderHolds(t) && HelperHolds(t) && SlotHolds(t)
  {
    hide ReaderHolds, HelperHolds, SlotHolds, DirectoryHolds, Enabled, Apply;
    OpenReader(s);
    OpenHelper(s);
    OpenSlot(s);
  }

  lemma OpenReader(s: State)
    requires Inv(s) && Enabled(s, Open)
    ensures ReaderHolds(Apply(s, Open))
  {
    hide DirectoryHolds, HelperHolds, SlotHolds;
  }

  lemma OpenHelper(s: State)
    requires Inv(s) && Enabled(s, Open)
    ensures HelperHolds(Apply(s, Open))
  {
    hide DirectoryHolds;
  }

  lemma OpenSlot(s: State)
    requires Inv(s) && Enabled(s, Open)
    ensures SlotHolds(Apply(s, Open))
  {
  }

  lemma StepKeeps(s: State, step: Step)
    requires Inv(s) && Enabled(s, step)
    ensures Inv(Apply(s, step))
  {
    hide DirectoryHolds, ReaderHolds, HelperHolds, SlotHolds, Enabled, Apply;
    DirectoryKept(s, step);
    match step
    case Install(_) => WritersKeep(s, step);
    case Abandon => WritersKeep(s, step);
    case Publish => WritersKeep(s, step);
    case Unlink(_) => WritersKeep(s, step);
    case MapRegion(_) => MappingKeeps(s, step);
    case TakeRegion(_) => MappingKeeps(s, step);
    case TakeSegment => TakingKeeps(s);
    case Follow => FollowKeeps(s);
    case Tell(cloned) => TellingKeeps(s, cloned);
    case _ => HelperKeeps(s, step);
  }

  // ---------- over whole runs ----------

  /** A reader starts in a segment, with a helper that has been told which file that is. */
  function Started(chain: seq<nat>, names: map<nat, nat>, k: nat, region: nat): State
    requires k < |chain|
  {
    State(chain, names, k, chain[k], Reading, [Region(k, region, chain[k])], k, region + 1,
          Some(Roll(k, Some(chain[k]))), None, None, None, None, Top)
  }

  lemma StartHolds(chain: seq<nat>, names: map<nat, nat>, k: nat, region: nat)
    requires k < |chain| && forall j :: j in names ==> j <= |chain|
    requires forall j :: j in names && j < |chain| ==> names[j] == chain[j]
    requires |chain| in names ==> names[|chain|] !in chain
    ensures Inv(Started(chain, names, k, region))
  {
  }

  /** Any interleaving of writers, the reader and its helper, from a state that satisfies the invariant. */
  ghost predicate Run(r: seq<State>, steps: seq<Step>) {
    |r| == |steps| + 1 && Inv(r[0]) && forall i :: 0 <= i < |steps| ==>
      Enabled(r[i], steps[i]) && r[i + 1] == Apply(r[i], steps[i])
  }

  lemma {:induction false} RunHolds(r: seq<State>, steps: seq<Step>, i: nat)
    requires Run(r, steps) && i < |r|
    ensures Inv(r[i])
  {
    hide Inv, Enabled, Apply;
    if i > 0 {
      RunHolds(r, steps, i - 1);
      StepKeeps(r[i - 1], steps[i - 1]);
    }
  }

  /**
   * With a helper or without, a reader is in none but the file its Roll named, and every region it has
   * mapped, ahead or not, is of that file: one opened ahead, then abandoned and replaced, is never followed.
   */
  lemma OnlyNamedFiles(r: seq<State>, steps: seq<Step>, i: nat, j: nat)
    requires Run(r, steps) && i < |r| && j < |r[i].mapped|
    ensures r[i].sequence < |r[i].chain| && r[i].id == r[i].chain[r[i].sequence]
    ensures r[i].mapped[j].sequence == r[i].sequence && r[i].mapped[j].id == r[i].chain[r[i].sequence]
  {
    hide Run, DirectoryHolds, HelperHolds, SlotHolds;
    RunHolds(r, steps, i);
  }

  /** Whatever was opened ahead under the next name, a file that is not published is neither read nor mapped. */
  lemma StaleTurnedDown(r: seq<State>, steps: seq<Step>, i: nat, id: nat)
    requires Run(r, steps) && i < |r| && id !in r[i].chain
    ensures r[i].id != id && forall j :: 0 <= j < |r[i].mapped| ==> r[i].mapped[j].id != id
  {
    hide Run, Inv;
    forall j | 0 <= j < |r[i].mapped|
      ensures r[i].mapped[j].id != id
    {
      OnlyNamedFiles(r, steps, i, j);
    }
    OwnFile(r, steps, i);
  }

  lemma OwnFile(r: seq<State>, steps: seq<Step>, i: nat)
    requires Run(r, steps) && i < |r|
    ensures r[i].sequence < |r[i].chain| && r[i].id == r[i].chain[r[i].sequence]
  {
    hide Run, DirectoryHolds, HelperHolds, SlotHolds;
    RunHolds(r, steps, i);
  }

  /** A region that the reader takes ready-mapped is of the file it is in. */
  lemma TakenRegionOwn(r: seq<State>, steps: seq<Step>, i: nat, region: nat)
    requires Run(r, steps) && i < |r| && Enabled(r[i], TakeRegion(region))
    ensures r[i].ready.value == Region(r[i].sequence, region, r[i].id)
  {
    hide Run, DirectoryHolds, SlotHolds;
    RunHolds(r, steps, i);
  }
}
