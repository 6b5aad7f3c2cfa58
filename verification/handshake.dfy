/**
 * The handshake of writer and helper is about the files of a channel: each of its steps that installs,
 * publishes or unlinks is that store on the channel's disk, and no other step touches it.
 */
module Handshake {
  import opened Bytes
  import opened Layout
  import opened Linking
  import opened Segments
  import opened Channel
  import Prefault

  /** Instances, as the handshake numbers them. */
  type Numbering = InstanceId -> nat

  ghost predicate OneToOne(f: Numbering) {
    forall i, j {:trigger f(i), f(j)} :: f(i) == f(j) ==> i == j
  }

  function FileOf(f: Numbering, s: Segment): Prefault.File {
    Prefault.File(s.sequence, f(s.identity.predecessor), s.published)
  }

  /** The handshake's history, directory and files are those of the disk. */
  ghost predicate Reflects(f: Numbering, d: Disk, ch: History, s: Prefault.State) {
    && |s.chain| == |ch| && (forall k :: 0 <= k < |ch| ==> s.chain[k] == f(ch[k]))
    && s.names.Keys == d.names.Keys && (forall n :: n in d.names ==> s.names[n] == f(d.names[n]))
    && (forall i :: i in d.files ==> f(i) in s.files && s.files[f(i)] == FileOf(f, d.files[i]))
  }

  predicate TakesName(step: Prefault.Step) {
    || step == Prefault.Own(Prefault.Delete) || step == Prefault.Own(Prefault.Release)
    || step == Prefault.Help(Prefault.DeleteQueued)
  }

  /** Which segment's name such a step takes away. */
  function Removed(s: Prefault.State, step: Prefault.Step): nat
    requires Prefault.Enabled(s, step) && TakesName(step)
  {
    match step
    case Own(Delete) => s.writer.left[0]
    case Own(Release) => s.doomed[0]
    case Help(DeleteQueued) => s.deleting[0]
  }

  predicate Installs(step: Prefault.Step) {
    (step.Own? && step.own.Prepare?) || (step.Help? && step.help.Install?)
  }

  function FileNumber(step: Prefault.Step): nat
    requires Installs(step)
  {
    if step.Own? then step.own.file else step.help.file
  }

  /** Installing, by the writer or the helper, is `Install` under the next name. */
  lemma InstallReflects(f: Numbering, g: Geometry, d: Disk, ch: History, s: Prefault.State, step: Prefault.Step,
      i: InstanceId)
    requires OneToOne(f) && Inv(g, d, ch) && Prefault.Inv(s) && Reflects(f, d, ch, s) && Prefault.Enabled(s, step)
    requires Installs(step) && FileNumber(step) == f(i) && i != NONE && |ch| <= U64_MAX
    ensures ch[0] in d.files && i !in d.files && |ch| !in d.names
    ensures var e := Install(g, d, ch, i);
      Inv(g, e, ch) && Advances(g, d, ch, e, ch) && Reflects(f, e, ch, Prefault.Apply(s, step))
  {
    hide Inv, Members, Advances, Prefault.Inv, Prefault.Apply, Reflects, FileOf;
    StepInstalls(s, step);
    NotThere(f, d, ch, s, i);
    MemberFiles(g, d, ch, 0);
    InstallKeeps(g, d, ch, i);
    InstalledFile(f, g, d, ch, s, i);
    AddedReflects(f, d, ch, s, Install(g, d, ch, i), Prefault.Apply(s, step), i);
  }

  /** What an installing step makes of the handshake's files and names. */
  lemma StepInstalls(s: Prefault.State, step: Prefault.Step)
    requires Prefault.Inv(s) && Prefault.Enabled(s, step) && Installs(step)
    ensures var t, n, id := Prefault.Apply(s, step), |s.chain|, FileNumber(step);
      && n > 0 && n !in s.names && id !in s.files
      && t.chain == s.chain && t.names == s.names[n := id]
      && t.files == s.files[id := Prefault.File(n, s.Last(), false)]
  {
    hide Prefault.Inv;
    if step.Help? { Prefault.InstallNext(s, step.help.file); }
  }

  lemma NotThere(f: Numbering, d: Disk, ch: History, s: Prefault.State, i: InstanceId)
    requires Reflects(f, d, ch, s) && f(i) !in s.files && |s.chain| !in s.names
    ensures i !in d.files && |ch| == |s.chain| && |ch| !in d.names
  {
    hide FileOf;
  }

  lemma InstalledFile(f: Numbering, g: Geometry, d: Disk, ch: History, s: Prefault.State, i: InstanceId)
    requires g.Valid() && Reflects(f, d, ch, s) && 1 <= |ch| <= U64_MAX && ch[0] in d.files
    ensures var e := Install(g, d, ch, i);
      && s.chain != [] && i in e.files && e == Disk(d.files[i := e.files[i]], d.names[|ch| := i])
      && FileOf(f, e.files[i]) == Prefault.File(|ch|, s.Last(), false)
  {
    hide Segments.Fresh;
    FreshFields(g, 0, |ch|, Seg(d, ch, 0).generation, Successor(i, ch[|ch| - 1], |ch| - 1));
  }

  lemma AddedReflects(f: Numbering, d: Disk, ch: History, s: Prefault.State, e: Disk, t: Prefault.State, i: InstanceId)
    requires OneToOne(f) && Reflects(f, d, ch, s) && i !in d.files && i in e.files
    requires e == Disk(d.files[i := e.files[i]], d.names[|ch| := i])
    requires t.chain == s.chain && t.names == s.names[|ch| := f(i)]
    requires t.files == s.files[f(i) := FileOf(f, e.files[i])]
    ensures Reflects(f, e, ch, t)
  {
    hide FileOf;
    forall j | j in e.files
      ensures f(j) in t.files && t.files[f(j)] == FileOf(f, e.files[j])
    {
      if j != i { assert f(j) != f(i) && e.files[j] == d.files[j]; }
    }
  }

  /** Publishing, once the Roll is staged and the file stamped, is `Publish` of the file under the next name. */
  lemma PublishReflects(f: Numbering, g: Geometry, d: Disk, ch: History, s: Prefault.State)
    requires OneToOne(f) && Inv(g, d, ch) && Prefault.Inv(s) && Reflects(f, d, ch, s)
    requires Prefault.Enabled(s, Prefault.Own(Prefault.Publish)) && ReadyToPublish(g, d, ch)
    ensures var e, dh := Publish(d, d.names[|ch|]), ch + [d.names[|ch|]];
      && Inv(g, e, dh) && Advances(g, d, ch, e, dh)
      && Reflects(f, e, dh, Prefault.Apply(s, Prefault.Own(Prefault.Publish)))
  {
    hide Inv, Members, Advances, ReadyToPublish, Prefault.ChainHolds, Prefault.NamesHold, Prefault.HelperHolds,
      Prefault.RetentionHolds;
    PublishKeeps(g, d, ch);
    var i := d.names[|ch|];
    assert s.writer.id == f(i);
  }

  /** The channel lets segment `k` lose its name: it is not the newest, and the roll out of it is complete. */
  ghost predicate MayLose(g: Geometry, d: Disk, ch: History, k: nat)
    requires Inv(g, d, ch)
  {
    k + 2 == |ch| ==> Done(g, Seg(d, ch, k))
  }

  /** Taking away a name is `Unlink`, and never of the newest segment's. */
  lemma RemoveReflects(f: Numbering, g: Geometry, d: Disk, ch: History, s: Prefault.State, step: Prefault.Step)
    requires Inv(g, d, ch) && Prefault.Inv(s) && Reflects(f, d, ch, s) && Prefault.Enabled(s, step) && TakesName(step)
    requires MayLose(g, d, ch, Removed(s, step))
    ensures Removed(s, step) < |ch| - 1
    ensures var e := d.(names := d.names - {Removed(s, step)});
      Inv(g, e, ch) && Advances(g, d, ch, e, ch) && Reflects(f, e, ch, Prefault.Apply(s, step))
  {
    hide Inv, Members, Advances, Done, FileOf, Prefault.Inv, Prefault.Apply;
    NameTaken(s, step);
    UnlinkKeeps(g, d, ch, Removed(s, step));
  }

  lemma NameTaken(s: Prefault.State, step: Prefault.Step)
    requires Prefault.Inv(s) && Prefault.Enabled(s, step) && TakesName(step)
    ensures var t := Prefault.Apply(s, step);
      && Removed(s, step) < |s.chain| - 1
      && t.chain == s.chain && t.files == s.files && t.names == s.names - {Removed(s, step)}
  {
    hide Prefault.ChainHolds, Prefault.NamesHold, Prefault.HelperHolds, Prefault.WriterHolds, Prefault.RetentionHolds;
    Prefault.LeftDropped(s);
  }

  /** Any other step leaves the disk alone. */
  lemma OthersReflect(f: Numbering, d: Disk, ch: History, s: Prefault.State, step: Prefault.Step)
    requires Reflects(f, d, ch, s) && Prefault.Enabled(s, step)
    requires !Installs(step) && step != Prefault.Own(Prefault.Publish) && !TakesName(step)
    ensures Reflects(f, d, ch, Prefault.Apply(s, step))
  {
    hide FileOf, Prefault.WriterMay, Prefault.HelperMay, Prefault.WriterStepped, Prefault.HelperStepped;
    if step.Own? { OwnApart(s, step.own); } else { HelpApart(s, step.help); }
  }

  lemma OwnApart(s: Prefault.State, step: Prefault.WriterStep)
    requires s.chain != [] && Prefault.WriterMay(s, step)
    requires !step.Prepare? && step != Prefault.Publish && step != Prefault.Delete && step != Prefault.Release
    ensures var t := Prefault.WriterStepped(s, step); t.chain == s.chain && t.names == s.names && t.files == s.files
  {
    hide Prefault.SetOf, Prefault.ToPrune;
  }

  lemma HelpApart(s: Prefault.State, step: Prefault.HelperStep)
    requires Prefault.HelperMay(s, step) && !step.Install? && step != Prefault.DeleteQueued
    ensures var t := Prefault.HelperStepped(s, step); t.chain == s.chain && t.names == s.names && t.files == s.files
  {
  }

  /** What the channel asks of a step: a fresh file to install, a staged Roll to publish, a complete roll to unlink. */
  ghost predicate Allowed(f: Numbering, g: Geometry, d: Disk, ch: History, s: Prefault.State, step: Prefault.Step,
      i: InstanceId)
    requires Inv(g, d, ch) && Prefault.Enabled(s, step)
  {
    && (Installs(step) ==> FileNumber(step) == f(i) && i != NONE && |ch| <= U64_MAX)
    && (step == Prefault.Own(Prefault.Publish) ==> ReadyToPublish(g, d, ch))
    && (TakesName(step) ==> MayLose(g, d, ch, Removed(s, step)))
  }

  /**
   * Every step of the handshake is a store that the channel allows, or none: what is proved of its runs is
   * so of the files.
   */
  lemma StepReflects(f: Numbering, g: Geometry, d: Disk, ch: History, s: Prefault.State, step: Prefault.Step,
      i: InstanceId) returns (e: Disk, dh: History)
    requires OneToOne(f) && Inv(g, d, ch) && Prefault.Inv(s) && Reflects(f, d, ch, s)
    requires Prefault.Enabled(s, step) && Allowed(f, g, d, ch, s, step, i)
    ensures Inv(g, e, dh) && Advances(g, d, ch, e, dh) && Reflects(f, e, dh, Prefault.Apply(s, step))
    ensures Prefault.Inv(Prefault.Apply(s, step))
  {
    hide Inv, Members, Advances, Reflects, ReadyToPublish, MayLose, Prefault.Inv, Prefault.Enabled, Prefault.Apply;
    Prefault.StepKeeps(s, step);
    if Installs(step) {
      InstallReflects(f, g, d, ch, s, step, i);
      e, dh := Install(g, d, ch, i), ch;
    } else if step == Prefault.Own(Prefault.Publish) {
      PublishReflects(f, g, d, ch, s);
      e, dh := Publish(d, d.names[|ch|]), ch + [d.names[|ch|]];
    } else if TakesName(step) {
      RemoveReflects(f, g, d, ch, s, step);
      e, dh := d.(names := d.names - {Removed(s, step)}), ch;
    } else {
      OthersReflect(f, d, ch, s, step);
      AdvancesReflexive(g, d, ch);
      e, dh := d, ch;
    }
  }
}
