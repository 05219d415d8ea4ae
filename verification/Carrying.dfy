/** What each filesystem call of an item's turn does to the item's exposure: it carries it on. */
module Carrying {
  import opened Basics
  import opened Disks
  import opened Protocol
  import opened Frames
  import opened Operations
  import opened Directories
  import opened Dangers
  import opened Filesystem
  import opened Turns

  lemma {:induction false} NearestSame(d: Disk, e: Disk, g: Dir)
    requires e.folders == d.folders
    ensures Nearest(e, g) == Nearest(d, g)
    decreases Depth(g)
  {
    if g !in d.folders && g != TOP { NearestSame(d, e, Parent(g)); }
  }

  /** Where the item's files go: below folders, and under different names. */
  ghost predicate Placed(plan: Plan, k: nat) {
    && k < |plan.items|
    && (forall p :: Publishes(plan.items[k], p) ==> UserPath(p))
    && (plan.items[k].lifecycle.ArchiveAfterVerify? ==>
         plan.items[k].lifecycle.archive != plan.items[k].destination)
  }

  lemma ShapedPlaced(plan: Plan, k: nat)
    requires Shaped(plan) && k < |plan.items|
    ensures Placed(plan, k)
  {
  }

  lemma PublishedSame(plan: Plan, d: Disk, e: Disk, k: nat, s: Path)
    requires WellFormed(d) && k < |plan.items| && OnlyAt(d, e, s, s) && !Publishes(plan.items[k], s)
    ensures NewFirm(plan, d, e, k) && Flushed(plan, e, k) == Flushed(plan, d, k)
    ensures FilesFlushed(plan, d, k) ==> FilesFlushed(plan, e, k)
  {
    hide Above, WellFormed, Rooted, Durable;
    var it := plan.items[k];
    forall p | Publishes(it, p) ensures Same(d, e, p) {}
    assert Publishes(it, it.destination);
    if it.lifecycle.ArchiveAfterVerify? { assert Publishes(it, it.lifecycle.archive); }
    NearestSame(d, e, StageDir(plan, k));
    NearestSame(d, e, it.destination.dir);
    if it.lifecycle.ArchiveAfterVerify? { NearestSame(d, e, it.lifecycle.archive.dir); }
  }

  /** The operations are on the private file `s` and hidden directories only. */
  predicate OnStage(ops: seq<Op>, s: Path) {
    && s.name.Random? && !s.dir.Folder?
    && forall op :: op in ops ==>
         (Target(op).None? || Target(op) == Some(s)) && !op.RemoveDir? && (op.SyncDir? ==> !op.dir.Folder?)
  }

  lemma FillOnStage(s: Path, torn: Bytes, content: Bytes, n: nat)
    requires n <= 3 && s.name.Random? && !s.dir.Folder?
    ensures OnStage(StageOps(s, torn, content)[..n], s)
  {
    OnStageCut(StageOps(s, torn, content), n, s);
  }

  lemma SealOnStage(s: Path, n: nat)
    requires n <= 2 && s.name.Random? && !s.dir.Folder?
    ensures OnStage(DurableOps(s)[..n], s)
  {
    OnStageCut(DurableOps(s), n, s);
  }

  lemma DropOnStage(s: Path, n: nat)
    requires n <= 2 && s.name.Random? && !s.dir.Folder?
    ensures OnStage(UnlinkOps(s)[..n], s)
  {
    OnStageCut(UnlinkOps(s), n, s);
  }

  lemma OnStageCut(ops: seq<Op>, n: nat, s: Path)
    requires OnStage(ops, s) && n <= |ops|
    ensures OnStage(ops[..n], s)
  {
  }

  /** Work on a private file in a hidden directory. */
  lemma StageCarries(plan: Plan, w: World, k: nat, ops: seq<Op>, s: Path)
    requires Shaped(plan) && k < |plan.items| && WellFormed(w.disk) && AllPossible(w, k, ops)
    requires OnlyAt(w.disk, Do(w, k, ops).disk, s, s) && OnStage(ops, s)
    ensures Carries(plan, w.disk, Do(w, k, ops).disk, k)
  {
    hide Do, AllPossible, OnlyAt, WellFormed, FilesFlushed, Flushed, NewFirm, Carries;
    ShapedPlaced(plan, k);
    PublishedSame(plan, w.disk, Do(w, k, ops).disk, k, s);
    OpsCarry(plan, w, k, ops);
  }

  /** What being as firm as before means for the destination. */
  lemma CarriedFirm(plan: Plan, d: Disk, e: Disk, k: nat)
    requires k < |plan.items| && Carries(plan, d, e, k) && Firm(plan, d, k)
    ensures Rooted(e, plan.items[k].destination.dir)
    ensures plan.items[k].destination in e.names ==> Fast(e, plan.items[k].destination)
  {
  }

  /** Making directories where that is due. */
  ghost predicate Due(plan: Plan, d: Disk, k: nat, g: Dir)
    requires k < |plan.items|
  {
    var it := plan.items[k];
    || (it.destination !in d.names && g in {StageDir(plan, k), it.destination.dir})
    || (it.lifecycle.ArchiveAfterVerify? && it.lifecycle.archive !in d.names && g == it.lifecycle.archive.dir)
  }

  /** Whether a way that is due begins at `y`, before and after. */
  lemma DueAfter(d: Disk, e: Disk, g: Dir, mode: nat, other: Dir, y: Dir)
    requires TreeFormed(d) && Ensured(d, e, g, mode) && y in d.folders
    ensures y == Nearest(e, other) ==> y == Nearest(d, other)
    ensures y == Nearest(d, other) ==> y == Nearest(e, other) || (g !in d.folders && y == Nearest(d, g))
  {
    NearestAfter(d, e, g, mode, other);
  }

  lemma WayCarries(plan: Plan, w: World, k: nat, g: Dir, mode: nat)
    requires Shaped(plan) && k < |plan.items| && WellFormed(w.disk) && Due(plan, w.disk, k, g)
    ensures AllPossible(w, k, EnsureOps(w.disk, g, mode))
    ensures Carries(plan, w.disk, Do(w, k, EnsureOps(w.disk, g, mode)).disk, k)
  {
    hide WellFormed, Ensured, Carries, Above, Shaped;
    var ops := EnsureOps(w.disk, g, mode);
    EnsurePoint(w, k, g, mode);
    FormedTree(w.disk);
    var d, e := w.disk, Do(w, k, ops).disk;
    forall op | op in ops ensures Target(op).None? && !op.RemoveDir? { EnsureTargets(d, g, mode, op); }
    WayFrame(plan, d, e, k, g, mode);
    forall y: Dir | y in d.folders
      ensures y in Flushed(plan, d, k) <==> SyncDir(y) in ops || y in Flushed(plan, e, k)
    {
      WayDischarges(plan, d, e, k, g, mode, y);
    }
    hide Flushed, EnsureOps, Do, AllPossible, Due, FilesFlushed;
    OpsCarry(plan, w, k, ops);
  }

  lemma WayFrame(plan: Plan, d: Disk, e: Disk, k: nat, g: Dir, mode: nat)
    requires k < |plan.items| && Ensured(d, e, g, mode)
    ensures e.names == d.names && NewFirm(plan, d, e, k)
    ensures FilesFlushed(plan, d, k) ==> FilesFlushed(plan, e, k)
  {
  }

  lemma WayDischarges(plan: Plan, d: Disk, e: Disk, k: nat, g: Dir, mode: nat, y: Dir)
    requires k < |plan.items| && TreeFormed(d) && Ensured(d, e, g, mode) && Due(plan, d, k, g) && y in d.folders
    requires e.names == d.names
    ensures y in Flushed(plan, d, k) <==> SyncDir(y) in EnsureOps(d, g, mode) || y in Flushed(plan, e, k)
  {
    hide TreeFormed, Ensured, EnsureOps, Nearest;
    var it := plan.items[k];
    EnsureSyncs(d, g, mode, y);
    DueAfter(d, e, g, mode, StageDir(plan, k), y);
    DueAfter(d, e, g, mode, it.destination.dir, y);
    if it.lifecycle.ArchiveAfterVerify? { DueAfter(d, e, g, mode, it.lifecycle.archive.dir, y); }
    if g !in d.folders && y == Nearest(d, g) { assert y in Flushed(plan, d, k); }
  }

  lemma NearestOfThere(d: Disk, g: Dir)
    requires g in d.folders
    ensures Nearest(d, g) == g
  {
  }

  /** Publishing the stage. */
  lemma PublishCarries(plan: Plan, w: World, k: nat, s: Path)
    requires Shaped(plan) && k < |plan.items| && WellFormed(w.disk)
    requires s in w.disk.names && s.dir == StageDir(plan, k) && s.name.Random?
    requires var t := plan.items[k].destination;
             && AllPossible(w, k, CommitOps(s, t)) && t.dir in w.disk.folders
             && Landed(w.disk, Do(w, k, CommitOps(s, t)).disk, s, t)
             && OnlyAt(w.disk, Do(w, k, CommitOps(s, t)).disk, s, t)
    ensures Carries(plan, w.disk, Do(w, k, CommitOps(s, plan.items[k].destination)).disk, k)
  {
    hide Do, AllPossible, WellFormed, Above, Rooted, Shaped;
    var it := plan.items[k];
    var t := it.destination;
    var d, e, ops := w.disk, Do(w, k, CommitOps(s, t)).disk, CommitOps(s, t);
    ShapedPlaced(plan, k);
    assert Publishes(it, t);
    if it.lifecycle.ArchiveAfterVerify? {
      assert Publishes(it, it.lifecycle.archive);
      assert Same(d, e, it.lifecycle.archive);
      NearestSame(d, e, it.lifecycle.archive.dir);
    }
    StageDirThere(d, s);
    NearestOfThere(d, s.dir);
    NearestOfThere(d, t.dir);
    forall g: Dir | g.Folder? ensures SyncDir(g) in ops <==> g == t.dir {}
    hide Landed, OnlyAt, Same, Carries;
    OpsCarry(plan, w, k, ops);
  }

  lemma StageDirThere(d: Disk, s: Path)
    requires WellFormed(d) && s in d.names
    ensures s.dir in d.folders
  {
  }

  /** Making the archive's directory and copying to the archive name. */
  lemma ArchiveCarries(plan: Plan, w: World, k: nat, mode: nat, v: World, temp: Path, torn: Bytes, content: Bytes)
    requires Shaped(plan) && k < |plan.items| && WellFormed(w.disk) && WellFormed(v.disk)
    requires plan.items[k].lifecycle.ArchiveAfterVerify?
    requires plan.items[k].destination in w.disk.names && plan.items[k].lifecycle.archive !in w.disk.names
    requires temp.name.Random? && temp.dir == plan.items[k].lifecycle.archive.dir && temp.dir in v.disk.folders
    requires AllPossible(w, k, EnsureOps(w.disk, temp.dir, mode)) && v == Do(w, k, EnsureOps(w.disk, temp.dir, mode))
    requires v.disk.names == w.disk.names
    requires var log := CopyLog(temp, plan.items[k].lifecycle.archive, torn, content, 10, false);
             && AllPossible(v, k, log) && OnlyAt(v.disk, Do(v, k, log).disk, temp, plan.items[k].lifecycle.archive)
             && Secured(Do(v, k, log).disk, plan.items[k].lifecycle.archive)
    ensures Carries(plan, w.disk,
              Do(v, k, CopyLog(temp, plan.items[k].lifecycle.archive, torn, content, 10, false)).disk, k)
  {
    hide Do, AllPossible, WellFormed, Shaped, OnlyAt, Secured, CopyLog, Carries, EnsureOps;
    WayCarries(plan, w, k, temp.dir, mode);
    CopyCarries(plan, v, k, temp, torn, content);
    CarriesTrans(plan, w.disk, v.disk,
      Do(v, k, CopyLog(temp, plan.items[k].lifecycle.archive, torn, content, 10, false)).disk, k);
  }

  /** Copying to the archive name once its directory is there. */
  lemma CopyCarries(plan: Plan, w: World, k: nat, temp: Path, torn: Bytes, content: Bytes)
    requires Shaped(plan) && k < |plan.items| && WellFormed(w.disk) && plan.items[k].lifecycle.ArchiveAfterVerify?
    requires plan.items[k].destination in w.disk.names && plan.items[k].lifecycle.archive !in w.disk.names
    requires temp.name.Random? && temp.dir == plan.items[k].lifecycle.archive.dir && temp.dir in w.disk.folders
    requires var log := CopyLog(temp, plan.items[k].lifecycle.archive, torn, content, 10, false);
             && AllPossible(w, k, log) && OnlyAt(w.disk, Do(w, k, log).disk, temp, plan.items[k].lifecycle.archive)
             && Secured(Do(w, k, log).disk, plan.items[k].lifecycle.archive)
    ensures Carries(plan, w.disk,
              Do(w, k, CopyLog(temp, plan.items[k].lifecycle.archive, torn, content, 10, false)).disk, k)
  {
    hide Do, AllPossible, WellFormed, Above, Rooted, Shaped;
    var it := plan.items[k];
    var t := it.lifecycle.archive;
    var log := CopyLog(temp, t, torn, content, 10, false);
    var d, e := w.disk, Do(w, k, log).disk;
    ShapedPlaced(plan, k);
    assert Publishes(it, t) && Publishes(it, it.destination);
    assert Same(d, e, it.destination);
    NearestOfThere(d, t.dir);
    LogCommit(temp, t, torn, content, 6);
    assert CommitOps(temp, t)[..6] == CommitOps(temp, t);
    assert log == PrepareOps(temp, torn, content) + CommitOps(temp, t);
    assert CommitOps(temp, t)[0] == SyncDir(t.dir);
    forall op | op in log
      ensures (Target(op).None? || Target(op) in {Some(temp), Some(t)}) && !op.RemoveDir?
      ensures op.SyncDir? ==> op.dir == t.dir
    {
      assert op in PrepareOps(temp, torn, content) || op in CommitOps(temp, t);
    }
    assert SyncDir(t.dir) in log;
    hide OnlyAt, Same, Carries, CopyLog, Secured;
    OpsCarry(plan, w, k, log);
  }
}
