/** What a power loss could take of the files that an item publishes, which of that the rest of the item's
    turn fsyncs on its way, and what the turn has to carry unchanged up to the removal of the source. */
module Dangers {
  import opened Basics
  import opened Disks
  import opened Protocol
  import opened Invariant
  import opened Frames
  import opened Conservation
  import opened Operations
  import opened Directories

  // ---------------------------------------------------------------- weak points

  /** A power loss may give an entry another value, or take a directory. */
  datatype Weakness = EntryMayGo(path: Path, value: Option<nat>) | FolderMayGo(folder: Dir)

  /** The names under which an item publishes. */
  predicate Publishes(it: Item, p: Path) {
    p == it.destination || (it.lifecycle.ArchiveAfterVerify? && p == it.lifecycle.archive)
  }

  predicate OnWay(it: Item, g: Dir) {
    Above(g, it.destination.dir) || (it.lifecycle.ArchiveAfterVerify? && Above(g, it.lifecycle.archive.dir))
  }

  ghost predicate Weak(plan: Plan, d: Disk, k: nat, x: Weakness)
    requires k < |plan.items|
  {
    match x
    case EntryMayGo(p, v) =>
      Publishes(plan.items[k], p) && p in d.names && v in Lingering(d, p) && v != Lookup(d, p)
    case FolderMayGo(g) => g in d.loose && OnWay(plan.items[k], g)
  }

  /** The directory whose barrier removes the weak point. */
  function Home(x: Weakness): Dir {
    match x
    case EntryMayGo(p, _) => p.dir
    case FolderMayGo(g) => Parent(g)
  }

  ghost predicate FilesFlushed(plan: Plan, d: Disk, k: nat)
    requires k < |plan.items|
  {
    forall p :: Publishes(plan.items[k], p) && p in d.names ==> d.names[p] < |d.files| && d.files[d.names[p]].synced
  }

  /** To have no weak point is to be firm. */
  lemma FirmIsNotWeak(plan: Plan, d: Disk, k: nat)
    requires k < |plan.items|
    ensures Firm(plan, d, k) <==> FilesFlushed(plan, d, k) && forall x :: !Weak(plan, d, k, x)
  {
    var it := plan.items[k];
    if Firm(plan, d, k) {
      forall x ensures !Weak(plan, d, k, x) {}
    } else if FilesFlushed(plan, d, k) && forall x :: !Weak(plan, d, k, x) {
      forall g | OnWay(it, g) ensures g !in d.loose { assert !Weak(plan, d, k, FolderMayGo(g)); }
      forall p, v | Publishes(it, p) && p in d.names && v in Lingering(d, p) ensures v == Lookup(d, p) {
        assert !Weak(plan, d, k, EntryMayGo(p, v));
      }
      assert Publishes(it, it.destination);
      if it.lifecycle.ArchiveAfterVerify? { assert Publishes(it, it.lifecycle.archive); }
      assert false;
    }
  }

  // ---------------------------------------------------------------- what a turn fsyncs on its way

  /** Of the directories that are there, those that the item's turn fsyncs before it removes the source:
      where missing directories are made or a name is linked. */
  function Flushed(plan: Plan, d: Disk, k: nat): set<Dir>
    requires k < |plan.items|
  {
    var it := plan.items[k];
    (if it.destination in d.names then {} else {Nearest(d, StageDir(plan, k)), Nearest(d, it.destination.dir)})
    + (if it.lifecycle.ArchiveAfterVerify? && it.lifecycle.archive !in d.names
       then {Nearest(d, it.lifecycle.archive.dir)} else {})
  }

  /** A weak point that will still be there when the source goes. */
  ghost predicate Exposed(plan: Plan, d: Disk, k: nat, x: Weakness)
    requires k < |plan.items|
  {
    Weak(plan, d, k, x) && Home(x) !in Flushed(plan, d, k)
  }

  /** When the source goes there will be no weak point left. */
  ghost predicate Mendable(plan: Plan, d: Disk, k: nat)
    requires k < |plan.items|
  {
    FilesFlushed(plan, d, k) && forall x :: !Exposed(plan, d, k, x)
  }

  /** From `d` to `e` the item's exposure is the same. */
  ghost predicate Carries(plan: Plan, d: Disk, e: Disk, k: nat)
    requires k < |plan.items|
  {
    && (FilesFlushed(plan, d, k) ==> FilesFlushed(plan, e, k))
    && (forall x :: Exposed(plan, d, k, x) <==> Exposed(plan, e, k, x))
    && (Firm(plan, d, k) ==> Firm(plan, e, k))
  }

  lemma CarriesSame(plan: Plan, d: Disk, k: nat)
    requires k < |plan.items|
    ensures Carries(plan, d, d, k)
  {
  }

  lemma CarriesTrans(plan: Plan, d: Disk, e: Disk, f: Disk, k: nat)
    requires k < |plan.items| && Carries(plan, d, e, k) && Carries(plan, e, f, k)
    ensures Carries(plan, d, f, k)
  {
  }

  lemma CarriesOn(plan: Plan, d: Disk, e: Disk, f: Disk, k: nat)
    requires k < |plan.items| && Carries(plan, e, f, k)
    ensures Carries(plan, d, e, k) ==> Carries(plan, d, f, k)
  {
    if Carries(plan, d, e, k) { CarriesTrans(plan, d, e, f, k); }
  }

  /** Once everything is published nothing more is fsynced. */
  lemma PublishedExposure(plan: Plan, d: Disk, k: nat)
    requires k < |plan.items| && forall p :: Publishes(plan.items[k], p) ==> p in d.names
    ensures Flushed(plan, d, k) == {} && forall x :: Exposed(plan, d, k, x) <==> Weak(plan, d, k, x)
    ensures Mendable(plan, d, k) <==> Firm(plan, d, k)
  {
    assert Publishes(plan.items[k], plan.items[k].destination);
    FirmIsNotWeak(plan, d, k);
  }

  // ---------------------------------------------------------------- what operations do to weak points

  /** The operation neither aims at the weak point nor takes it away as a whole. */
  predicate Misses(x: Weakness, op: Op) {
    match x
    case EntryMayGo(p, _) => Target(op) != Some(p)
    case FolderMayGo(g) => op != RemoveDir(g)
  }

  lemma OneWeak(plan: Plan, d: Disk, k: nat, op: Op, x: Weakness)
    requires k < |plan.items| && Possible(d, op) && Misses(x, op)
    requires match x case EntryMayGo(p, _) => p in d.names case FolderMayGo(g) => g in d.folders
    ensures Weak(plan, Perform(d, op), k, x) <==> Weak(plan, d, k, x) && op != SyncDir(Home(x))
    ensures match x
            case EntryMayGo(p, _) => p in Perform(d, op).names
            case FolderMayGo(g) => g in Perform(d, op).folders
  {
  }

  /** What is there of a weak point's name or directory. */
  predicate There(d: Disk, x: Weakness) {
    match x
    case EntryMayGo(p, _) => p in d.names
    case FolderMayGo(g) => g in d.folders
  }

  /** A weak point stays one unless its home is fsynced. */
  lemma {:induction false} WeakOps(plan: Plan, w: World, k: nat, ops: seq<Op>, x: Weakness)
    requires k < |plan.items| && AllPossible(w, k, ops) && There(w.disk, x)
    requires forall op :: op in ops ==> Misses(x, op)
    ensures There(Do(w, k, ops).disk, x)
    ensures Weak(plan, Do(w, k, ops).disk, k, x) <==> Weak(plan, w.disk, k, x) && SyncDir(Home(x)) !in ops
    decreases |ops|
  {
    hide Weak, Perform, Possible, Misses;
    if ops == [] {
      Nothing(w, k);
    } else {
      var rest, op := ops[..|ops| - 1], ops[|ops| - 1];
      assert op in ops && forall o :: o in rest ==> o in ops;
      assert SyncDir(Home(x)) in ops <==> SyncDir(Home(x)) in rest || op == SyncDir(Home(x));
      Peel(w, k, ops);
      WeakOps(plan, w, k, rest, x);
      OneWeak(plan, Do(w, k, rest).disk, k, op, x);
    }
  }

  /** The operations leave the names alone that item `k` has published, and the directories that are there. */
  ghost predicate Careful(plan: Plan, d: Disk, k: nat, ops: seq<Op>)
    requires k < |plan.items|
  {
    forall op :: op in ops ==>
      && (op.RemoveDir? ==> op.folder !in d.folders)
      && forall p :: Publishes(plan.items[k], p) && p in d.names ==> Target(op) != Some(p)
  }

  /** What is new in `e` cannot be taken by a power loss. */
  ghost predicate NewFirm(plan: Plan, d: Disk, e: Disk, k: nat)
    requires k < |plan.items|
  {
    && e.loose <= d.loose
    && forall p :: Publishes(plan.items[k], p) && p !in d.names && p in e.names ==> Secured(e, p)
  }

  /** The weak points afterwards are those whose home was not fsynced. */
  lemma WeakAfter(plan: Plan, w: World, k: nat, ops: seq<Op>, x: Weakness)
    requires k < |plan.items| && WellFormed(w.disk) && AllPossible(w, k, ops) && Careful(plan, w.disk, k, ops)
    requires NewFirm(plan, w.disk, Do(w, k, ops).disk, k)
    ensures Weak(plan, Do(w, k, ops).disk, k, x) <==> Weak(plan, w.disk, k, x) && SyncDir(Home(x)) !in ops
  {
    var e := Do(w, k, ops).disk;
    if There(w.disk, x) && (x.EntryMayGo? ==> Publishes(plan.items[k], x.path)) {
      forall op | op in ops ensures Misses(x, op) {}
      WeakOps(plan, w, k, ops, x);
    }
  }

  /** Every directory that is there and due to be fsynced was fsynced by the operations, or still is due. */
  ghost predicate Discharges(plan: Plan, d: Disk, e: Disk, k: nat, ops: seq<Op>)
    requires k < |plan.items|
  {
    forall g: Dir :: g.Folder? && g in d.folders ==>
      (g in Flushed(plan, d, k) <==> SyncDir(g) in ops || g in Flushed(plan, e, k))
  }

  lemma WeakHome(plan: Plan, d: Disk, k: nat, x: Weakness)
    requires k < |plan.items| && TreeFormed(d) && Weak(plan, d, k, x)
    requires forall p :: Publishes(plan.items[k], p) ==> p.dir.Folder?
    ensures Home(x) in d.folders && Home(x).Folder?
  {
    var it := plan.items[k];
    assert Publishes(it, it.destination);
    if x.FolderMayGo? {
      if Above(x.folder, it.destination.dir) {
        AboveFolder(x.folder, it.destination.dir.path);
      } else {
        assert Publishes(it, it.lifecycle.archive);
        AboveFolder(x.folder, it.lifecycle.archive.dir.path);
      }
    }
  }

  lemma {:induction false} AboveFolder(x: Dir, path: seq<string>)
    requires Above(x, Folder(path))
    ensures x.Folder?
    decreases |path|
  {
    if x != Folder(path) { AboveFolder(x, path[..|path| - 1]); }
  }

  /** Operations that fsync what is due, and nothing else that matters, carry the item's exposure on. */
  lemma OpsCarry(plan: Plan, w: World, k: nat, ops: seq<Op>)
    requires Shaped(plan) && k < |plan.items| && WellFormed(w.disk) && AllPossible(w, k, ops)
    requires Careful(plan, w.disk, k, ops) && NewFirm(plan, w.disk, Do(w, k, ops).disk, k)
    requires Discharges(plan, w.disk, Do(w, k, ops).disk, k, ops)
    requires FilesFlushed(plan, w.disk, k) ==> FilesFlushed(plan, Do(w, k, ops).disk, k)
    ensures Carries(plan, w.disk, Do(w, k, ops).disk, k)
  {
    hide Weak, Careful, NewFirm, FilesFlushed, AllPossible, Do, WellFormed, Flushed, Firm;
    assert TreeFormed(w.disk) by { FormedTree(w.disk); }
    var d, e := w.disk, Do(w, k, ops).disk;
    forall x ensures Exposed(plan, d, k, x) <==> Exposed(plan, e, k, x) {
      WeakAfter(plan, w, k, ops, x);
      if Weak(plan, d, k, x) { WeakHome(plan, d, k, x); }
    }
    if Firm(plan, d, k) {
      FirmIsNotWeak(plan, d, k);
      forall x ensures !Weak(plan, e, k, x) { WeakAfter(plan, w, k, ops, x); }
      FirmIsNotWeak(plan, e, k);
    }
  }

  lemma FormedTree(d: Disk)
    requires WellFormed(d)
    ensures TreeFormed(d)
  {
  }

  // ---------------------------------------------------------------- losses

  /** A power loss now could leave item `k` with neither the planned source bytes nor what replaces them. */
  ghost predicate Losable(plan: Plan, w: World, k: nat)
    requires k < |plan.items|
  {
    exists after :: PowerLoss(w.disk, after) && !KeptCopy(plan, w.(disk := after), k)
  }

  /** The weak point is one at which the published name itself goes. */
  predicate Fatal(x: Weakness) {
    x.EntryMayGo? ==> x.value == None
  }

  function AllSynced(files: seq<File>): (r: seq<File>)
    ensures |r| == |files| && forall i :: 0 <= i < |files| ==> r[i] == files[i].(synced := true)
  {
    seq(|files|, i requires 0 <= i < |files| => files[i].(synced := true))
  }

  /** The disk after a power loss that took the weak point. */
  ghost function Bereft(d: Disk, x: Weakness): Disk {
    match x
    case EntryMayGo(p, _) => Disk(d.names - {p}, AllSynced(d.files), map[], d.folders, {})
    case FolderMayGo(g) =>
      Disk(map p | p in d.names && !Above(g, p.dir) :: d.names[p], AllSynced(d.files), map[],
           map h | h in d.folders && !Above(g, h) :: d.folders[h], {})
  }

  lemma BereftOfEntry(d: Disk, p: Path)
    requires WellFormed(d) && None in Lingering(d, p)
    ensures PowerLoss(d, Bereft(d, EntryMayGo(p, None)))
  {
  }

  lemma BereftOfFolder(d: Disk, g: Dir)
    requires WellFormed(d) && g in d.loose
    ensures PowerLoss(d, Bereft(d, FolderMayGo(g)))
  {
    assert TreeFormed(Bereft(d, FolderMayGo(g)));
  }

  /** When the source of an item with such a weak point goes, the item may be lost. */
  lemma RemovalLosable(plan: Plan, w: World, k: nat, x: Weakness)
    requires k < |plan.items| && WellFormed(w.disk) && Weak(plan, w.disk, k, x) && Fatal(x)
    requires Possible(w.disk, Unlink(plan.items[k].source)) && !Publishes(plan.items[k], plan.items[k].source)
    ensures Losable(plan, After(w, k, OnDisk(Unlink(plan.items[k].source))), k)
  {
    var it, v := plan.items[k], After(w, k, OnDisk(Unlink(plan.items[k].source)));
    DiskWellFormed(w.disk, Unlink(it.source));
    var after := Bereft(v.disk, x);
    if x.EntryMayGo? { BereftOfEntry(v.disk, x.path); } else { BereftOfFolder(v.disk, x.folder); }
    assert it.source !in after.names && exists p :: Publishes(it, p) && p !in after.names by {
      assert Publishes(it, it.destination);
      assert it.lifecycle.ArchiveAfterVerify? ==> Publishes(it, it.lifecycle.archive);
    }
    assert !KeptCopy(plan, v.(disk := after), k);
  }

  // ---------------------------------------------------------------- what is asked of a step

  /** In a turn that began on the disk `start`: if the item was firm then, its unlinks are firm, and its
      source is unlinked with the exposure that the item had then. */
  ghost predicate Kept(plan: Plan, start: Disk, s: Step) {
    s.item < |plan.items| ==>
      && (Firm(plan, start, s.item) ==> FirmStep(plan, s))
      && (UnlinksSource(plan, s) ==> Carries(plan, start, s.before.disk, s.item))
  }

  ghost predicate KeepsAll(plan: Plan, w: World, k: nat, ops: seq<Op>, start: Disk)
    requires AllPossible(w, k, ops)
  {
    forall s :: s in Steps(w, k, ops) ==> Kept(plan, start, s)
  }
}
