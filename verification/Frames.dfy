/** What an effect of one item leaves alone: every other path, hence every other item's files. */
module Frames {
  import opened Basics
  import opened Disks
  import opened Protocol

  /** The path whose entry or content an operation changes. */
  function Target(op: Op): Option<Path> {
    match op
    case Create(p) => Some(p)
    case Write(p, _) => Some(p)
    case Chmod(p, _) => Some(p)
    case Link(_, p) => Some(p)
    case Unlink(p) => Some(p)
    case _ => None
  }

  /** `p` names the same inode with the same bytes and mode, and is no less durable. */
  ghost predicate Same(d: Disk, e: Disk, p: Path) {
    && Lookup(e, p) == Lookup(d, p)
    && (p in d.names && d.names[p] < |d.files| ==>
         && d.names[p] < |e.files|
         && e.files[e.names[p]].content == d.files[d.names[p]].content
         && e.files[e.names[p]].mode == d.files[d.names[p]].mode
         && (d.files[d.names[p]].synced ==> e.files[e.names[p]].synced))
    && (Durable(d, p) ==> Durable(e, p))
    && (p in d.names && Rooted(d, p.dir) ==> Rooted(e, p.dir))
  }

  /** A directory that exists lies in directories that exist. */
  lemma {:induction false} AboveExists(d: Disk, x: Dir, g: Dir)
    requires TreeFormed(d) && g in d.folders && Above(x, g)
    ensures x in d.folders
    decreases Depth(g)
  {
    if x != g { AboveExists(d, x, Parent(g)); }
  }

  /** No operation makes an existing directory less durable. */
  lemma RootedKept(d: Disk, op: Op, g: Dir)
    requires WellFormed(d) && Possible(d, op) && g in d.folders && Rooted(d, g)
    ensures Rooted(Perform(d, op), g)
  {
    if op.MakeDir? && Above(op.folder, g) { AboveExists(d, op.folder, g); }
  }

  lemma Untouched(plan: Plan, w: World, k: nat, op: Op, p: Path)
    requires Shaped(plan) && Inv(plan, w) && DiskRule(plan, w, k, op) && Target(op) != Some(p)
    ensures Same(w.disk, Perform(w.disk, op), p)
  {
    assert RowInv(plan, w, k);
    var d := w.disk;
    if p in d.names && (op.Write? || op.Chmod?) {
      assert Might(d, p, d.names[p]) && Might(d, op.path, d.names[op.path]);
    }
    if p in d.names && Rooted(d, p.dir) { RootedKept(d, op, p.dir); }
  }

  /** The paths an item's progress depends on. */
  ghost predicate Concerns(plan: Plan, j: nat, p: Path)
    requires j < |plan.items|
  {
    var it := plan.items[j];
    || p == it.source || p == it.destination
    || (it.lifecycle.ArchiveAfterVerify? && p == it.lifecycle.archive)
    || p.dir == StageDir(plan, j)
  }

  lemma TargetsOwn(plan: Plan, w: World, k: nat, op: Op, j: nat, p: Path)
    requires Shaped(plan) && Inv(plan, w) && DiskRule(plan, w, k, op)
    requires j < |plan.items| && j != k && Concerns(plan, j, p)
    ensures Target(op) != Some(p)
  {
    assert RowInv(plan, w, k);
  }

  /** The directories of the item's published names, as far as they exist, cannot be taken by a power
      loss, nor can the names, if they are there at all. */
  ghost predicate Firm(plan: Plan, d: Disk, j: nat)
    requires j < |plan.items|
  {
    var it := plan.items[j];
    && Rooted(d, it.destination.dir) && (it.destination in d.names ==> Secured(d, it.destination))
    && (it.lifecycle.ArchiveAfterVerify? ==>
         Rooted(d, it.lifecycle.archive.dir) && (it.lifecycle.archive in d.names ==> Secured(d, it.lifecycle.archive)))
  }
}
