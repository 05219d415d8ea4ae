/** Publication by hard link, operation by operation, and what a power loss can find. */
module Durability {
  import opened Basics
  import opened Disks
  import opened Protocol
  import opened Operations

  /** The disk `e` stands `n` operations into publishing `s` as `t` from the disk `d`. */
  ghost predicate Publishing(d: Disk, e: Disk, s: Path, t: Path, n: nat)
    requires s in d.names && d.names[s] < |d.files|
  {
    var i := d.names[s];
    && e.names == (if n < 2 then d.names else if n < 5 then d.names[t := i] else d.names[t := i] - {s})
    && e.files == (if n < 3 then d.files else d.files[i := d.files[i].(synced := true)])
    && (n == 1 ==> Lingering(e, t) == {}) && (n in {2, 3} ==> Lingering(e, t) == {None}) && (n >= 4 ==> Durable(e, t))
    && (n < 5 ==> Lingering(e, s) <= Lingering(d, s))
    && (forall p :: p != s && p != t ==> Lingering(e, p) <= Lingering(d, p))
    && e.folders == d.folders && e.loose <= d.loose
  }

  lemma PublishStep(d: Disk, e: Disk, s: Path, t: Path, n: nat)
    requires s in d.names && d.names[s] < |d.files| && t !in d.names && s != t && t.dir in d.folders
    requires n < 6 && Publishing(d, e, s, t, n)
    ensures Possible(e, CommitOps(s, t)[n])
    ensures Publishing(d, Perform(e, CommitOps(s, t)[n]), s, t, n + 1)
  {
  }

  lemma CommitPoint(w: World, k: nat, s: Path, t: Path, n: nat)
    requires s in w.disk.names && w.disk.names[s] < |w.disk.files| && t !in w.disk.names && n <= 6
    requires t.dir in w.disk.folders
    ensures AllPossible(w, k, CommitOps(s, t)[..n])
    ensures Publishing(w.disk, Do(w, k, CommitOps(s, t)[..n]).disk, s, t, n)
    ensures Do(w, k, CommitOps(s, t)[..n]).book == w.book && Do(w, k, CommitOps(s, t)[..n]).supply == w.supply
    decreases n
  {
    var ops := CommitOps(s, t);
    if n > 0 {
      hide Publishing, Possible, Perform;
      CommitPoint(w, k, s, t, n - 1);
      assert ops[..n] == ops[..n - 1] + [ops[n - 1]];
      PublishStep(w.disk, Do(w, k, ops[..n - 1]).disk, s, t, n - 1);
      Extend(w, k, ops[..n - 1], ops[n - 1]);
    }
  }

  /** A power loss at any point of `commit` leaves the staging name or the destination name naming the
      staged inode with its bytes, provided they were durable under the staging name before and the
      directories of both names are. */
  lemma CommitNeverLoses(w: World, k: nat, s: Path, t: Path, n: nat, after: Disk)
    requires WellFormed(w.disk) && Fast(w.disk, s) && t !in w.disk.names && n <= 6
    requires t.dir in w.disk.folders && Rooted(w.disk, t.dir)
    requires AllPossible(w, k, CommitOps(s, t)[..n]) && PowerLoss(Do(w, k, CommitOps(s, t)[..n]).disk, after)
    ensures var i := w.disk.names[s];
            && i < |after.files| && after.files[i] == w.disk.files[i]
            && (Lookup(after, s) == Some(i) || Lookup(after, t) == Some(i))
    ensures n <= 4 ==> Lookup(after, s) == Some(w.disk.names[s])
    ensures n >= 4 ==> Lookup(after, t) == Some(w.disk.names[s])
  {
    CommitPoint(w, k, s, t, n);
    var e := Do(w, k, CommitOps(s, t)[..n]).disk;
    assert s.dir in after.folders && t.dir in after.folders;
    assert Lookup(after, s) == Lookup(e, s) || Lookup(after, s) in Lingering(e, s);
    assert Lookup(after, t) == Lookup(e, t) || Lookup(after, t) in Lingering(e, t);
  }

  /** `commit` never touches another name, and an existing destination stops it before any change. */
  lemma CommitResult(w: World, k: nat, s: Path, t: Path)
    requires s in w.disk.names && w.disk.names[s] < |w.disk.files| && t !in w.disk.names && t.dir in w.disk.folders
    ensures AllPossible(w, k, CommitOps(s, t))
    ensures var i, e := w.disk.names[s], Do(w, k, CommitOps(s, t)).disk;
            && e.names == w.disk.names[t := i] - {s}
            && e.files == w.disk.files[i := w.disk.files[i].(synced := true)]
            && Secured(e, t) && e.folders == w.disk.folders && e.loose <= w.disk.loose
  {
    assert CommitOps(s, t)[..6] == CommitOps(s, t);
    CommitPoint(w, k, s, t, 6);
  }

  /** The disk `e` stands `n` operations into writing `content` to the fresh name `p`. */
  ghost predicate Preparing(d: Disk, e: Disk, p: Path, torn: Bytes, content: Bytes, n: nat) {
    && e.names == (if n == 0 then d.names else d.names[p := |d.files|])
    && e.files == (if n == 0 then d.files
                   else d.files + [File(if n == 1 then [] else if n == 2 then torn else content,
                     PRIVATE_MODE, n >= 4, true)])
    && Lingering(e, p) <= Lingering(d, p) + {None}
    && (forall q :: q != p ==> Lingering(e, q) == Lingering(d, q))
    && e.folders == d.folders && e.loose == d.loose
  }

  lemma PrepareStep(d: Disk, e: Disk, p: Path, torn: Bytes, content: Bytes, n: nat)
    requires p !in d.names && p.dir in d.folders && n < 4 && Preparing(d, e, p, torn, content, n)
    ensures Possible(e, PrepareOps(p, torn, content)[n])
    ensures Preparing(d, Perform(e, PrepareOps(p, torn, content)[n]), p, torn, content, n + 1)
  {
  }

  lemma CopyPoint(w: World, k: nat, p: Path, torn: Bytes, content: Bytes, n: nat := 4)
    requires p !in w.disk.names && p.dir in w.disk.folders && n <= 4
    ensures AllPossible(w, k, PrepareOps(p, torn, content)[..n])
    ensures n == 4 ==> AllPossible(w, k, PrepareOps(p, torn, content))
    ensures Preparing(w.disk, Do(w, k, PrepareOps(p, torn, content)[..n]).disk, p, torn, content, n)
    ensures Do(w, k, PrepareOps(p, torn, content)[..n]).book == w.book
    decreases n
  {
    var ops := PrepareOps(p, torn, content);
    assert ops[..4] == ops;
    if n > 0 {
      CopyPoint(w, k, p, torn, content, n - 1);
      assert ops[..n] == ops[..n - 1] + [ops[n - 1]];
      PrepareStep(w.disk, Do(w, k, ops[..n - 1]).disk, p, torn, content, n - 1);
      Extend(w, k, ops[..n - 1], ops[n - 1]);
    }
  }
}
