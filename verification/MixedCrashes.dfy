/** Kills and failing barriers followed by power losses. No call fsyncs again what another one had linked or
    made: a turn publishes into a directory that a power loss may still take, and recovery accepts names that
    a power loss may still take. So an item is put at risk exactly if it begins a turn that removes its source
    with a weak point that is not on the turn's way. */
module MixedCrashes {
  import opened Basics
  import opened Disks
  import opened Journals
  import opened Protocol
  import opened Invariant
  import opened Frames
  import opened Recoverable
  import opened Runs
  import opened Conservation
  import opened Operations
  import opened Durability
  import opened Directories
  import opened Dangers
  import opened Filesystem
  import opened Legitimacy
  import opened Turns
  import opened Actions
  import opened Carrying
  import opened PowerRisks
  import opened ApplyEngine

  // ---------------------------------------------------------------- what kills can leave

  /** Killed between linking the destination and fsyncing its directory: the run is on track, the
      destination is there, and a power loss may still take it. Recovery mends that only by chance, if it
      makes the way to the archive from that very directory. */
  lemma KilledAfterLink(plan: Plan, w: World, k: nat, n: nat)
    requires Shaped(plan) && Inv(plan, w) && Quiet(plan, w) && k < |plan.items| && w.book.rows[k].state == Committing
    requires w.book.rows[k].staging.Some? && w.book.rows[k].staging.value in w.disk.names
    requires plan.items[k].destination !in w.disk.names && n in {2, 3}
    ensures var s, t := w.book.rows[k].staging.value, plan.items[k].destination;
            && Legit(plan, w, k, CommitOps(s, t)[..n])
            && var v := Do(w, k, CommitOps(s, t)[..n]);
               && Inv(plan, v) && Quiet(plan, v) && t in v.disk.names
               && Lingering(v.disk, t) == {None} && !Durable(v.disk, t)
               && (Exposed(plan, v.disk, k, EntryMayGo(t, None)) <==>
                    plan.items[k].lifecycle.ArchiveAfterVerify? ==>
                      Nearest(v.disk, plan.items[k].lifecycle.archive.dir) != t.dir)
  {
    var s, t := w.book.rows[k].staging.value, plan.items[k].destination;
    assert OnTrack(plan, w, k) && RowInv(plan, w, k);
    hide RowInv;
    CommitSound(plan, w, k, n, w.disk);
    CommitPoint(w, k, s, t, n);
    CommitAims(s, t, n);
    LegitKeeps(plan, w, k, CommitOps(s, t)[..n]);
    var v := Do(w, k, CommitOps(s, t)[..n]);
    assert OnTrack(plan, v, k);
    hide Above, Nearest;
    assert Publishes(plan.items[k], t) && Weak(plan, v.disk, k, EntryMayGo(t, None));
  }

  /** Killed between making a directory and fsyncing its parent: the run is on track, and a power loss may
      still take the directory and all below it. Making directories again does not change that. */
  lemma KilledAfterMaking(plan: Plan, w: World, k: nat, h: Dir, n: nat)
    requires Shaped(plan) && Inv(plan, w) && Quiet(plan, w) && k < |plan.items| && k < |w.book.rows|
    requires w.book.rows[k].state == Verified && h !in w.disk.folders
    requires Above(h, plan.items[k].destination.dir) && n in {1, 2, 3}
    ensures var g, mode := plan.items[k].destination.dir, plan.items[k].folderMode;
            var ops := CutOps(w.disk, h, mode, n, 0);
            && Legit(plan, w, k, ops)
            && var v := Do(w, k, ops);
               && Inv(plan, v) && Quiet(plan, v) && (forall x :: Above(h, x) ==> !Rooted(v.disk, x))
               && AllPossible(v, k, EnsureOps(v.disk, g, mode))
               && !Rooted(Do(v, k, EnsureOps(v.disk, g, mode)).disk, g)
               && (plan.items[k].lifecycle.MoveAfterVerify? ==> Exposed(plan, v.disk, k, FolderMayGo(h)))
  {
    hide Inv, Quiet, Making, Ensured, DiskRule, Possible, Perform, Exposed;
    var g, mode := plan.items[k].destination.dir, plan.items[k].folderMode;
    var ops := CutOps(w.disk, h, mode, n, 0);
    CutWay(plan, w, k, g, h, n);
    var v := Do(w, k, ops);
    EnsurePoint(v, k, g, mode);
    EnsuredRooted(v.disk, Do(v, k, EnsureOps(v.disk, g, mode)).disk, g, mode);
    if plan.items[k].lifecycle.MoveAfterVerify? { MoveExposed(plan, w, v, k, h); }
  }

  /** Any way to a directory that the item needs, cut short between mkdir and the barrier of the parent. */
  lemma CutWay(plan: Plan, w: World, k: nat, g: Dir, h: Dir, n: nat)
    requires Shaped(plan) && Inv(plan, w) && Quiet(plan, w) && k < |plan.items| && k < |w.book.rows|
    requires Needed(plan.items[k], StageDir(plan, k), g) && h !in w.disk.folders && Above(h, g) && n in {1, 2, 3}
    ensures var ops := CutOps(w.disk, h, plan.items[k].folderMode, n, 0);
            && Legit(plan, w, k, ops)
            && var v := Do(w, k, ops);
               && Inv(plan, v) && Quiet(plan, v) && WellFormed(v.disk) && v.book == w.book
               && h in v.disk.loose && (forall x :: Above(h, x) ==> !Rooted(v.disk, x))
               && v.disk.names == w.disk.names && w.disk.folders.Keys <= v.disk.folders.Keys
  {
    hide Inv, Quiet, WellFormed, Above, Rooted, CutOps, EnsureOps, Legit, Needed;
    var mode := plan.items[k].folderMode;
    var ops := CutOps(w.disk, h, mode, n, 0);
    CutLegit(plan, w, k, g, h, n);
    OnlyDisk(plan, w);
    assert h != TOP by { FormedTree(w.disk); assert TOP in w.disk.folders; }
    LooseWhileMaking(w, k, h, mode, n);
    OnlyGrows(w, k, ops);
    var v := Do(w, k, ops);
    OnlyDisk(plan, v);
    forall x | Above(h, x) ensures !Rooted(v.disk, x) { AboveLoose(v.disk, h, x); }
  }

  lemma CutLegit(plan: Plan, w: World, k: nat, g: Dir, h: Dir, n: nat)
    requires Shaped(plan) && Inv(plan, w) && Quiet(plan, w) && k < |plan.items| && k < |w.book.rows|
    requires Needed(plan.items[k], StageDir(plan, k), g) && h !in w.disk.folders && Above(h, g) && n in {1, 2, 3}
    ensures var ops := CutOps(w.disk, h, plan.items[k].folderMode, n, 0);
            && Legit(plan, w, k, ops) && (forall op :: op in ops ==> OnDirs(op) && !op.RemoveDir?)
            && Inv(plan, Do(w, k, ops)) && Quiet(plan, Do(w, k, ops)) && Do(w, k, ops).book == w.book
  {
    hide Inv, Quiet, CutOps, EnsureOps, Do, DiskRule, Needed, Above, KeepsAll;
    var mode := plan.items[k].folderMode;
    var ops := CutOps(w.disk, h, mode, n, 0);
    OnlyDisk(plan, w);
    assert CutAt(w.disk, g, h, n, 0);
    CutWithin(w.disk, g, h, mode, n, 0);
    CutIsEnsuring(w.disk, g, h, mode, n, 0);
    EnsureSound(plan, w, k, g, mode, ops, w.disk);
    LegitKeeps(plan, w, k, ops);
    forall op | op in ops ensures OnDirs(op) && !op.RemoveDir? { EnsuringTargets(w.disk, g, mode, ops, op); }
  }

  /** Making directories changes no name and takes no directory away. */
  lemma {:induction false} OnlyGrows(w: World, k: nat, ops: seq<Op>)
    requires AllPossible(w, k, ops) && forall op :: op in ops ==> OnDirs(op) && !op.RemoveDir?
    ensures Do(w, k, ops).disk.names == w.disk.names && w.disk.folders.Keys <= Do(w, k, ops).disk.folders.Keys
    decreases |ops|
  {
    hide Possible;
    if ops == [] {
      Nothing(w, k);
    } else {
      var rest, op := ops[..|ops| - 1], ops[|ops| - 1];
      assert op in ops && forall o :: o in rest ==> o in ops;
      Peel(w, k, ops);
      OnlyGrows(w, k, rest);
    }
  }

  /** A loose directory is not the nearest one above itself: no way that leads through it begins at its parent. */
  lemma LooseNotMended(d: Disk, h: Dir, g: Dir)
    requires TreeFormed(d) && h in d.folders && h != TOP && Above(h, g)
    ensures Nearest(d, g) != Parent(h)
  {
    NearestBelow(d, h, g);
    AboveDepth(h, Nearest(d, g));
  }

  lemma {:induction false} NearestBelow(d: Disk, h: Dir, g: Dir)
    requires h in d.folders && Above(h, g)
    ensures Above(h, Nearest(d, g))
    decreases Depth(g)
  {
    if g !in d.folders && g != TOP { NearestBelow(d, h, Parent(g)); }
  }

  lemma MoveExposed(plan: Plan, w: World, v: World, k: nat, h: Dir)
    requires Shaped(plan) && Inv(plan, w) && Quiet(plan, w) && k < |plan.items| && k < |w.book.rows|
    requires w.book.rows[k].state == Verified && plan.items[k].lifecycle.MoveAfterVerify?
    requires WellFormed(v.disk) && h in v.disk.loose && Above(h, plan.items[k].destination.dir)
    requires w.disk.folders.Keys <= v.disk.folders.Keys
    ensures Exposed(plan, v.disk, k, FolderMayGo(h))
  {
    StageStays(plan, w, k);
    LooseNotMended(v.disk, h, plan.items[k].destination.dir);
    AboveFolder(h, plan.items[k].destination.dir.path);
    NearestOfThere(v.disk, StageDir(plan, k));
  }

  lemma StageStays(plan: Plan, w: World, k: nat)
    requires Inv(plan, w) && Quiet(plan, w) && k < |plan.items| && k < |w.book.rows|
    requires w.book.rows[k].state == Verified
    ensures StageDir(plan, k) in w.disk.folders
  {
    assert OnTrack(plan, w, k) && RowInv(plan, w, k);
  }

  lemma LooseWhileMaking(w: World, k: nat, h: Dir, mode: nat, n: nat)
    requires WellFormed(w.disk) && h !in w.disk.folders && h != TOP && n in {1, 2, 3}
    requires AllPossible(w, k, CutOps(w.disk, h, mode, n, 0))
    ensures h in Do(w, k, CutOps(w.disk, h, mode, n, 0)).disk.loose
  {
    hide Ensured, Possible, Perform;
    var above := EnsureOps(w.disk, Parent(h), mode);
    EnsurePoint(w, k, Parent(h), mode);
    PossibleWellFormed(w, k, above);
    var v := Do(w, k, above);
    MadeReady(w.disk, v.disk, h, mode);
    MakePoint(v, k, h, mode, n);
    Compose(w, k, above, MakeOps(h, mode)[..n]);
    assert CutOps(w.disk, h, mode, n, 0) == above + MakeOps(h, mode)[..n];
  }

  lemma AboveLoose(d: Disk, h: Dir, g: Dir)
    requires h in d.loose && Above(h, g)
    ensures !Rooted(d, g)
  {
  }

  /** The same for the archive. Killed between linking the archive name and fsyncing its directory: recovery
      finds a valid archive and removes the source, while a power loss may still take the archive's name. */
  lemma KilledAfterArchiveLink(plan: Plan, w: World, k: nat, torn: Bytes, n: nat)
    requires Shaped(plan) && Inv(plan, w) && Quiet(plan, w) && k < |plan.items| && k < |w.book.rows|
    requires w.book.rows[k].state == CleanupPending && plan.items[k].lifecycle.ArchiveAfterVerify? && n in {6, 7}
    requires var t := plan.items[k].lifecycle.archive;
             t !in w.disk.names && t.dir in w.disk.folders
    ensures var t, content := plan.items[k].lifecycle.archive, plan.items[k].fingerprint.of;
            var ops := CopyLog(CopyTemp(w, t), t, torn, content, n, false);
            && Legit(plan, w, k, ops)
            && var v := Do(w, k, ops);
               && Inv(plan, v) && Quiet(plan, v) && Holds(v.disk, t, content) && Lingering(v.disk, t) == {None}
               && Exposed(plan, v.disk, k, EntryMayGo(t, None))
  {
    var t, content := plan.items[k].lifecycle.archive, plan.items[k].fingerprint.of;
    var temp := CopyTemp(w, t);
    var ops, pre := CopyLog(temp, t, torn, content, n, false), PrepareOps(temp, torn, content);
    assert OnTrack(plan, w, k);
    hide Inv, Quiet, OnTrack, DiskRule, Possible, Perform, Preparing, Publishing, Exposed;
    OnlyDisk(plan, w);
    TempFresh(plan, w, k, temp, t);
    CopyPrefixSound(plan, w, k, temp, t, torn, content, n, w.disk);
    CopyKinds(temp, t, torn, content, n, false);
    LegitKeeps(plan, w, k, ops);
    CopySplit(w, k, temp, t, torn, content, n);
    ArchiveLinked(w, k, temp, t, torn, content, Do(w, k, pre), n - 4);
    ArchiveExposed(plan, Do(w, k, ops), k);
  }

  lemma ArchiveLinked(w: World, k: nat, temp: Path, t: Path, torn: Bytes, content: Bytes, v: World, m: nat)
    requires Preparing(w.disk, v.disk, temp, torn, content, 4) && temp != t && temp.dir == t.dir && m in {2, 3}
    requires t !in w.disk.names && t.dir in w.disk.folders
    requires AllPossible(v, k, CommitOps(temp, t)[..m])
    ensures var e := Do(v, k, CommitOps(temp, t)[..m]).disk; Holds(e, t, content) && Lingering(e, t) == {None}
  {
    CommitPoint(v, k, temp, t, m);
  }

  lemma ArchiveExposed(plan: Plan, v: World, k: nat)
    requires Inv(plan, v) && Quiet(plan, v) && k < |plan.items| && k < |v.book.rows|
    requires v.book.rows[k].state == CleanupPending && plan.items[k].lifecycle.ArchiveAfterVerify?
    requires plan.items[k].lifecycle.archive in v.disk.names
    requires Lingering(v.disk, plan.items[k].lifecycle.archive) == {None}
    ensures Exposed(plan, v.disk, k, EntryMayGo(plan.items[k].lifecycle.archive, None))
  {
    assert OnTrack(plan, v, k);
    assert Publishes(plan.items[k], plan.items[k].lifecycle.archive);
    assert Publishes(plan.items[k], plan.items[k].destination);
    PublishedExposure(plan, v.disk, k);
  }

  /** Killed between making a directory for the archive and fsyncing its parent: recovery copies into it and
      removes the source, while a power loss may still take the directory with the copy. */
  lemma KilledAfterArchiveMaking(plan: Plan, w: World, k: nat, h: Dir, n: nat)
    requires Shaped(plan) && Inv(plan, w) && Quiet(plan, w) && k < |plan.items| && k < |w.book.rows|
    requires w.book.rows[k].state == CleanupPending && plan.items[k].lifecycle.ArchiveAfterVerify?
    requires h !in w.disk.folders && Above(h, plan.items[k].lifecycle.archive.dir) && n in {1, 2, 3}
    ensures var ops := CutOps(w.disk, h, plan.items[k].folderMode, n, 0);
            && Legit(plan, w, k, ops)
            && var v := Do(w, k, ops);
               Inv(plan, v) && Quiet(plan, v) && Exposed(plan, v.disk, k, FolderMayGo(h))
  {
    hide Inv, Quiet, DiskRule, Possible, Perform, Exposed, CutOps;
    CutWay(plan, w, k, plan.items[k].lifecycle.archive.dir, h, n);
    ArchiveWayExposed(plan, Do(w, k, CutOps(w.disk, h, plan.items[k].folderMode, n, 0)), k, h);
  }

  lemma ArchiveWayExposed(plan: Plan, v: World, k: nat, h: Dir)
    requires Quiet(plan, v) && WellFormed(v.disk) && k < |plan.items| && k < |v.book.rows|
    requires v.book.rows[k].state == CleanupPending && plan.items[k].lifecycle.ArchiveAfterVerify?
    requires h in v.disk.loose && Above(h, plan.items[k].lifecycle.archive.dir)
    ensures Exposed(plan, v.disk, k, FolderMayGo(h))
  {
    assert OnTrack(plan, v, k);
    LooseNotMended(v.disk, h, plan.items[k].lifecycle.archive.dir);
  }

  // ---------------------------------------------------------------- what a failing barrier leaves

  /** The barrier of a new directory fails rather than being cut off. The item is handed to a person, its turn
      is over, and the call goes on: another item that is to be moved below the directory is exposed, unless
      it makes its own hidden directory in the same place. No process was killed. */
  lemma FailedBarrier(plan: Plan, w: World, k: nat, h: Dir, n: nat, j: nat)
    requires Shaped(plan) && Inv(plan, w) && Quiet(plan, w) && k < |plan.items| && k < |w.book.rows|
    requires w.book.rows[k].state == Verified && h !in w.disk.folders
    requires Above(h, plan.items[k].destination.dir) && n in {2, 3}
    requires j < |plan.items| && j != k && plan.items[j].lifecycle.MoveAfterVerify?
    requires Above(h, plan.items[j].destination.dir)
    ensures var ops, failed := CutOps(w.disk, h, plan.items[k].folderMode, n, 0), Move(RecoveryRequired, NoFields);
            && Legit(plan, w, k, ops)
            && var v := Do(w, k, ops);
               && BookRule(plan, v, k, failed)
               && var u := After(v, k, OnBook(failed));
                  && Inv(plan, u) && u.book.rows[j] == w.book.rows[j]
                  && plan.items[j].destination !in u.disk.names
                  && (Exposed(plan, u.disk, j, FolderMayGo(h)) <==> Nearest(u.disk, StageDir(plan, j)) != Parent(h))
  {
    hide Inv, Quiet, DiskRule, CutOps, Do, Legit, AllPossible, Above, Shaped, Exposed, WellFormed;
    var ops, failed := CutOps(w.disk, h, plan.items[k].folderMode, n, 0), Move(RecoveryRequired, NoFields);
    CutWay(plan, w, k, plan.items[k].destination.dir, h, n);
    var v := Do(w, k, ops);
    InvKept(plan, v, k, OnBook(failed));
    NothingBelow(plan, w, j, h);
    BelowExposed(plan, v.disk, j, h);
  }

  lemma BelowExposed(plan: Plan, d: Disk, j: nat, h: Dir)
    requires j < |plan.items| && plan.items[j].lifecycle.MoveAfterVerify? && WellFormed(d) && h in d.loose
    requires Above(h, plan.items[j].destination.dir) && plan.items[j].destination !in d.names
    ensures Exposed(plan, d, j, FolderMayGo(h)) <==> Nearest(d, StageDir(plan, j)) != Parent(h)
  {
    LooseNotMended(d, h, plan.items[j].destination.dir);
  }

  /** Nothing lies below a directory that is not there. */
  lemma NothingBelow(plan: Plan, w: World, j: nat, h: Dir)
    requires Inv(plan, w) && j < |plan.items| && h !in w.disk.folders && Above(h, plan.items[j].destination.dir)
    ensures plan.items[j].destination !in w.disk.names
  {
    if plan.items[j].destination in w.disk.names { AboveExists(w.disk, h, plan.items[j].destination.dir); }
  }

  // ---------------------------------------------------------------- what recovery makes of it

  /** After one of the steps from `since` on a power loss could have left item `k` with neither the planned
      source bytes nor what replaces them. */
  ghost predicate AtRisk(plan: Plan, tr: seq<Step>, since: nat, k: nat)
    requires k < |plan.items|
  {
    exists i :: since <= i < |tr| && Losable(plan, tr[i].after, k)
  }

  /** A call whose removals of an item's source are firm never puts it at risk. */
  lemma FirmNotAtRisk(plan: Plan, first: World, tr: seq<Step>, w: World, all: seq<Step>, v: World, j: nat)
    requires Shaped(plan) && Inv(plan, first) && Run(plan, first, tr, w) && Run(plan, first, all, v)
    requires tr <= all && EngineFrom(all, |tr|, true) && j < |plan.items|
    requires forall i :: |tr| <= i < |all| && all[i].item == j ==> FirmRemoval(plan, all[i])
    requires SecuredCopy(plan, w, j)
    ensures !AtRisk(plan, all, |tr|, j)
  {
    hide Run, Inv, Shaped, SecuredCopy, FirmRemoval, Losable, ByEngine, Lawful, Respectful;
    RunInv(plan, first, tr, w);
    forall i | |tr| <= i < |all| ensures !Losable(plan, all[i].after, j) {
      RunUpTo(plan, first, all, v, i);
      var part := all[|tr|..i + 1];
      assert all[..i + 1] == tr + part;
      RunSplit(plan, first, tr, w, part, all[i].after);
      forall s | s in part ensures ByEngine(s) && (s.item == j ==> FirmRemoval(plan, s)) {
        var m :| 0 <= m < |part| && part[m] == s;
        assert all[|tr| + m] == s;
      }
      EngineIsRespectful(plan, part);
      NothingLostToPower(plan, w, part, all[i].after, j);
      RunInv(plan, w, part, all[i].after);
      SecuredNotLosable(plan, all[i].after, j);
    }
  }

  /** The steps of item `k` in a call that it enters, on the disk `d`, with nothing exposed, or never to lose
      its source. */
  lemma RemovalsFirm(plan: Plan, first: World, tr: seq<Step>, last: World, since: nat, d: Disk, k: nat)
    requires Shaped(plan) && Inv(plan, first) && Run(plan, first, tr, last) && k < |plan.items|
    requires EngineFrom(tr, since, true) && TrueTurns(plan, tr, since) && BeganOn(tr, since, d, k)
    requires plan.items[k].lifecycle.Preserve? || Mendable(plan, d, k)
    ensures forall i :: since <= i < |tr| && tr[i].item == k ==> FirmRemoval(plan, tr[i])
  {
    hide Run, Inv, Shaped, Mendable, TrueTurns, FirmRemoval, Lawful;
    RunInv(plan, first, tr, last);
    forall i | since <= i < |tr| && tr[i].item == k ensures FirmRemoval(plan, tr[i]) {
      assert tr[i] in tr;
      if plan.items[k].lifecycle.Preserve? {
        PreservedStays(plan, tr[i]);
      } else {
        assert MendedTurns(plan, tr, since, k);
        RemovalFirm(plan, tr, since, i);
      }
    }
  }

  lemma PreservedStays(plan: Plan, s: Step)
    requires Shaped(plan) && Inv(plan, s.before) && Lawful(plan, s) && s.item < |plan.items|
    requires plan.items[s.item].lifecycle.Preserve?
    ensures FirmRemoval(plan, s)
  {
    assert UnlinksSource(plan, s) ==> RowInv(plan, s.before, s.item);
  }

  /** A source that is gone was removed by a step, which began its item's turn on the disk `d`. */
  lemma {:induction false} RemovedAt(plan: Plan, first: World, tr: seq<Step>, w: World, all: seq<Step>, v: World,
                                     p: Path)
    returns (i: nat)
    requires Run(plan, first, tr, w) && Run(plan, first, all, v) && tr <= all
    requires p in w.disk.names && p !in v.disk.names
    ensures |tr| <= i < |all| && Removes(all[i], p)
    decreases |all|
  {
    hide Lawful;
    if |all| == |tr| {
      EndsOnce(plan, first, tr, w, all, v);
      assert false;
    } else {
      var s := all[|all| - 1];
      if p in s.before.disk.names {
        i := |all| - 1;
      } else {
        assert tr <= all[..|all| - 1];
        i := RemovedAt(plan, first, tr, w, all[..|all| - 1], s.before, p);
      }
    }
  }

  lemma EndsOnce(plan: Plan, first: World, tr: seq<Step>, w: World, all: seq<Step>, v: World)
    requires Run(plan, first, tr, w) && Run(plan, first, all, v) && tr <= all && |tr| == |all|
    ensures w == v
  {
    assert all == tr;
  }

  lemma RemovalIsUnlink(plan: Plan, s: Step, k: nat)
    requires Shaped(plan) && Inv(plan, s.before) && Lawful(plan, s) && ByEngine(s) && k < |plan.items|
    requires Removes(s, plan.items[k].source)
    ensures s.item == k && UnlinksSource(plan, s)
  {
    SourceLicence(plan, s, k);
  }

  /** An exposed item that a call completes was at risk in it. */
  lemma CompletedAtRisk(plan: Plan, first: World, tr: seq<Step>, w: World, all: seq<Step>, v: World, k: nat,
                        x: Weakness)
    requires Shaped(plan) && Inv(plan, first) && Run(plan, first, tr, w) && Run(plan, first, all, v) && tr <= all
    requires EngineFrom(all, |tr|, true) && TrueTurns(plan, all, |tr|) && BeganOn(all, |tr|, w.disk, k)
    requires k < |plan.items| && plan.items[k].source in w.disk.names && plan.items[k].source !in v.disk.names
    requires Exposed(plan, w.disk, k, x) && Fatal(x)
    ensures AtRisk(plan, all, |tr|, k)
  {
    hide Run, Inv, Shaped, TrueTurns, Lawful, Exposed, Losable, Removes, ByEngine, UnlinksSource;
    var i := RemovedAt(plan, first, tr, w, all, v, plan.items[k].source);
    RunInv(plan, first, all, v);
    assert all[i] in all;
    RemovalIsUnlink(plan, all[i], k);
    var s := StartOf(all, |tr|, i);
    ExposedRemoval(plan, all, |tr|, s, i, x);
  }

  /** A recovery that goes through completes the plan. For the item that is next, whatever its state and
      lifecycle, with a durable source: a power loss during the recovery could have left neither its source nor
      what replaces it if and only if the source is to go and the item was exposed when the recovery began. */
  method RiskOfRecovery(engine: ApplyEngine, ghost k: nat) returns (r: Outcome)
    requires engine.Valid() && engine.Resumable() && engine.Uncut()
    requires Turning(engine.desk.plan, engine.machine.world, k) && k < |engine.desk.plan.items|
    requires LinkedOnce(engine.desk.plan, engine.machine.world.disk, k)
    requires SourceHere(engine.machine.world.disk, engine.desk.plan.items[k])
    requires Fast(engine.machine.world.disk, engine.desk.plan.items[k].source)
    modifies engine.machine`tick, engine.machine`world, engine.machine`trace, engine.machine`actor
    modifies engine.desk`anchor, engine.desk`mode, engine.store.db
    ensures engine.Valid() && r == Done && AllFinished(engine.desk.plan, engine.machine.world)
    ensures old(engine.machine.trace) <= engine.machine.trace
    ensures AtRisk(engine.desk.plan, engine.machine.trace, old(|engine.machine.trace|), k) <==>
              !engine.desk.plan.items[k].lifecycle.Preserve?
              && exists x :: old(Exposed(engine.desk.plan, engine.machine.world.disk, k, x))
  {
    hide Desk.Valid, Inv, Run, Quiet, FirmFrom, EngineFrom, TrueTurns, NextFromThere, AtRisk, AllFinished, Shaped,
      SecuredCopy, FilesFlushed, Exposed, Fast, SourceHere, BeganOn, SoundWriters, Hopeful;
    ghost var plan, w, tr := engine.desk.plan, engine.machine.world, engine.machine.trace;
    engine.desk.Promises();
    SourceSecured(plan, w, k);
    r := engine.Recover();
    engine.desk.Promises();
    EngineFromWeaken(engine.machine.trace, |tr|);
    assert BeganOn(engine.machine.trace, |tr|, w.disk, k) by {
      NextBeganOn(plan, w, engine.machine.trace, |tr|, k);
    }
    RiskExactly(plan, engine.desk.origin, tr, w, engine.machine.trace, engine.machine.world, k);
  }

  lemma NextBeganOn(plan: Plan, w: World, tr: seq<Step>, since: nat, k: nat)
    requires NextFromThere(plan, w, tr, since) && Turning(plan, w, k)
    ensures BeganOn(tr, since, w.disk, k)
  {
  }

  lemma EngineFromWeaken(tr: seq<Step>, since: nat)
    requires EngineFrom(tr, since, false)
    ensures EngineFrom(tr, since, true)
  {
  }

  lemma RiskExactly(plan: Plan, first: World, tr: seq<Step>, w: World, all: seq<Step>, v: World, k: nat)
    requires Shaped(plan) && Inv(plan, first) && Run(plan, first, tr, w) && Run(plan, first, all, v) && tr <= all
    requires EngineFrom(all, |tr|, true) && TrueTurns(plan, all, |tr|) && BeganOn(all, |tr|, w.disk, k)
    requires k < |plan.items| && AllFinished(plan, v)
    requires SourceHere(w.disk, plan.items[k]) && SecuredCopy(plan, w, k) && LinkedOnce(plan, w.disk, k)
    ensures AtRisk(plan, all, |tr|, k) <==>
              !plan.items[k].lifecycle.Preserve? && exists x :: Exposed(plan, w.disk, k, x)
  {
    hide Run, Inv, Shaped, SecuredCopy, EngineFrom, TrueTurns, BeganOn, AtRisk, Exposed;
    if plan.items[k].lifecycle.Preserve? || forall x :: !Exposed(plan, w.disk, k, x) {
      RemovalsFirm(plan, first, all, v, |tr|, w.disk, k);
      FirmNotAtRisk(plan, first, tr, w, all, v, k);
    } else {
      var x :| Exposed(plan, w.disk, k, x);
      ExposedWeak(plan, w.disk, k, x);
      WeakIsFatal(plan, w.disk, k, x);
      assert ItemFinished(plan, v, k);
      CompletedAtRisk(plan, first, tr, w, all, v, k, x);
    }
  }
}
