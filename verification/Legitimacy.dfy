/** The engine's filesystem calls obey the rules of the protocol, however early they stop. */
module Legitimacy {
  import opened Basics
  import opened Disks
  import opened Journals
  import opened Protocol
  import opened Invariant
  import opened Frames
  import opened Conservation
  import opened Operations
  import opened Durability
  import opened Directories
  import opened Dangers
  import opened Filesystem

  /** Legitimate, and as asked of a turn that began on the disk `start`. */
  ghost predicate Sound(plan: Plan, w: World, k: nat, ops: seq<Op>, start: Disk) {
    Legit(plan, w, k, ops) && KeepsAll(plan, w, k, ops, start)
  }

  lemma SoundPossible(plan: Plan, w: World, k: nat, ops: seq<Op>, start: Disk)
    requires Sound(plan, w, k, ops, start)
    ensures AllPossible(w, k, ops)
  {
  }

  lemma SoundNothing(plan: Plan, w: World, k: nat, start: Disk)
    ensures Sound(plan, w, k, [], start)
  {
  }

  lemma SoundThen(plan: Plan, w: World, k: nat, ops: seq<Op>, op: Op, start: Disk)
    requires Sound(plan, w, k, ops, start) && DiskRule(plan, Do(w, k, ops), k, op)
    requires Kept(plan, start, Step(Do(w, k, ops), k, OnDisk(op), After(Do(w, k, ops), k, OnDisk(op))))
    ensures Sound(plan, w, k, ops + [op], start)
    ensures Do(w, k, ops + [op]) == After(Do(w, k, ops), k, OnDisk(op))
  {
    ExtendLegit(plan, w, k, ops, op);
  }

  lemma SoundOne(plan: Plan, w: World, k: nat, op: Op, start: Disk)
    requires DiskRule(plan, w, k, op)
    requires Kept(plan, start, Step(w, k, OnDisk(op), After(w, k, OnDisk(op))))
    ensures Sound(plan, w, k, [op], start) && Do(w, k, [op]) == After(w, k, OnDisk(op))
  {
    SoundNothing(plan, w, k, start);
    SoundThen(plan, w, k, [], op, start);
    assert [] + [op] == [op];
  }

  /** Each operation of a commit is within the rules when its turn comes. */
  lemma CommitStepRule(plan: Plan, w: World, v: World, k: nat, s: Path, t: Path, n: nat)
    requires k < |plan.items| && k < |w.book.rows| && v.book == w.book && n < 6 && s != t && s != plan.items[k].source
    requires w.book.rows[k].state == Committing && w.book.rows[k].staging == Some(s) && plan.items[k].destination == t
    requires s in w.disk.names && w.disk.names[s] < |w.disk.files|
    requires (t in w.disk.names || t.dir !in w.disk.folders ==> n == 0)
    requires if n == 0 then v == w else Publishing(w.disk, v.disk, s, t, n)
    ensures DiskRule(plan, v, k, CommitOps(s, t)[n])
    ensures Rooted(w.disk, t.dir) ==>
              FirmStep(plan, Step(v, k, OnDisk(CommitOps(s, t)[n]), After(v, k, OnDisk(CommitOps(s, t)[n]))))
    ensures !UnlinksSource(plan, Step(v, k, OnDisk(CommitOps(s, t)[n]), After(v, k, OnDisk(CommitOps(s, t)[n]))))
  {
  }

  lemma CommitSound(plan: Plan, w: World, k: nat, n: nat, start: Disk)
    requires Shaped(plan) && Inv(plan, w) && k < |plan.items| && k < |w.book.rows|
    requires w.book.rows[k].state == Committing && w.book.rows[k].staging.Some?
    requires w.book.rows[k].staging.value in w.disk.names && n <= 6
    requires plan.items[k].destination in w.disk.names || plan.items[k].destination.dir !in w.disk.folders ==> n <= 1
    requires Firm(plan, start, k) ==> Rooted(w.disk, plan.items[k].destination.dir)
    ensures Sound(plan, w, k, CommitOps(w.book.rows[k].staging.value, plan.items[k].destination)[..n], start)
    decreases n
  {
    hide Inv, SealedRow, Exclusive, DiskRule, FirmStep, Publishing, Rooted, Firm, Carries;
    var s, t := w.book.rows[k].staging.value, plan.items[k].destination;
    var ops := CommitOps(s, t);
    OnlyDisk(plan, w);
    RowHolds(plan, w, k);
    if n == 0 {
      SoundNothing(plan, w, k, start);
    } else {
      CommitSound(plan, w, k, n - 1, start);
      assert ops[..n] == ops[..n - 1] + [ops[n - 1]];
      if n > 1 { CommitPoint(w, k, s, t, n - 1); }
      CommitStepRule(plan, w, Do(w, k, ops[..n - 1]), k, s, t, n - 1);
      SoundThen(plan, w, k, ops[..n - 1], ops[n - 1], start);
    }
  }

  lemma StageRule(plan: Plan, w: World, v: World, k: nat, torn: Bytes, content: Bytes, n: nat, start: Disk)
    requires k < |plan.items| && k < |w.book.rows| && n < 3 && v.book == w.book && w.book.rows[k].staging.Some?
    requires OpenStage(w, k, w.book.rows[k].staging.value, Staging)
    requires Possible(v.disk, StageOps(w.book.rows[k].staging.value, torn, content)[n])
    requires w.book.rows[k].staging.value !in {plan.items[k].source, plan.items[k].destination}
    ensures var op := StageOps(w.book.rows[k].staging.value, torn, content)[n];
            DiskRule(plan, v, k, op) && Kept(plan, start, Step(v, k, OnDisk(op), After(v, k, OnDisk(op))))
  {
    hide Firm, Carries, Perform, Possible;
  }

  lemma StageSound(plan: Plan, w: World, k: nat, torn: Bytes, content: Bytes, n: nat, start: Disk)
    requires k < |plan.items| && k < |w.book.rows| && n <= 3 && w.book.rows[k].staging.Some?
    requires OpenStage(w, k, w.book.rows[k].staging.value, Staging)
    requires w.book.rows[k].staging.value !in w.disk.names && w.book.rows[k].staging.value.dir in w.disk.folders
    requires w.book.rows[k].staging.value !in {plan.items[k].source, plan.items[k].destination}
    ensures Sound(plan, w, k, StageOps(w.book.rows[k].staging.value, torn, content)[..n], start)
    ensures Preparing(w.disk, Do(w, k, StageOps(w.book.rows[k].staging.value, torn, content)[..n]).disk,
                      w.book.rows[k].staging.value, torn, content, n)
    decreases n
  {
    hide DiskRule, Kept, Preparing, Possible, Perform;
    var p := w.book.rows[k].staging.value;
    var ops := StageOps(p, torn, content);
    CopyPoint(w, k, p, torn, content, n);
    assert ops[..n] == PrepareOps(p, torn, content)[..n];
    if n == 0 {
      SoundNothing(plan, w, k, start);
    } else {
      StageSound(plan, w, k, torn, content, n - 1, start);
      CopyPoint(w, k, p, torn, content, n - 1);
      var v := Do(w, k, ops[..n - 1]);
      assert ops[..n - 1] == PrepareOps(p, torn, content)[..n - 1];
      assert ops[n - 1] == PrepareOps(p, torn, content)[n - 1];
      PrepareStep(w.disk, v.disk, p, torn, content, n - 1);
      assert ops[..n] == ops[..n - 1] + [ops[n - 1]];
      StageRule(plan, w, v, k, torn, content, n - 1, start);
      SoundThen(plan, w, k, ops[..n - 1], ops[n - 1], start);
    }
  }

  function Synced(d: Disk, p: Path): seq<File>
    requires p in d.names && d.names[p] < |d.files|
  {
    d.files[d.names[p] := d.files[d.names[p]].(synced := true)]
  }

  /** A barrier is always within the rules. */
  lemma BarrierRule(plan: Plan, v: World, k: nat, op: Op, start: Disk)
    requires k < |plan.items| && k < |v.book.rows| && UserPath(plan.items[k].destination)
    requires op.SyncFile? || (op.SyncDir? && !op.dir.Folder?)
    requires Possible(v.disk, op)
    ensures DiskRule(plan, v, k, op) && Kept(plan, start, Step(v, k, OnDisk(op), After(v, k, OnDisk(op))))
  {
  }

  /** The disk `e` stands `n` operations into making the file `p` durable. */
  ghost predicate Securing(d: Disk, e: Disk, p: Path, n: nat)
    requires p in d.names && d.names[p] < |d.files|
  {
    e.names == d.names && e.files == (if n == 0 then d.files else Synced(d, p)) && (n >= 2 ==> Secured(e, p))
  }

  lemma SecureStep(d: Disk, e: Disk, p: Path, n: nat)
    requires p in d.names && d.names[p] < |d.files| && n < 2 && Securing(d, e, p, n)
    ensures Possible(e, DurableOps(p)[n]) && Securing(d, Perform(e, DurableOps(p)[n]), p, n + 1)
  {
  }

  lemma DurablePoint(w: World, k: nat, p: Path, n: nat)
    requires p in w.disk.names && w.disk.names[p] < |w.disk.files| && n <= 2
    ensures AllPossible(w, k, DurableOps(p)[..n]) && Do(w, k, DurableOps(p)[..n]).book == w.book
    ensures Securing(w.disk, Do(w, k, DurableOps(p)[..n]).disk, p, n)
    decreases n
  {
    var ops := DurableOps(p);
    if n > 0 {
      hide Securing, Possible, Perform;
      DurablePoint(w, k, p, n - 1);
      assert ops[..n] == ops[..n - 1] + [ops[n - 1]];
      SecureStep(w.disk, Do(w, k, ops[..n - 1]).disk, p, n - 1);
      Extend(w, k, ops[..n - 1], ops[n - 1]);
    }
  }

  lemma DurableSound(plan: Plan, w: World, k: nat, p: Path, n: nat, start: Disk)
    requires k < |plan.items| && k < |w.book.rows| && n <= 2
    requires p in w.disk.names && w.disk.names[p] < |w.disk.files| && UserPath(plan.items[k].destination)
    requires !p.dir.Folder?
    ensures Sound(plan, w, k, DurableOps(p)[..n], start)
    ensures n == 2 ==> Secured(Do(w, k, DurableOps(p)[..n]).disk, p)
    ensures n > 0 ==> Do(w, k, DurableOps(p)[..n]).disk.files == Synced(w.disk, p)
    ensures Do(w, k, DurableOps(p)[..n]).disk.names == w.disk.names
    decreases n
  {
    var ops := DurableOps(p);
    DurablePoint(w, k, p, n);
    if n == 0 {
      SoundNothing(plan, w, k, start);
    } else {
      hide DiskRule, Kept, Legit, KeepsAll, Perform;
      DurableSound(plan, w, k, p, n - 1, start);
      DurablePoint(w, k, p, n - 1);
      assert ops[..n] == ops[..n - 1] + [ops[n - 1]];
      BarrierRule(plan, Do(w, k, ops[..n - 1]), k, ops[n - 1], start);
      SoundThen(plan, w, k, ops[..n - 1], ops[n - 1], start);
    }
  }

  lemma UnlinkSound(plan: Plan, w: World, k: nat, p: Path, n: nat, start: Disk)
    requires DiskRule(plan, w, k, Unlink(p)) && n <= 2 && UserPath(plan.items[k].destination)
    requires !p.dir.Folder? || p == plan.items[k].source
    requires Kept(plan, start, Step(w, k, OnDisk(Unlink(p)), After(w, k, OnDisk(Unlink(p)))))
    ensures Sound(plan, w, k, UnlinkOps(p)[..n], start)
    ensures Do(w, k, UnlinkOps(p)[..n]).book == w.book
    ensures n > 0 ==> Do(w, k, UnlinkOps(p)[..n]).disk.names == w.disk.names - {p}
    ensures Do(w, k, UnlinkOps(p)[..n]).disk.files == w.disk.files
    decreases n
  {
    var ops := UnlinkOps(p);
    if n == 0 {
      SoundNothing(plan, w, k, start);
    } else {
      UnlinkSound(plan, w, k, p, n - 1, start);
      assert ops[..n] == ops[..n - 1] + [ops[n - 1]];
      assert n == 1 ==> ops[..0] == [] && Do(w, k, ops[..0]) == w;
      SoundThen(plan, w, k, ops[..n - 1], ops[n - 1], start);
    }
  }

  /** What an item's own names have to do with each other while it has a stage. */
  lemma StageApart(plan: Plan, w: World, k: nat)
    requires Shaped(plan) && Inv(plan, w) && k < |plan.items| && k < |w.book.rows| && w.book.rows[k].staging.Some?
    ensures w.book.rows[k].staging.value !in {plan.items[k].source, plan.items[k].destination}
    ensures w.book.rows[k].staging.value.dir == StageDir(plan, k) && UserPath(plan.items[k].destination)
  {
    assert RowInv(plan, w, k);
  }

  lemma FillSound(plan: Plan, w: World, k: nat, torn: Bytes, content: Bytes, n: nat, start: Disk)
    requires Shaped(plan) && Inv(plan, w) && k < |plan.items| && k < |w.book.rows| && n <= 3
    requires w.book.rows[k].state == Staging && w.book.rows[k].staging.Some?
    requires w.book.rows[k].staging.value !in w.disk.names && StageDir(plan, k) in w.disk.folders
    ensures Sound(plan, w, k, StageOps(w.book.rows[k].staging.value, torn, content)[..n], start)
    ensures AllPossible(w, k, StageOps(w.book.rows[k].staging.value, torn, content)[..n])
    ensures n == 3 ==>
      Holds(Do(w, k, StageOps(w.book.rows[k].staging.value, torn, content)[..n]).disk,
        w.book.rows[k].staging.value, content)
  {
    hide Inv, Sound, Shaped;
    StageApart(plan, w, k);
    StageSound(plan, w, k, torn, content, n, start);
    SoundPossible(plan, w, k, StageOps(w.book.rows[k].staging.value, torn, content)[..n], start);
  }

  lemma ModeSound(plan: Plan, w: World, k: nat, mode: nat, start: Disk)
    requires Shaped(plan) && Inv(plan, w) && k < |plan.items| && k < |w.book.rows|
    requires w.book.rows[k].state == Staged && w.book.rows[k].staging.Some?
    requires w.book.rows[k].staging.value in w.disk.names
    ensures Sound(plan, w, k, [Chmod(w.book.rows[k].staging.value, mode)], start)
  {
    hide Inv, Sound, Shaped, Firm, Carries;
    StageApart(plan, w, k);
    OnlyDisk(plan, w);
    SoundOne(plan, w, k, Chmod(w.book.rows[k].staging.value, mode), start);
  }

  lemma SealSound(plan: Plan, w: World, k: nat, n: nat, start: Disk)
    requires Shaped(plan) && Inv(plan, w) && k < |plan.items| && k < |w.book.rows| && n <= 2
    requires w.book.rows[k].staging.Some? && w.book.rows[k].staging.value in w.disk.names
    ensures var p := w.book.rows[k].staging.value;
            && Sound(plan, w, k, DurableOps(p)[..n], start)
            && (n == 2 ==>
                 var e := Do(w, k, DurableOps(p)[..n]).disk;
                 Secured(e, p) && e.files == Synced(w.disk, p) && e.names == w.disk.names)
  {
    hide Inv, Sound, Shaped, Perform;
    StageApart(plan, w, k);
    OnlyDisk(plan, w);
    DurableSound(plan, w, k, w.book.rows[k].staging.value, n, start);
  }

  lemma DropSound(plan: Plan, w: World, k: nat, n: nat, start: Disk)
    requires Shaped(plan) && Inv(plan, w) && k < |plan.items| && k < |w.book.rows| && n <= 2
    requires w.book.rows[k].staging.Some? && MayDropStage(plan, w, k, w.book.rows[k].staging.value)
    requires Firm(plan, start, k) ==> Fast(w.disk, plan.items[k].destination)
    ensures var p := w.book.rows[k].staging.value;
            && Sound(plan, w, k, UnlinkOps(p)[..n], start)
            && (n > 0 ==> p !in Do(w, k, UnlinkOps(p)[..n]).disk.names)
  {
    hide Inv, Sound, Fast, Shaped, Firm, Carries;
    StageApart(plan, w, k);
    UnlinkSound(plan, w, k, w.book.rows[k].staging.value, n, start);
  }

  lemma RemovalSound(plan: Plan, w: World, k: nat, n: nat, start: Disk)
    requires Shaped(plan) && Inv(plan, w) && k < |plan.items| && k < |w.book.rows| && n <= 2
    requires MayRemoveSource(plan, w, k) && Carries(plan, start, w.disk, k)
    ensures Sound(plan, w, k, UnlinkOps(plan.items[k].source)[..n], start)
    ensures n > 0 ==> plan.items[k].source !in Do(w, k, UnlinkOps(plan.items[k].source)[..n]).disk.names
  {
    hide Inv, Sound, SealedRow, Exclusive;
    RowHolds(plan, w, k);
    UnlinkSound(plan, w, k, plan.items[k].source, n, start);
  }

  /** The archive copy of item `k` may run from `w` to its end. */
  ghost predicate CopySetting(plan: Plan, w: World, k: nat, temp: Path, archive: Path) {
    && Shaped(plan) && Inv(plan, w) && k < |plan.items| && k < |w.book.rows|
    && w.book.rows[k].state == CleanupPending
    && plan.items[k].lifecycle == ArchiveAfterVerify(archive) && archive.dir in w.disk.folders
    && temp == CopyTemp(w, archive)
  }

  lemma TempFresh(plan: Plan, w: World, k: nat, temp: Path, archive: Path)
    requires CopySetting(plan, w, k, temp, archive)
    ensures temp !in w.disk.names && archive != temp && temp != plan.items[k].source
    ensures temp != plan.items[k].destination
    ensures w.book.rows[k].staging != Some(temp)
    ensures forall i: nat :: !Might(w.disk, temp, i)
  {
    assert RowInv(plan, w, k);
    FreshUnused(plan, w, temp);
  }

  /** While it is written, the temporary's inode has no other name. */
  lemma TempUnshared(plan: Plan, w: World, k: nat, temp: Path, archive: Path, e: Disk, torn: Bytes, content: Bytes,
                     n: nat)
    requires CopySetting(plan, w, k, temp, archive) && 1 <= n <= 4 && Preparing(w.disk, e, temp, torn, content, n)
    ensures Unshared(e, temp)
  {
    TempFresh(plan, w, k, temp, archive);
    forall q: Path, i: nat | q != temp && Might(e, temp, i) ensures !Might(e, q, i) {
      assert !Might(w.disk, temp, i);
      assert i == |w.disk.files|;
      if Might(e, q, i) {
        assert Might(w.disk, q, i);
        MightBound(w.disk, q, i);
      }
    }
  }

  lemma PrepareSound(plan: Plan, w: World, k: nat, temp: Path, archive: Path, torn: Bytes, content: Bytes, n: nat,
                     start: Disk)
    requires CopySetting(plan, w, k, temp, archive) && n <= 4
    ensures Sound(plan, w, k, PrepareOps(temp, torn, content)[..n], start)
    decreases n
  {
    hide Firm, Carries, Inv, Shaped, WellFormed, Fast;
    TempFresh(plan, w, k, temp, archive);
    var ops := PrepareOps(temp, torn, content);
    if n == 0 {
      SoundNothing(plan, w, k, start);
    } else {
      PrepareSound(plan, w, k, temp, archive, torn, content, n - 1, start);
      assert ops[..n] == ops[..n - 1] + [ops[n - 1]];
      CopyPoint(w, k, temp, torn, content, n - 1);
      if n > 1 { TempUnshared(plan, w, k, temp, archive, Do(w, k, ops[..n - 1]).disk, torn, content, n - 1); }
      SoundThen(plan, w, k, ops[..n - 1], ops[n - 1], start);
    }
  }

  lemma ArchiveSound(plan: Plan, w: World, k: nat, temp: Path, archive: Path, torn: Bytes, content: Bytes, v: World,
                     m: nat, start: Disk)
    requires CopySetting(plan, w, k, temp, archive) && content == plan.items[k].fingerprint.of && m <= 6
    requires v.book == w.book && Preparing(w.disk, v.disk, temp, torn, content, 4)
    requires archive in v.disk.names ==> m <= 1
    ensures Sound(plan, v, k, CommitOps(temp, archive)[..m], start)
    decreases m
  {
    hide Firm, Carries, Inv, Shaped, WellFormed, Fast;
    TempFresh(plan, w, k, temp, archive);
    var ops := CommitOps(temp, archive);
    if m == 0 {
      SoundNothing(plan, v, k, start);
    } else {
      ArchiveSound(plan, w, k, temp, archive, torn, content, v, m - 1, start);
      assert ops[..m] == ops[..m - 1] + [ops[m - 1]];
      if m == 1 {
        assert ops[..0] == [] && Do(v, k, ops[..0]) == v;
      } else {
        CommitPoint(v, k, temp, archive, m - 1);
      }
      SoundThen(plan, v, k, ops[..m - 1], ops[m - 1], start);
    }
  }

  lemma ComposeSound(plan: Plan, w: World, k: nat, a: seq<Op>, b: seq<Op>, start: Disk)
    requires Sound(plan, w, k, a, start) && Sound(plan, Do(w, k, a), k, b, start)
    ensures Sound(plan, w, k, a + b, start)
  {
    ComposeLegit(plan, w, k, a, b);
    Compose(w, k, a, b);
  }

  lemma LateCopySound(plan: Plan, w: World, k: nat, temp: Path, archive: Path, torn: Bytes, content: Bytes, m: nat,
                      start: Disk)
    requires CopySetting(plan, w, k, temp, archive) && 1 <= m <= 6 && content == plan.items[k].fingerprint.of
    requires archive in w.disk.names ==> m <= 1
    ensures Sound(plan, w, k, PrepareOps(temp, torn, content) + CommitOps(temp, archive)[..m], start)
  {
    TempFresh(plan, w, k, temp, archive);
    var pre := PrepareOps(temp, torn, content);
    PrepareSound(plan, w, k, temp, archive, torn, content, 4, start);
    CopyPoint(w, k, temp, torn, content);
    assert pre[..4] == pre;
    ArchiveSound(plan, w, k, temp, archive, torn, content, Do(w, k, pre), m, start);
    ComposeSound(plan, w, k, pre, CommitOps(temp, archive)[..m], start);
  }

  lemma CopyPrefixSound(plan: Plan, w: World, k: nat, temp: Path, archive: Path, torn: Bytes, content: Bytes, n: nat,
                        start: Disk)
    requires CopySetting(plan, w, k, temp, archive) && n <= 10
    requires n > 4 ==> content == plan.items[k].fingerprint.of
    requires archive in w.disk.names ==> n <= 5
    ensures Sound(plan, w, k, CopyLog(temp, archive, torn, content, n, false), start)
  {
    if n <= 4 {
      LogPrepare(temp, archive, torn, content, n);
      PrepareSound(plan, w, k, temp, archive, torn, content, n, start);
    } else {
      LogCommit(temp, archive, torn, content, n - 4);
      LateCopySound(plan, w, k, temp, archive, torn, content, n - 4, start);
    }
  }

  /** However far the archive copy got, and whether or not it cleaned up, it kept to the rules. */
  lemma CopySound(plan: Plan, w: World, k: nat, temp: Path, archive: Path, torn: Bytes, content: Bytes, n: nat,
                  cleaned: bool, start: Disk)
    requires CopySetting(plan, w, k, temp, archive) && n <= 10
    requires n > 4 ==> content == plan.items[k].fingerprint.of
    requires archive in w.disk.names ==> n <= 5
    requires AllPossible(w, k, CopyLog(temp, archive, torn, content, n, cleaned))
    ensures Sound(plan, w, k, CopyLog(temp, archive, torn, content, n, cleaned), start)
  {
    CopyPrefixSound(plan, w, k, temp, archive, torn, content, n, start);
    var log := CopyLog(temp, archive, torn, content, n, false);
    if cleaned {
      LogCleaned(temp, archive, torn, content, n);
      CleanedSound(plan, w, k, temp, archive, log, start);
    }
  }

  lemma LogCleaned(temp: Path, archive: Path, torn: Bytes, content: Bytes, n: nat)
    requires n <= 10
    ensures CopyLog(temp, archive, torn, content, n, true) ==
              CopyLog(temp, archive, torn, content, n, false) + [Unlink(temp)]
  {
  }

  lemma CleanedSound(plan: Plan, w: World, k: nat, temp: Path, archive: Path, log: seq<Op>, start: Disk)
    requires CopySetting(plan, w, k, temp, archive) && Sound(plan, w, k, log, start)
    requires AllPossible(w, k, log + [Unlink(temp)])
    ensures Sound(plan, w, k, log + [Unlink(temp)], start)
  {
    TempFresh(plan, w, k, temp, archive);
    assert (log + [Unlink(temp)])[..|log|] == log;
    LegitKeeps(plan, w, k, log);
    SoundThen(plan, w, k, log, Unlink(temp), start);
  }

  // ---------------------------------------------------------------- directories

  /** Each operation of making a directory is within the rules when its turn comes. */
  lemma MakeRule(plan: Plan, w: World, v: World, k: nat, h: Dir, mode: nat, n: nat, start: Disk)
    requires k < |plan.items| && k < |w.book.rows| && v.book == w.book && n < 4 && TreeFormed(w.disk)
    requires h !in w.disk.folders && Parent(h) in w.disk.folders && OwnFolder(plan, k, h)
    requires Making(w.disk, v.disk, h, mode, n)
    ensures var op := MakeOps(h, mode)[n];
            DiskRule(plan, v, k, op) && Kept(plan, start, Step(v, k, OnDisk(op), After(v, k, OnDisk(op))))
  {
    hide OwnFolder, TreeFormed, Firm, Carries, Perform;
    var op := MakeOps(h, mode)[n];
    MakeStep(w.disk, v.disk, h, mode, n);
    assert op in MakeOps(h, mode);
  }

  lemma MakeSound(plan: Plan, w: World, k: nat, h: Dir, mode: nat, n: nat, start: Disk)
    requires k < |plan.items| && k < |w.book.rows| && n <= 4 && TreeFormed(w.disk)
    requires h !in w.disk.folders && Parent(h) in w.disk.folders && OwnFolder(plan, k, h)
    ensures Sound(plan, w, k, MakeOps(h, mode)[..n], start)
    decreases n
  {
    hide TreeFormed, OwnFolder, DiskRule, Kept, Making, Perform, Possible;
    var ops := MakeOps(h, mode);
    if n == 0 {
      SoundNothing(plan, w, k, start);
    } else {
      MakeSound(plan, w, k, h, mode, n - 1, start);
      assert ops[..n] == ops[..n - 1] + [ops[n - 1]];
      MakePoint(w, k, h, mode, n - 1);
      MakeRule(plan, w, Do(w, k, ops[..n - 1]), k, h, mode, n - 1, start);
      SoundThen(plan, w, k, ops[..n - 1], ops[n - 1], start);
    }
  }

  lemma {:induction false} WaySound(plan: Plan, w: World, k: nat, g: Dir, mode: nat, start: Disk)
    requires k < |plan.items| && k < |w.book.rows| && WellFormed(w.disk)
    requires forall h :: Above(h, g) ==> OwnFolder(plan, k, h)
    ensures Sound(plan, w, k, EnsureOps(w.disk, g, mode), start)
    decreases Depth(g)
  {
    hide WellFormed, OwnFolder, Sound, Making, Perform, Possible, Ensured;
    if g in w.disk.folders || g == TOP {
      SoundNothing(plan, w, k, start);
    } else {
      var above := EnsureOps(w.disk, Parent(g), mode);
      WaySound(plan, w, k, Parent(g), mode, start);
      EnsurePoint(w, k, Parent(g), mode);
      var v := Do(w, k, above);
      PossibleWellFormed(w, k, above);
      MadeReady(w.disk, v.disk, g, mode);
      MakeSound(plan, v, k, g, mode, 4, start);
      assert MakeOps(g, mode)[..4] == MakeOps(g, mode);
      ComposeSound(plan, w, k, above, MakeOps(g, mode), start);
    }
  }

  lemma MadeReady(d: Disk, e: Disk, h: Dir, mode: nat)
    requires WellFormed(d) && WellFormed(e) && h !in d.folders && h != TOP && Ensured(d, e, Parent(h), mode)
    ensures TreeFormed(e) && h !in e.folders && Parent(h) in e.folders
  {
    EnsuredHas(d, e, h, mode);
  }

  /** Taking a directory away again is within the rules, and so is the barrier after it. */
  lemma UndoSound(plan: Plan, w: World, v: World, k: nat, h: Dir, mode: nat, m: nat, start: Disk)
    requires k < |plan.items| && k < |w.book.rows| && v.book == w.book && m <= 2 && WellFormed(w.disk)
    requires h !in w.disk.folders && Making(w.disk, v.disk, h, mode, 1) && OwnFolder(plan, k, h)
    ensures Sound(plan, v, k, UndoOps(h)[..m], start)
  {
    UndoPossible(w.disk, v.disk, h, mode);
    SoundNothing(plan, v, k, start);
    var one := [RemoveDir(h)];
    assert UndoOps(h)[..0] == [] && UndoOps(h)[..1] == one && UndoOps(h)[..2] == one + [SyncDir(Parent(h))];
    if m > 0 {
      hide OwnFolder, Perform;
      SoundOne(plan, v, k, RemoveDir(h), start);
      if m == 2 { SoundThen(plan, v, k, one, SyncDir(Parent(h)), start); }
    }
  }

  lemma CutSound(plan: Plan, w: World, k: nat, h: Dir, mode: nat, n: nat, m: nat, start: Disk)
    requires k < |plan.items| && k < |w.book.rows| && WellFormed(w.disk)
    requires forall x :: Above(x, h) ==> OwnFolder(plan, k, x)
    requires h !in w.disk.folders && h != TOP && n <= 4 && m <= 2 && (m > 0 ==> n == 1)
    ensures Sound(plan, w, k, CutOps(w.disk, h, mode, n, m), start)
  {
    hide WellFormed, OwnFolder, Sound, Making, Perform, Possible, Ensured;
    var above, made := EnsureOps(w.disk, Parent(h), mode), MakeOps(h, mode)[..n];
    WaySound(plan, w, k, Parent(h), mode, start);
    EnsurePoint(w, k, Parent(h), mode);
    var v := Do(w, k, above);
    PossibleWellFormed(w, k, above);
    MadeReady(w.disk, v.disk, h, mode);
    MakeSound(plan, v, k, h, mode, n, start);
    MakePoint(v, k, h, mode, n);
    var u := Do(v, k, made);
    if m > 0 { UndoSound(plan, v, u, k, h, mode, m, start); } else { SoundNothing(plan, u, k, start); }
    assert UndoOps(h)[..0] == [];
    ComposeSound(plan, v, k, made, UndoOps(h)[..m], start);
    ComposeSound(plan, w, k, above, made + UndoOps(h)[..m], start);
    assert above + (made + UndoOps(h)[..m]) == CutOps(w.disk, h, mode, n, m);
  }

  /** The directories that the item's files need. */
  predicate Needed(it: Item, stages: Dir, g: Dir) {
    g in {stages, it.destination.dir} || (it.lifecycle.ArchiveAfterVerify? && g == it.lifecycle.archive.dir)
  }

  /** However far making the way to a directory gets, every operation is within the rules. */
  lemma EnsureSound(plan: Plan, w: World, k: nat, g: Dir, mode: nat, ops: seq<Op>, start: Disk)
    requires Shaped(plan) && Inv(plan, w) && k < |plan.items| && k < |w.book.rows| && Ensuring(w.disk, g, mode, ops)
    requires Needed(plan.items[k], StageDir(plan, k), g)
    ensures Sound(plan, w, k, ops, start)
  {
    hide Inv, DiskRule, Possible, Perform;
    var all := EnsureOps(w.disk, g, mode);
    assert WellFormed(w.disk) by { OnlyDisk(plan, w); }
    EnsureGentle(w.disk, g, mode);
    if ops == [] {
      SoundNothing(plan, w, k, start);
    } else if ops == all {
      WaySound(plan, w, k, g, mode, start);
    } else {
      var h, n: nat, m: nat :| CutAt(w.disk, g, h, n, m) && ops == CutOps(w.disk, h, mode, n, m);
      CutWithin(w.disk, g, h, mode, n, m);
      forall x | Above(x, h) ensures OwnFolder(plan, k, x) { AboveTrans(x, h, g); }
      CutSound(plan, w, k, h, mode, n, m, start);
    }
  }

  /** What was cut short is a part of the whole way, and of a gentle way if nothing was taken away. */
  lemma CutWithin(d: Disk, g: Dir, h: Dir, mode: nat, n: nat, m: nat)
    requires WellFormed(d) && CutAt(d, g, h, n, m)
    ensures h != TOP
    ensures forall op :: op in EnsureOps(d, h, mode) ==> op in EnsureOps(d, g, mode)
    ensures Gentle(CutOps(d, h, mode, n, m)) ==> m == 0
  {
    WayWithin(d, h, g, mode);
    if m > 0 { assert CutOps(d, h, mode, n, m)[|EnsureOps(d, Parent(h), mode)| + n] == RemoveDir(h); }
  }

  lemma {:induction false} WayWithin(d: Disk, h: Dir, g: Dir, mode: nat)
    requires WellFormed(d) && h !in d.folders && Above(h, g)
    ensures forall op :: op in EnsureOps(d, h, mode) ==> op in EnsureOps(d, g, mode)
    decreases Depth(g)
  {
    if h != g {
      if g in d.folders { AboveExists(d, h, g); }
      WayWithin(d, h, Parent(g), mode);
    }
  }
}
