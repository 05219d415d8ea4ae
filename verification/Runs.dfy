/** Theorems about whole runs: any number of items, calls, kills, recoveries, power losses and
    interferences, as the sequence of steps they leave behind. */
module Runs {
  import opened Basics
  import opened Disks
  import opened Journals
  import opened Protocol
  import opened Invariant
  import opened Frames

  ghost predicate Lawful(plan: Plan, s: Step) {
    Permitted(plan, s.before, s.item, s.effect) && s.after == After(s.before, s.item, s.effect)
  }

  /** A run from `first` to `last`. */
  ghost predicate Run(plan: Plan, first: World, tr: seq<Step>, last: World)
    decreases |tr|
  {
    if tr == [] then first == last
    else
      var s := tr[|tr| - 1];
      Lawful(plan, s) && s.after == last && Run(plan, first, tr[..|tr| - 1], s.before)
  }

  /** The end of a run is a run from its middle. */
  lemma {:induction false} RunSplit(plan: Plan, first: World, a: seq<Step>, mid: World, b: seq<Step>, last: World)
    requires Run(plan, first, a, mid) && Run(plan, first, a + b, last)
    ensures Run(plan, mid, b, last)
    decreases |b|
  {
    if b == [] {
      assert a + b == a;
    } else {
      var s := b[|b| - 1];
      assert (a + b)[..|a + b| - 1] == a + b[..|b| - 1];
      assert (a + b)[|a + b| - 1] == s;
      RunSplit(plan, first, a, mid, b[..|b| - 1], s.before);
    }
  }

  /** The run up to one of its steps. */
  lemma {:induction false} RunUpTo(plan: Plan, first: World, tr: seq<Step>, last: World, i: nat)
    requires Run(plan, first, tr, last) && i < |tr|
    ensures Run(plan, first, tr[..i + 1], tr[i].after)
    decreases |tr|
  {
    var s := tr[|tr| - 1];
    if i == |tr| - 1 {
      assert tr[..i + 1] == tr;
    } else {
      RunUpTo(plan, first, tr[..|tr| - 1], s.before, i);
      assert tr[..|tr| - 1][..i + 1] == tr[..i + 1];
    }
  }

  /** Consecutive steps of a run are a run. */
  lemma RunPart(plan: Plan, first: World, tr: seq<Step>, last: World, s: nat, i: nat)
    requires Run(plan, first, tr, last) && s <= i < |tr|
    ensures Run(plan, tr[s].before, tr[s..i + 1], tr[i].after)
  {
    RunUpTo(plan, first, tr, last, i);
    var a, b := tr[..s], tr[s..i + 1];
    assert tr[..i + 1] == a + b;
    if s == 0 {
      RunBegins(plan, first, tr, last);
      assert tr[..i + 1] == b;
    } else {
      RunUpTo(plan, first, tr, last, s - 1);
      RunConnects(plan, first, tr, last, s);
      RunSplit(plan, first, a, tr[s].before, b, tr[i].after);
    }
  }

  lemma {:induction false} RunBegins(plan: Plan, first: World, tr: seq<Step>, last: World)
    requires Run(plan, first, tr, last) && tr != []
    ensures tr[0].before == first
    decreases |tr|
  {
    if |tr| > 1 { RunBegins(plan, first, tr[..|tr| - 1], tr[|tr| - 1].before); }
  }

  lemma {:induction false} RunConnects(plan: Plan, first: World, tr: seq<Step>, last: World, s: nat)
    requires Run(plan, first, tr, last) && 0 < s < |tr|
    ensures tr[s].before == tr[s - 1].after
    decreases |tr|
  {
    RunUpTo(plan, first, tr, last, s);
    assert tr[..s + 1][..s] == tr[..s];
  }

  /** Before the first call: no journal yet, and no private names in use. */
  ghost predicate Initial(w: World) {
    WellFormed(w.disk) && w.book == EMPTY_BOOK && PrivateInv(w)
  }

  ghost predicate ByEngine(s: Step) {
    s.effect.OnDisk? || s.effect.OnBook?
  }

  lemma {:induction false} RunInv(plan: Plan, first: World, tr: seq<Step>, last: World)
    requires Shaped(plan) && Inv(plan, first) && Run(plan, first, tr, last)
    ensures Inv(plan, last)
    ensures forall s :: s in tr ==> Lawful(plan, s) && Inv(plan, s.before) && Inv(plan, s.after)
    decreases |tr|
  {
    if tr != [] {
      var s := tr[|tr| - 1];
      RunInv(plan, first, tr[..|tr| - 1], s.before);
      InvKept(plan, s.before, s.item, s.effect);
      forall t | t in tr ensures Lawful(plan, t) && Inv(plan, t.before) && Inv(plan, t.after) {
        assert t == s || t in tr[..|tr| - 1];
      }
    }
  }

  // ---------------------------------------------------------------- sources

  ghost predicate Removes(s: Step, p: Path) {
    p in s.before.disk.names && p !in s.after.disk.names
  }

  /** The destination of item `j` holds bytes that passed verification against the planned source. */
  ghost predicate VerifiedOutput(plan: Plan, w: World, j: nat)
    requires j < |plan.items|
  {
    && j < |w.book.rows|
    && OutputHeld(w.disk, plan.items[j], w.book.rows[j])
    && plan.writers.valid(plan.items[j], plan.items[j].fingerprint.of, w.book.rows[j].stagedHash.value.of)
  }

  /** In no run does the engine unlink a source other than its own item's, in CLEANUP_PENDING, still
      holding the planned bytes, and with the verified output (and the archive copy) on disk after it. */
  lemma SourceLicence(plan: Plan, s: Step, j: nat)
    requires Shaped(plan) && Inv(plan, s.before) && Lawful(plan, s) && ByEngine(s)
    requires j < |plan.items| && Removes(s, plan.items[j].source)
    ensures s.item == j && j < |s.before.book.rows| && s.before.book.rows[j].state == CleanupPending
    ensures !plan.items[j].lifecycle.Preserve? && SourceHere(s.before.disk, plan.items[j])
    ensures VerifiedOutput(plan, s.after, j) && ArchiveHolds(s.after.disk, plan.items[j])
  {
    assert s.effect.OnDisk?;
    var op, k := s.effect.op, s.item;
    assert RowInv(plan, s.before, k);
    assert op.Unlink? && op.path == plan.items[j].source;
    assert SealedRow(plan, s.before, k);
  }

  // ---------------------------------------------------------------- no clobber

  /** Inode `i` keeps bytes and mode. */
  ghost predicate InodeKept(d: Disk, e: Disk, i: nat) {
    i < |d.files| && i < |e.files| && e.files[i].content == d.files[i].content && e.files[i].mode == d.files[i].mode
  }

  ghost predicate InodeOurs(d: Disk, p: Path) {
    p in d.names && d.names[p] < |d.files| && d.files[d.names[p]].ours
  }

  /** An engine step leaves every file as it was, except that its own private files may change and
      private names and licensed sources may go. Bytes and mode of foreign files never change, and
      neither does a directory that the disk already holds durably. */
  lemma NoClobber(plan: Plan, s: Step, p: Path)
    requires Shaped(plan) && Inv(plan, s.before) && Lawful(plan, s) && ByEngine(s)
    requires p in s.before.disk.names
    ensures forall i: nat :: i < |s.before.disk.files| && !s.before.disk.files[i].ours ==>
              InodeKept(s.before.disk, s.after.disk, i)
    ensures Removes(s, p) ==>
              || (p.name.Random? && InodeOurs(s.before.disk, p))
              || (s.item < |plan.items| && p == plan.items[s.item].source
                  && SourceHere(s.before.disk, plan.items[s.item]))
    ensures !Removes(s, p) ==> Lookup(s.after.disk, p) == Lookup(s.before.disk, p)
    ensures !Removes(s, p) && p.name.Planned? ==> InodeKept(s.before.disk, s.after.disk, s.before.disk.names[p])
    ensures forall g :: g in s.before.disk.folders && g !in s.before.disk.loose ==>
              g in s.after.disk.folders && s.after.disk.folders[g] == s.before.disk.folders[g]
  {
    if s.effect.OnDisk? {
      hide Inv, DiskRule, Same, Rooted;
      InodesKept(plan, s);
      NamesKept(plan, s, p);
    }
  }

  lemma InodesKept(plan: Plan, s: Step)
    requires Shaped(plan) && Inv(plan, s.before) && Lawful(plan, s) && s.effect.OnDisk?
    ensures forall i: nat :: i < |s.before.disk.files| && !s.before.disk.files[i].ours ==>
              InodeKept(s.before.disk, s.after.disk, i)
    ensures forall g :: g in s.before.disk.folders && g !in s.before.disk.loose ==>
              g in s.after.disk.folders && s.after.disk.folders[g] == s.before.disk.folders[g]
  {
    var op, d := s.effect.op, s.before.disk;
    assert RowInv(plan, s.before, s.item);
    if OnFile(op) && op.path in d.names { assert Might(d, op.path, d.names[op.path]); }
    hide Inv, RowInv, Unshared, Rooted;
  }

  lemma NamesKept(plan: Plan, s: Step, p: Path)
    requires Shaped(plan) && Inv(plan, s.before) && Lawful(plan, s) && s.effect.OnDisk?
    requires p in s.before.disk.names
    ensures Removes(s, p) ==>
              || (p.name.Random? && InodeOurs(s.before.disk, p))
              || (s.item < |plan.items| && p == plan.items[s.item].source
                  && SourceHere(s.before.disk, plan.items[s.item]))
    ensures !Removes(s, p) ==> Lookup(s.after.disk, p) == Lookup(s.before.disk, p)
    ensures !Removes(s, p) && p.name.Planned? ==> InodeKept(s.before.disk, s.after.disk, s.before.disk.names[p])
  {
    var op, k, d := s.effect.op, s.item, s.before.disk;
    assert RowInv(plan, s.before, k) && Might(d, p, d.names[p]);
    if Target(op) != Some(p) {
      Untouched(plan, s.before, k, op, p);
      hide Inv, RowInv, DiskRule;
    } else {
      hide Rooted;
    }
  }

  /** A staging name goes only while the destination names the same inode. */
  lemma StageDropKeepsInode(plan: Plan, s: Step, j: nat)
    requires Shaped(plan) && Inv(plan, s.before) && Lawful(plan, s) && ByEngine(s)
    requires j < |plan.items| && j < |s.before.book.rows| && s.before.book.rows[j].staging.Some?
    requires Removes(s, s.before.book.rows[j].staging.value)
    ensures Lookup(s.after.disk, plan.items[j].destination) ==
              Lookup(s.before.disk, s.before.book.rows[j].staging.value)
  {
    assert RowInv(plan, s.before, s.item) && RowInv(plan, s.before, j);
  }

  // ---------------------------------------------------------------- sealed output

  ghost predicate PastStaging(s: ItemState) {
    s !in {Pending, PreflightOk, Staging, Staged, Failed}
  }

  /** Inode `n` is item `k`'s sealed output, under the staging name `p` or none of the private ones. */
  ghost predicate SealHolds(w: World, k: nat, p: Path, n: nat, f: File) {
    && k < |w.book.rows| && w.book.rows[k].staging == Some(p) && PastStaging(w.book.rows[k].state)
    && n < |w.disk.files| && w.disk.files[n] == f && f.ours && f.synced
    && forall q: Path :: q.name.Random? && Might(w.disk, q, n) ==> q == p
  }

  lemma SealedInode(plan: Plan, w: World, item: nat, op: Op, k: nat, p: Path, n: nat, f: File)
    requires Shaped(plan) && Inv(plan, w) && DiskRule(plan, w, item, op) && SealHolds(w, k, p, n, f)
    ensures n < |Perform(w.disk, op).files| && Perform(w.disk, op).files[n] == f
  {
    assert RowInv(plan, w, item) && RowInv(plan, w, k);
    if OnFile(op) && op.path in w.disk.names { assert Might(w.disk, op.path, w.disk.names[op.path]); }
  }

  lemma SealedNames(plan: Plan, w: World, item: nat, op: Op, k: nat, p: Path, n: nat, f: File)
    requires Shaped(plan) && Inv(plan, w) && DiskRule(plan, w, item, op) && SealHolds(w, k, p, n, f)
    ensures forall q: Path :: q.name.Random? && Might(Perform(w.disk, op), q, n) ==> q == p
  {
    assert RowInv(plan, w, item);
    forall q: Path | q.name.Random? && Might(Perform(w.disk, op), q, n) ensures q == p {
      MightAfter(w.disk, op, q, n);
    }
  }

  lemma SealStep(plan: Plan, s: Step, k: nat, p: Path, n: nat, f: File)
    requires Shaped(plan) && Inv(plan, s.before) && Lawful(plan, s) && SealHolds(s.before, k, p, n, f)
    ensures SealHolds(s.after, k, p, n, f)
  {
    match s.effect {
      case OnDisk(op) =>
        SealedInode(plan, s.before, s.item, op, k, p, n, f);
        SealedNames(plan, s.before, s.item, op, k, p, n, f);
        hide Inv, Perform, DiskRule, Might;
      case OnBook(edit) =>
      case Elsewhere(d) =>
        forall q: Path | q.name.Random? && Might(d, q, n) ensures q == p {
          assert Might(s.before.disk, q, n);
        }
      case Outage(d) =>
        forall q: Path | q.name.Random? && Might(d, q, n) ensures q == p {
          OutageMight(s.before.disk, d, q, n);
        }
    }
  }

  lemma {:induction false} SealKeeps(plan: Plan, first: World, tr: seq<Step>, last: World, k: nat, p: Path, n: nat,
                                     f: File)
    requires Shaped(plan) && Inv(plan, first) && Run(plan, first, tr, last) && SealHolds(first, k, p, n, f)
    ensures SealHolds(last, k, p, n, f)
    decreases |tr|
  {
    if tr != [] {
      var s := tr[|tr| - 1];
      SealKeeps(plan, first, tr[..|tr| - 1], s.before, k, p, n, f);
      RunInv(plan, first, tr[..|tr| - 1], s.before);
      SealStep(plan, s, k, p, n, f);
    }
  }

  /** Once an item is VERIFIED, its staged inode keeps content, mode and durability for the rest of the
      run, through recoveries, kills, interference and power losses; the recorded digests agree with
      it and its bytes passed verification. */
  lemma SealedForever(plan: Plan, first: World, tr: seq<Step>, last: World, k: nat)
    requires Shaped(plan) && Inv(plan, first) && Run(plan, first, tr, last)
    requires k < |first.book.rows| && Sealed(first.book.rows[k].state)
    requires first.book.rows[k].staging.Some? && first.book.rows[k].staging.value in first.disk.names
    ensures var n := first.disk.names[first.book.rows[k].staging.value];
            && n < |last.disk.files| && n < |first.disk.files| && last.disk.files[n] == first.disk.files[n]
            && first.book.rows[k].stagedHash == Some(Hash(last.disk.files[n].content))
            && plan.writers.valid(plan.items[k], plan.items[k].fingerprint.of, last.disk.files[n].content)
    ensures k < |last.book.rows| && (Published(last.book.rows[k].state) ==>
              last.book.rows[k].destinationHash == last.book.rows[k].stagedHash)
  {
    var p := first.book.rows[k].staging.value;
    var n := first.disk.names[p];
    assert RowInv(plan, first, k) && Might(first.disk, p, n);
    SealKeeps(plan, first, tr, last, k, p, n, first.disk.files[n]);
    RunInv(plan, first, tr, last);
    assert RowInv(plan, last, k);
  }

  // ---------------------------------------------------------------- giving an item up

  predicate MovesTo(s: Step, to: ItemState) {
    s.effect.OnBook? && s.effect.edit.Move? && s.effect.edit.to == to
  }

  /** No engine step hands an item over to a person that is being staged, or that is staged with its staging
      file there; a failed one only for a taken destination or a changed source; and from the commit attempt
      on only if destination, stage, source or archive are not what the journal says. */
  lemma HandedOverOnly(plan: Plan, s: Step)
    requires Shaped(plan) && Inv(plan, s.before) && Lawful(plan, s) && MovesTo(s, RecoveryRequired)
    ensures s.item < |plan.items| && s.item < |s.before.book.rows|
    ensures var it, row, d := plan.items[s.item], s.before.book.rows[s.item], s.before.disk;
            && row.state !in {Staging, Complete, Stale, RecoveryRequired}
            && (row.state == Staged ==> row.staging.Some? && row.staging.value !in d.names)
            && (row.state == Failed ==> it.destination in d.names || !SourceHere(d, it))
            && (row.state in {Committing, Committed, CleanupPending} ==> row.staging.Some? && row.stagedHash.Some?)
            && (row.state == Committing && it.destination !in d.names ==>
                 !Holds(d, row.staging.value, row.stagedHash.value.of))
            && (row.state == Committing && it.destination in d.names ==>
                 !Holds(d, it.destination, row.stagedHash.value.of))
            && (row.state == Committed ==>
                 !(Holds(d, it.destination, row.stagedHash.value.of) && SourceHere(d, it)))
            && (row.state == CleanupPending ==>
                 !(Holds(d, it.destination, row.stagedHash.value.of) && SourceHere(d, it)
                   && (it.lifecycle.ArchiveAfterVerify? ==> it.lifecycle.archive !in d.names)))
  {
    assert RowInv(plan, s.before, s.item);
  }

  /** An item becomes stale at the first preflight; afterwards only before it is published, and only if its
      source is not the planned one or, in the commit attempt, its destination is taken. */
  lemma ExpiredOnly(plan: Plan, s: Step)
    requires Lawful(plan, s) && MovesTo(s, Stale)
    ensures s.item < |plan.items| && s.item < |s.before.book.rows|
    ensures var it, row, d := plan.items[s.item], s.before.book.rows[s.item], s.before.disk;
            && row.state in {Pending, PreflightOk, Staging, Staged, Verified, Committing}
            && (row.state == Pending ==> s.before.book.run == Preflighting)
            && (row.state != Pending ==> !SourceHere(d, it) || (row.state == Committing && it.destination in d.names))
  {
  }

  // ---------------------------------------------------------------- the journal

  /** Every item's event log is a chain of legal transitions from its creation to its present state. */
  lemma LogIsAPath(plan: Plan, first: World, tr: seq<Step>, last: World, k: nat)
    requires Shaped(plan) && Initial(first) && Run(plan, first, tr, last) && k < |last.book.rows|
    ensures Walk(last.book.events, k) == At(last.book.rows[k].state)
    ensures forall e :: e in last.book.events && e.ItemEvent? && e.item == k && e.from.Some? ==>
              if e.note then e.to == e.from.value else e.to in Allowed(e.from.value) && e.to != e.from.value
    ensures last.book.run == RunComplete ==> forall j :: 0 <= j < |last.book.rows| ==>
              last.book.rows[j].state == Complete
  {
    RunInv(plan, first, tr, last);
    assert RowInv(plan, last, k);
    UnbrokenEvents(last.book.events, k);
  }

  /** In every reachable world an item past its commit records one digest for the staged and the
      destination file, of bytes that passed verification against the planned source. */
  lemma RecordedDigests(plan: Plan, first: World, tr: seq<Step>, last: World, k: nat)
    requires Shaped(plan) && Initial(first) && Run(plan, first, tr, last)
    requires k < |last.book.rows| && k < |plan.items| && Published(last.book.rows[k].state)
    ensures var row := last.book.rows[k];
            && row.stagedHash.Some? && row.destinationHash == row.stagedHash
            && row.stagedSize == Some(|row.stagedHash.value.of|)
            && plan.writers.valid(plan.items[k], plan.items[k].fingerprint.of, row.stagedHash.value.of)
  {
    RunInv(plan, first, tr, last);
    assert RowInv(plan, last, k);
  }

  /** The journal entry that gives item `k` the staging name `p`. */
  predicate Records(s: Step, k: nat, p: Path) {
    s.item == k && s.effect == OnBook(Move(Staging, SetStaging(p)))
  }

  lemma {:induction false} RecordedOnce(plan: Plan, first: World, tr: seq<Step>, last: World, k: nat, p: Path)
    requires Shaped(plan) && Inv(plan, first) && !first.book.begun && Run(plan, first, tr, last)
    requires k < |last.book.rows| && last.book.rows[k].staging == Some(p)
    ensures exists j :: 0 <= j < |tr| && Records(tr[j], k, p)
    decreases |tr|
  {
    var s := tr[|tr| - 1];
    if k < |s.before.book.rows| && s.before.book.rows[k].staging == Some(p) {
      RecordedOnce(plan, first, tr[..|tr| - 1], s.before, k, p);
      var j :| 0 <= j < |tr| - 1 && Records(tr[..|tr| - 1][j], k, p);
      assert Records(tr[j], k, p);
    } else {
      assert Records(tr[|tr| - 1], k, p);
    }
  }

  /** Written ahead: before a file is made in a staging directory, the journal has recorded its name for the
      item that makes it, and the name was free. */
  lemma {:induction false} WrittenAhead(plan: Plan, first: World, tr: seq<Step>, last: World, i: nat, p: Path)
    requires Shaped(plan) && Inv(plan, first) && !first.book.begun && Run(plan, first, tr, last)
    requires i < |tr| && tr[i].effect == OnDisk(Create(p)) && !p.dir.Folder?
    ensures p !in tr[i].before.disk.names
    ensures exists j :: 0 <= j < i && Records(tr[j], tr[i].item, p)
    decreases |tr|
  {
    var s, rest := tr[|tr| - 1], tr[..|tr| - 1];
    if i < |rest| {
      WrittenAhead(plan, first, rest, s.before, i, p);
      var j :| 0 <= j < i && Records(rest[j], rest[i].item, p);
      assert Records(tr[j], tr[i].item, p);
    } else {
      RecordedOnce(plan, first, rest, s.before, s.item, p);
      var j :| 0 <= j < |rest| && Records(rest[j], s.item, p);
      assert Records(tr[j], s.item, p);
    }
  }
}
