/** Where an undisturbed run can stand: every state that process kills can leave behind when nothing
    else touches the files and the writers do their job. It is kept by every permitted effect that
    does not give an item up, so it also covers kills inside recoveries of recoveries. */
module Recoverable {
  import opened Basics
  import opened Disks
  import opened Journals
  import opened Protocol
  import opened Invariant
  import opened Frames

  ghost function Output(plan: Plan, it: Item): Bytes {
    plan.writers.stage(it, it.fingerprint.of)
  }

  ghost predicate SoundWriters(plan: Plan) {
    forall k :: 0 <= k < |plan.items| ==>
      && plan.items[k].size == |plan.items[k].fingerprint.of|
      && plan.writers.valid(plan.items[k], plan.items[k].fingerprint.of, Output(plan, plan.items[k]))
  }

  ghost predicate Delivered(plan: Plan, d: Disk, it: Item) {
    && Holds(d, it.destination, Output(plan, it))
    && d.files[d.names[it.destination]].mode == it.mode
  }

  /** The end of a crash-free run, by lifecycle. */
  ghost predicate Finished(plan: Plan, d: Disk, it: Item) {
    && Delivered(plan, d, it)
    && match it.lifecycle
       case Preserve => SourceHere(d, it)
       case MoveAfterVerify => it.source !in d.names
       case ArchiveAfterVerify(a) => it.source !in d.names && Holds(d, a, it.fingerprint.of)
  }

  /** The staging name is gone, or is a second name of the destination's inode. */
  ghost predicate StageDone(d: Disk, it: Item, row: Row) {
    row.staging.Some? && (row.staging.value in d.names ==> Lookup(d, row.staging.value) == Lookup(d, it.destination))
  }

  ghost predicate StageGone(d: Disk, row: Row) {
    row.staging.Some? ==> row.staging.value !in d.names
  }

  ghost predicate CleanupInProgress(d: Disk, it: Item) {
    match it.lifecycle
    case Preserve => false
    case MoveAfterVerify => it.source !in d.names || SourceHere(d, it)
    case ArchiveAfterVerify(a) =>
      || (SourceHere(d, it) && (a !in d.names || Holds(d, a, it.fingerprint.of)))
      || (it.source !in d.names && Holds(d, a, it.fingerprint.of))
  }

  ghost predicate OnTrack(plan: Plan, w: World, k: nat)
    requires k < |plan.items| && k < |w.book.rows|
  {
    var it, row, d := plan.items[k], w.book.rows[k], w.disk;
    var sealedOutput := row.stagedHash == Some(Hash(Output(plan, it)));
    Folder(it.root) in d.folders && match row.state
    case Pending => PreflightOkFor(d, it)
    case PreflightOk => PreflightOkFor(d, it)
    case Staging => PreflightOkFor(d, it)
    case Failed => PreflightOkFor(d, it)
    case Staged => PreflightOkFor(d, it) && row.staging.Some? && Holds(d, row.staging.value, Output(plan, it))
    case Verified => PreflightOkFor(d, it) && sealedOutput && row.staging.Some? && row.staging.value in d.names
    case Committing =>
      && SourceHere(d, it) && ArchiveAbsent(d, it) && sealedOutput && row.staging.Some?
      && (if it.destination in d.names then Delivered(plan, d, it) && StageDone(d, it, row)
          else row.staging.value in d.names && it.destination.dir in d.folders)
    case Committed =>
      && SourceHere(d, it) && ArchiveAbsent(d, it) && sealedOutput && Delivered(plan, d, it) && StageDone(d, it, row)
    case CleanupPending => CleanupInProgress(d, it) && sealedOutput && Delivered(plan, d, it) && StageDone(d, it, row)
    case Cleaned => Finished(plan, d, it) && StageGone(d, row)
    case Complete => Finished(plan, d, it) && StageGone(d, row)
    case Stale => false
    case RecoveryRequired => false
  }

  ghost predicate Quiet(plan: Plan, w: World) {
    w.book.begun && |w.book.rows| == |plan.items| && forall k :: 0 <= k < |w.book.rows| ==> OnTrack(plan, w, k)
  }

  ghost predicate StagedOutput(plan: Plan, w: World, k: nat) {
    && k < |plan.items| && k < |w.book.rows| && w.book.rows[k].staging.Some?
    && Holds(w.disk, w.book.rows[k].staging.value, Output(plan, plan.items[k]))
  }

  /** No recovery will take the item further. */
  predicate GivenUp(s: ItemState) {
    s in {Stale, RecoveryRequired}
  }

  /** An item is given up at the first preflight, or handed over for a failure in a state in which the code
      does not try again. */
  predicate Excusable(e: Event) {
    e.ItemEvent? ==>
      && (e.to == Stale ==> e.from == Some(Pending))
      && (e.to == RecoveryRequired ==>
           e.from in {Some(Pending), Some(PreflightOk), Some(Verified), Some(Cleaned)})
  }

  /** Where a run without interference stands, whatever failed in it: items that were given up were given up
      for a reason, and all others can be finished. */
  ghost predicate Orderly(plan: Plan, w: World) {
    && w.book.begun && |w.book.rows| == |plan.items|
    && (forall k :: 0 <= k < |w.book.rows| ==> GivenUp(w.book.rows[k].state) || OnTrack(plan, w, k))
    && Blameless(w.book)
  }

  ghost predicate Blameless(b: Book) {
    forall e :: e in b.events && e.ItemEvent? && e.item < |b.rows| ==> Excusable(e)
  }

  /** Taking no directory away, staging what the writer is supposed to stage, leaving no stage behind, and
      giving an item up only for a reason. */
  ghost predicate Proper(plan: Plan, w: World, k: nat, e: Effect) {
    match e
    case OnDisk(op) => !op.RemoveDir?
    case OnBook(Move(to, _)) =>
      && k < |w.book.rows|
      && (to == Staged ==> StagedOutput(plan, w, k))
      && (to in {Cleaned, Complete} ==> StageGone(w.disk, w.book.rows[k]))
      && (GivenUp(to) ==> Excusable(ItemEvent(k, Some(w.book.rows[k].state), to, false)))
    case OnBook(OpenRun(_)) => false
    case OnBook(_) => true
    case _ => false
  }

  /** And not giving an item up at all. */
  ghost predicate Calm(plan: Plan, w: World, k: nat, e: Effect) {
    Proper(plan, w, k, e) && !(e.OnBook? && e.edit.Move? && GivenUp(e.edit.to))
  }

  lemma SameHolds(d: Disk, e: Disk, p: Path)
    requires WellFormed(d) && WellFormed(e) && Same(d, e, p)
    ensures forall c :: Holds(e, p, c) == Holds(d, p, c)
    ensures p in e.names <==> p in d.names
    ensures p in d.names ==> e.names[p] == d.names[p] && e.files[e.names[p]].mode == d.files[d.names[p]].mode
  {
  }

  /** If every path an item depends on is untouched, the item is still on track. */
  lemma SameOnTrack(plan: Plan, w: World, e: Disk, j: nat)
    requires j < |plan.items| && j < |w.book.rows| && OnTrack(plan, w, j)
    requires WellFormed(w.disk) && WellFormed(e)
    requires w.disk.folders.Keys <= e.folders.Keys
    requires forall p :: Concerns(plan, j, p) ==> Same(w.disk, e, p)
    requires w.book.rows[j].staging.Some? ==> w.book.rows[j].staging.value.dir == StageDir(plan, j)
    ensures OnTrack(plan, World(e, w.book, w.supply), j)
  {
    var it, row := plan.items[j], w.book.rows[j];
    SameHolds(w.disk, e, it.source);
    SameHolds(w.disk, e, it.destination);
    if it.lifecycle.ArchiveAfterVerify? { SameHolds(w.disk, e, it.lifecycle.archive); }
    if row.staging.Some? { SameHolds(w.disk, e, row.staging.value); }
  }

  lemma OthersOnTrack(plan: Plan, w: World, k: nat, op: Op, j: nat)
    requires Shaped(plan) && Inv(plan, w) && DiskRule(plan, w, k, op) && !op.RemoveDir?
    requires j < |w.book.rows| && j != k && OnTrack(plan, w, j)
    ensures OnTrack(plan, After(w, k, OnDisk(op)), j)
  {
    var e := Perform(w.disk, op);
    DiskWellFormed(w.disk, op);
    assert RowInv(plan, w, j);
    forall p | Concerns(plan, j, p) ensures Same(w.disk, e, p) {
      TargetsOwn(plan, w, k, op, j, p);
      Untouched(plan, w, k, op, p);
    }
    SameOnTrack(plan, w, e, j);
  }

  /** The item's files that an operation of its own does not aim at. */
  lemma OwnSpared(plan: Plan, w: World, k: nat, op: Op)
    requires Shaped(plan) && Inv(plan, w) && DiskRule(plan, w, k, op)
    ensures forall p :: Target(op) != Some(p) ==> Same(w.disk, Perform(w.disk, op), p)
    ensures forall p, c :: Target(op) != Some(p) ==> Holds(Perform(w.disk, op), p, c) == Holds(w.disk, p, c)
    ensures forall p :: Target(op) != Some(p) ==> (p in Perform(w.disk, op).names <==> p in w.disk.names)
    ensures forall p :: Target(op) != Some(p) && p in w.disk.names ==>
              Perform(w.disk, op).names[p] == w.disk.names[p] && w.disk.names[p] < |Perform(w.disk, op).files|
              && Perform(w.disk, op).files[w.disk.names[p]].mode == w.disk.files[w.disk.names[p]].mode
  {
    DiskWellFormed(w.disk, op);
    forall p | Target(op) != Some(p) ensures Same(w.disk, Perform(w.disk, op), p) {
      Untouched(plan, w, k, op, p);
    }
  }

  lemma OwnAimed(plan: Plan, w: World, k: nat, op: Op)
    requires Shaped(plan) && Inv(plan, w) && DiskRule(plan, w, k, op) && OnTrack(plan, w, k)
    requires Target(op).Some? && Concerns(plan, k, Target(op).value) && !op.Link?
    ensures OnTrack(plan, After(w, k, OnDisk(op)), k)
  {
    OwnSpared(plan, w, k, op);
    assert RowInv(plan, w, k);
    var row := w.book.rows[k];
    if row.staging.Some? && row.staging.value in w.disk.names {
      assert Might(w.disk, row.staging.value, w.disk.names[row.staging.value]);
    }
  }

  lemma OwnLinked(plan: Plan, w: World, k: nat, op: Op)
    requires Shaped(plan) && Inv(plan, w) && DiskRule(plan, w, k, op) && OnTrack(plan, w, k) && op.Link?
    ensures OnTrack(plan, After(w, k, OnDisk(op)), k)
  {
    OwnSpared(plan, w, k, op);
    assert RowInv(plan, w, k);
    assert Might(w.disk, op.from, w.disk.names[op.from]);
  }

  lemma OwnOnTrack(plan: Plan, w: World, k: nat, op: Op)
    requires Shaped(plan) && Inv(plan, w) && DiskRule(plan, w, k, op) && OnTrack(plan, w, k) && !op.RemoveDir?
    ensures OnTrack(plan, After(w, k, OnDisk(op)), k)
  {
    assert RowInv(plan, w, k);
    if op.Link? {
      OwnLinked(plan, w, k, op);
    } else if Target(op).Some? && Concerns(plan, k, Target(op).value) {
      OwnAimed(plan, w, k, op);
    } else {
      DiskWellFormed(w.disk, op);
      OwnSpared(plan, w, k, op);
      SameOnTrack(plan, w, Perform(w.disk, op), k);
    }
  }

  lemma MoveOnTrack(plan: Plan, w: World, k: nat, to: ItemState, fields: Fields)
    requires Shaped(plan) && Inv(plan, w) && BookRule(plan, w, k, Move(to, fields)) && OnTrack(plan, w, k)
    requires Proper(plan, w, k, OnBook(Move(to, fields))) && !GivenUp(to)
    ensures OnTrack(plan, After(w, k, OnBook(Move(to, fields))), k)
  {
    hide TreeFormed, SourceHere, OutputHeld, RowInv;
    assert RowInv(plan, w, k);
    var row := w.book.rows[k];
    if to == Committed && row.staging.Some? && row.staging.value in w.disk.names {
      assert Might(w.disk, row.staging.value, w.disk.names[row.staging.value]);
    }
  }

  /** A journal entry about another item, or a note. */
  lemma EditOnTrack(plan: Plan, w: World, k: nat, edit: Edit, j: nat)
    requires j < |plan.items| && j < |w.book.rows| && OnTrack(plan, w, j) && Editable(w.book, k, edit)
    requires !edit.OpenRun? && !(edit.Move? && j == k)
    ensures j < |After(w, k, OnBook(edit)).book.rows| && OnTrack(plan, After(w, k, OnBook(edit)), j)
  {
  }

  /** An item on track stays on track unless it is given up itself. */
  lemma TrackKept(plan: Plan, w: World, k: nat, e: Effect, j: nat)
    requires Shaped(plan) && Inv(plan, w) && Permitted(plan, w, k, e) && Proper(plan, w, k, e)
    requires j < |plan.items| && j < |w.book.rows| && OnTrack(plan, w, j)
    ensures var v := After(w, k, e);
            j < |v.book.rows| && (if e.OnBook? && e.edit.Move? && j == k && GivenUp(e.edit.to)
              then v.book.rows[j].state == e.edit.to else OnTrack(plan, v, j))
  {
    hide Inv, OnTrack, Shaped, DiskRule, BookRule, Perform, StageGone, StagedOutput;
    match e
    case OnDisk(op) => if j == k { OwnOnTrack(plan, w, k, op); } else { OthersOnTrack(plan, w, k, op, j); }
    case OnBook(edit) =>
      if edit.Move? && j == k {
        if !GivenUp(edit.to) { MoveOnTrack(plan, w, k, edit.to, edit.fields); }
      } else {
        EditOnTrack(plan, w, k, edit, j);
      }
  }

  /** Permitted effects that do not give an item up keep every item on track. */
  lemma QuietKept(plan: Plan, w: World, k: nat, e: Effect)
    requires Shaped(plan) && Inv(plan, w) && Permitted(plan, w, k, e) && Quiet(plan, w) && Calm(plan, w, k, e)
    ensures Quiet(plan, After(w, k, e))
  {
    hide Inv, OnTrack, Shaped, DiskRule, BookRule, Perform, StageGone, StagedOutput;
    var v := After(w, k, e);
    forall j | 0 <= j < |v.book.rows| ensures OnTrack(plan, v, j) {
      assert OnTrack(plan, w, j);
      TrackKept(plan, w, k, e, j);
    }
  }

  /** An item that was given up is given up for good. */
  lemma GivenUpForGood(w: World, k: nat, e: Effect, j: nat)
    requires Feasible(w, k, e) && (e.OnDisk? || (e.OnBook? && !e.edit.OpenRun?))
    requires j < |w.book.rows| && GivenUp(w.book.rows[j].state)
    ensures var v := After(w, k, e); j < |v.book.rows| && v.book.rows[j].state == w.book.rows[j].state
  {
  }

  lemma ExcusableKept(plan: Plan, w: World, k: nat, edit: Edit)
    requires Editable(w.book, k, edit) && Proper(plan, w, k, OnBook(edit))
    requires edit.Note? ==> !GivenUp(w.book.rows[k].state)
    requires Blameless(w.book) && !edit.OpenRun?
    ensures Blameless(After(w, k, OnBook(edit)).book)
  {
    hide StageGone, StagedOutput;
  }

  /** Permitted effects that give items up only for a reason keep a run orderly. */
  lemma OrderlyKept(plan: Plan, w: World, k: nat, e: Effect)
    requires Shaped(plan) && Inv(plan, w) && Permitted(plan, w, k, e) && Orderly(plan, w) && Proper(plan, w, k, e)
    ensures Orderly(plan, After(w, k, e))
  {
    NotesOnly(plan, w, k, e);
    hide Inv, OnTrack, Shaped, DiskRule, BookRule, Perform, StageGone, StagedOutput, GivenUp, Blameless, Proper;
    var v := After(w, k, e);
    forall j | 0 <= j < |v.book.rows| ensures GivenUp(v.book.rows[j].state) || OnTrack(plan, v, j) {
      if GivenUp(w.book.rows[j].state) {
        GivenUpForGood(w, k, e, j);
      } else {
        TrackKept(plan, w, k, e, j);
      }
    }
    if e.OnBook? { ExcusableKept(plan, w, k, e.edit); }
  }

  lemma NotesOnly(plan: Plan, w: World, k: nat, e: Effect)
    requires Permitted(plan, w, k, e) && Proper(plan, w, k, e)
    ensures e.OnDisk? || (e.OnBook? && !e.edit.OpenRun?)
    ensures e.OnBook? && e.edit.Note? ==> !GivenUp(w.book.rows[k].state)
  {
  }

  /** Directories may come, files stay: the run is as orderly as it was. */
  lemma SameOrderly(plan: Plan, w: World, v: World)
    requires Inv(plan, w) && WellFormed(v.disk) && v.book == w.book && Orderly(plan, w)
    requires w.disk.folders.Keys <= v.disk.folders.Keys && forall p :: Same(w.disk, v.disk, p)
    ensures Orderly(plan, v)
  {
    hide OnTrack, Same, TreeFormed, PrivateInv, GivenUp, Blameless;
    forall j | 0 <= j < |v.book.rows| ensures GivenUp(v.book.rows[j].state) || OnTrack(plan, v, j) {
      if !GivenUp(w.book.rows[j].state) {
        assert RowInv(plan, w, j);
        SameOnTrack(plan, w, v.disk, j);
        SupplyApart(plan, World(v.disk, w.book, w.supply), v, j);
      }
    }
  }

  lemma SupplyApart(plan: Plan, w: World, v: World, j: nat)
    requires v.disk == w.disk && v.book == w.book && j < |plan.items| && j < |w.book.rows| && OnTrack(plan, w, j)
    ensures OnTrack(plan, v, j)
  {
  }

  /** A log that leads to a state in which an item is not given up never gave it up. */
  lemma {:induction false} NeverGivenUp(events: seq<Event>, k: nat)
    requires Walk(events, k).Unborn? || (Walk(events, k).At? && !GivenUp(Walk(events, k).state))
    ensures forall e :: e in events && e.ItemEvent? && e.item == k ==> !GivenUp(e.to)
  {
    if events != [] {
      var rest, last := events[..|events| - 1], events[|events| - 1];
      NeverGivenUp(rest, k);
      assert events == rest + [last];
    }
  }

  /** A run in which nothing was ever given up is orderly. */
  lemma QuietOrderly(plan: Plan, w: World)
    requires Inv(plan, w) && Quiet(plan, w)
    ensures Orderly(plan, w) && forall k :: 0 <= k < |w.book.rows| ==> !GivenUp(w.book.rows[k].state)
  {
    forall e | e in w.book.events && e.ItemEvent? && e.item < |w.book.rows| ensures Excusable(e) {
      var k := e.item;
      assert RowInv(plan, w, k) && OnTrack(plan, w, k);
      NeverGivenUp(w.book.events, k);
    }
    forall k | 0 <= k < |w.book.rows| ensures !GivenUp(w.book.rows[k].state) { assert OnTrack(plan, w, k); }
  }

  /** On track all together is orderly with nothing given up. */
  lemma QuietMeans(plan: Plan, w: World)
    requires Orderly(plan, w) && forall k :: 0 <= k < |w.book.rows| ==> !GivenUp(w.book.rows[k].state)
    ensures Quiet(plan, w)
  {
    hide OnTrack;
  }
}
