/** What whole runs never lose, and what an item's state says about its past. */
module Conservation {
  import opened Basics
  import opened Disks
  import opened Journals
  import opened Protocol
  import opened Invariant
  import opened Frames
  import opened Runs

  ghost predicate PlannedPath(it: Item, p: Path) {
    p == it.source || p == it.destination || (it.lifecycle.ArchiveAfterVerify? && p == it.lifecycle.archive)
  }

  /** Interference that leaves existing files under the plan's names undisturbed. */
  ghost predicate Respectful(plan: Plan, s: Step) {
    s.effect.Elsewhere? ==>
      forall j, p :: 0 <= j < |plan.items| && PlannedPath(plan.items[j], p) && p in s.before.disk.names ==>
        Same(s.before.disk, s.effect.disk, p)
  }

  /** The planned bytes, or what the lifecycle allows to replace them. */
  ghost predicate KeptCopy(plan: Plan, w: World, j: nat)
    requires j < |plan.items|
  {
    || SourceHere(w.disk, plan.items[j])
    || (!plan.items[j].lifecycle.Preserve? && VerifiedOutput(plan, w, j) && ArchiveHolds(w.disk, plan.items[j]))
  }

  /** A planned name other than a source being cleaned up stays as it is. */
  lemma PlannedKept(plan: Plan, s: Step, j: nat, p: Path)
    requires Shaped(plan) && Inv(plan, s.before) && Lawful(plan, s) && Respectful(plan, s) && !s.effect.Outage?
    requires j < |plan.items| && PlannedPath(plan.items[j], p) && p in s.before.disk.names
    requires p in s.after.disk.names || p != plan.items[j].source
    ensures Same(s.before.disk, s.after.disk, p)
  {
    if s.effect.OnDisk? { PlannedSpared(plan, s.before, s.item, s.effect.op, j, p); }
  }

  lemma PlannedSpared(plan: Plan, w: World, k: nat, op: Op, j: nat, p: Path)
    requires Shaped(plan) && Inv(plan, w) && DiskRule(plan, w, k, op)
    requires j < |plan.items| && PlannedPath(plan.items[j], p) && p in w.disk.names
    requires p in Perform(w.disk, op).names || p != plan.items[j].source
    ensures Same(w.disk, Perform(w.disk, op), p)
  {
    hide Same, Inv, DiskRule, Perform;
    if k == j {
      NotAimed(plan, w, k, op, p);
    } else {
      assert Concerns(plan, j, p);
      TargetsOwn(plan, w, k, op, j, p);
    }
    Untouched(plan, w, k, op, p);
  }

  lemma NotAimed(plan: Plan, w: World, k: nat, op: Op, p: Path)
    requires Shaped(plan) && Inv(plan, w) && DiskRule(plan, w, k, op)
    requires PlannedPath(plan.items[k], p) && p in w.disk.names
    requires p in Perform(w.disk, op).names || p != plan.items[k].source
    ensures Target(op) != Some(p)
  {
    assert RowInv(plan, w, k);
  }

  lemma OutputKept(plan: Plan, s: Step, j: nat)
    requires Shaped(plan) && Inv(plan, s.before) && Lawful(plan, s) && Respectful(plan, s) && !s.effect.Outage?
    requires j < |plan.items|
    requires VerifiedOutput(plan, s.before, j) && ArchiveHolds(s.before.disk, plan.items[j])
    ensures VerifiedOutput(plan, s.after, j) && ArchiveHolds(s.after.disk, plan.items[j])
  {
    hide SealedRow, Exclusive, Walk, Respectful, WellFormed, PrivateInv;
    var it := plan.items[j];
    InvKept(plan, s.before, s.item, s.effect);
    assert RowInv(plan, s.before, j);
    PlannedKept(plan, s, j, it.destination);
    if it.lifecycle.ArchiveAfterVerify? { PlannedKept(plan, s, j, it.lifecycle.archive); }
  }

  lemma CopyStep(plan: Plan, s: Step, j: nat)
    requires Shaped(plan) && Inv(plan, s.before) && Lawful(plan, s) && Respectful(plan, s) && !s.effect.Outage?
    requires j < |plan.items| && KeptCopy(plan, s.before, j)
    ensures KeptCopy(plan, s.after, j)
  {
    var it := plan.items[j];
    InvKept(plan, s.before, s.item, s.effect);
    if SourceHere(s.before.disk, it) {
      if it.source in s.after.disk.names {
        PlannedKept(plan, s, j, it.source);
      } else {
        assert Removes(s, it.source);
        SourceLicence(plan, s, j);
      }
    } else {
      OutputKept(plan, s, j);
    }
  }

  /** Conservation: along every run with any kills and recoveries, while existing files under the plan's
      names are left alone from outside, every item keeps its planned source bytes, or (never under
      preserve) a destination with verified output and, if planned, the archive copy of those bytes. */
  lemma {:induction false} NothingLost(plan: Plan, first: World, tr: seq<Step>, last: World, j: nat)
    requires Shaped(plan) && Inv(plan, first) && Run(plan, first, tr, last)
    requires forall s :: s in tr ==> Respectful(plan, s) && !s.effect.Outage?
    requires j < |plan.items| && KeptCopy(plan, first, j)
    ensures KeptCopy(plan, last, j)
    decreases |tr|
  {
    if tr != [] {
      var s := tr[|tr| - 1];
      NothingLost(plan, first, tr[..|tr| - 1], s.before, j);
      RunInv(plan, first, tr[..|tr| - 1], s.before);
      CopyStep(plan, s, j);
    }
  }

  // ---------------------------------------------------------------- power loss

  /** The step unlinks the source of the item that makes it. */
  ghost predicate UnlinksSource(plan: Plan, s: Step) {
    s.effect.OnDisk? && s.item < |plan.items| && s.effect.op == Unlink(plan.items[s.item].source)
  }

  /** A source is unlinked only once a power loss can take nothing of what replaces it. */
  ghost predicate FirmRemoval(plan: Plan, s: Step) {
    UnlinksSource(plan, s) ==>
      var it := plan.items[s.item];
      && Fast(s.before.disk, it.destination)
      && (it.lifecycle.ArchiveAfterVerify? ==> Fast(s.before.disk, it.lifecycle.archive))
  }

  /** Names are unlinked only once what they leave behind cannot be taken back by a power loss. */
  ghost predicate FirmStep(plan: Plan, s: Step) {
    s.effect.OnDisk? && s.effect.op.Unlink? && s.item < |plan.items| && s.item < |s.before.book.rows| ==>
      var it, p := plan.items[s.item], s.effect.op.path;
      && (p == it.source || s.before.book.rows[s.item].staging == Some(p) ==> Fast(s.before.disk, it.destination))
      && (p == it.source && it.lifecycle.ArchiveAfterVerify? ==> Fast(s.before.disk, it.lifecycle.archive))
  }

  ghost predicate SecuredCopy(plan: Plan, w: World, j: nat)
    requires j < |plan.items|
  {
    var it := plan.items[j];
    || (SourceHere(w.disk, it) && Fast(w.disk, it.source))
    || (!it.lifecycle.Preserve? && VerifiedOutput(plan, w, j) && ArchiveHolds(w.disk, it)
        && Fast(w.disk, it.destination)
        && (it.lifecycle.ArchiveAfterVerify? ==> Fast(w.disk, it.lifecycle.archive)))
  }

  lemma FastSurvives(d: Disk, after: Disk, p: Path)
    requires WellFormed(d) && PowerLoss(d, after) && Fast(d, p)
    ensures Fast(after, p) && forall c :: Holds(d, p, c) ==> Holds(after, p, c)
  {
    assert p.dir in after.folders;
    assert Lookup(after, p) == Lookup(d, p) || Lookup(after, p) in Lingering(d, p);
  }

  lemma SecuredThroughOutage(plan: Plan, w: World, d: Disk, j: nat)
    requires Inv(plan, w) && PowerLoss(w.disk, d) && j < |plan.items| && SecuredCopy(plan, w, j)
    ensures SecuredCopy(plan, w.(disk := d), j)
  {
    var it := plan.items[j];
    forall p | Fast(w.disk, p)
      ensures Fast(d, p) && forall c :: Holds(w.disk, p, c) ==> Holds(d, p, c)
    {
      FastSurvives(w.disk, d, p);
    }
    hide Inv, PowerLoss, Fast;
  }

  lemma SameFast(d: Disk, e: Disk, p: Path)
    requires Same(d, e, p) && Fast(d, p)
    ensures Fast(e, p)
  {
  }

  /** The removal of a source leaves a secured replacement. */
  lemma SecuredThroughRemoval(plan: Plan, s: Step, j: nat)
    requires Shaped(plan) && Inv(plan, s.before) && Lawful(plan, s) && FirmRemoval(plan, s) && ByEngine(s)
    requires j < |plan.items| && Removes(s, plan.items[j].source)
    ensures SecuredCopy(plan, s.after, j)
  {
    var it := plan.items[j];
    SourceLicence(plan, s, j);
    assert RowInv(plan, s.before, j);
    assert s.effect.OnDisk? && s.effect.op == Unlink(it.source);
    PlannedKept(plan, s, j, it.destination);
    SameFast(s.before.disk, s.after.disk, it.destination);
    if it.lifecycle.ArchiveAfterVerify? {
      PlannedKept(plan, s, j, it.lifecycle.archive);
      SameFast(s.before.disk, s.after.disk, it.lifecycle.archive);
    }
  }

  lemma SecuredStep(plan: Plan, s: Step, j: nat)
    requires Shaped(plan) && Inv(plan, s.before) && Lawful(plan, s) && Respectful(plan, s)
    requires s.item == j ==> FirmRemoval(plan, s)
    requires j < |plan.items| && SecuredCopy(plan, s.before, j)
    ensures SecuredCopy(plan, s.after, j)
  {
    hide Inv, Fast, Same, FirmRemoval;
    var it := plan.items[j];
    if s.effect.Outage? {
      SecuredThroughOutage(plan, s.before, s.effect.disk, j);
    } else if SourceHere(s.before.disk, it) && Fast(s.before.disk, it.source) {
      if it.source in s.after.disk.names {
        SourceStays(plan, s, j);
      } else {
        SourceGoes(plan, s, j);
      }
    } else {
      OutputStays(plan, s, j);
    }
  }

  lemma SourceStays(plan: Plan, s: Step, j: nat)
    requires Shaped(plan) && Inv(plan, s.before) && Lawful(plan, s) && Respectful(plan, s) && !s.effect.Outage?
    requires j < |plan.items| && SourceHere(s.before.disk, plan.items[j]) && Fast(s.before.disk, plan.items[j].source)
    requires plan.items[j].source in s.after.disk.names
    ensures SecuredCopy(plan, s.after, j)
  {
    PlannedKept(plan, s, j, plan.items[j].source);
    SameFast(s.before.disk, s.after.disk, plan.items[j].source);
  }

  lemma SourceGoes(plan: Plan, s: Step, j: nat)
    requires Shaped(plan) && Inv(plan, s.before) && Lawful(plan, s) && Respectful(plan, s) && !s.effect.Outage?
    requires s.item == j ==> FirmRemoval(plan, s)
    requires j < |plan.items| && plan.items[j].source in s.before.disk.names
    requires plan.items[j].source !in s.after.disk.names
    ensures SecuredCopy(plan, s.after, j)
  {
    assert ByEngine(s) && Removes(s, plan.items[j].source);
    SourceLicence(plan, s, j);
    SecuredThroughRemoval(plan, s, j);
  }

  lemma OutputStays(plan: Plan, s: Step, j: nat)
    requires Shaped(plan) && Inv(plan, s.before) && Lawful(plan, s) && Respectful(plan, s) && !s.effect.Outage?
    requires j < |plan.items| && SecuredCopy(plan, s.before, j)
    requires !(SourceHere(s.before.disk, plan.items[j]) && Fast(s.before.disk, plan.items[j].source))
    ensures SecuredCopy(plan, s.after, j)
  {
    var it := plan.items[j];
    OutputKept(plan, s, j);
    assert RowInv(plan, s.before, j);
    PlannedKept(plan, s, j, it.destination);
    SameFast(s.before.disk, s.after.disk, it.destination);
    if it.lifecycle.ArchiveAfterVerify? {
      PlannedKept(plan, s, j, it.lifecycle.archive);
      SameFast(s.before.disk, s.after.disk, it.lifecycle.archive);
    }
  }

  lemma FirmStepRemoval(plan: Plan, s: Step)
    requires FirmStep(plan, s) && s.item < |s.before.book.rows|
    ensures FirmRemoval(plan, s)
  {
  }

  /** Durable conservation: if every removal of an item's source in the run is firm, then through any number of power
      losses the item keeps a copy that the next power loss cannot take. */
  lemma {:induction false} NothingLostToPower(plan: Plan, first: World, tr: seq<Step>, last: World, j: nat)
    requires Shaped(plan) && Inv(plan, first) && Run(plan, first, tr, last)
    requires forall s :: s in tr ==> Respectful(plan, s) && (s.item == j ==> FirmRemoval(plan, s))
    requires j < |plan.items| && SecuredCopy(plan, first, j)
    ensures SecuredCopy(plan, last, j)
    decreases |tr|
  {
    if tr != [] {
      var s := tr[|tr| - 1];
      NothingLostToPower(plan, first, tr[..|tr| - 1], s.before, j);
      RunInv(plan, first, tr[..|tr| - 1], s.before);
      SecuredStep(plan, s, j);
    }
  }

  // ---------------------------------------------------------------- what a state says about the past

  predicate Late(s: ItemState) {
    s in {CleanupPending, Cleaned, Complete, RecoveryRequired}
  }

  ghost predicate Links(s: Step, p: Path) {
    p !in s.before.disk.names && p in s.after.disk.names
  }

  lemma {:induction false} RemovedIsLate(plan: Plan, first: World, tr: seq<Step>, last: World, j: nat, i: nat)
    requires Shaped(plan) && Inv(plan, first) && Run(plan, first, tr, last)
    requires j < |plan.items| && i < |tr| && ByEngine(tr[i]) && Removes(tr[i], plan.items[j].source)
    ensures j < |last.book.rows| && Late(last.book.rows[j].state)
    decreases |tr|
  {
    var s := tr[|tr| - 1];
    RunInv(plan, first, tr[..|tr| - 1], s.before);
    if i == |tr| - 1 {
      SourceLicence(plan, s, j);
    } else {
      assert tr[..|tr| - 1][i] == tr[i];
      RemovedIsLate(plan, first, tr[..|tr| - 1], s.before, j, i);
      LaterState(plan, s, j);
    }
  }

  lemma LinkedNow(plan: Plan, s: Step, j: nat)
    requires Shaped(plan) && Inv(plan, s.before) && Lawful(plan, s) && ByEngine(s)
    requires j < |plan.items| && Links(s, plan.items[j].destination)
    ensures j < |s.after.book.rows| && s.after.book.rows[j].state == Committing
  {
    assert s.effect.OnDisk?;
    assert RowInv(plan, s.before, s.item);
    assert s.effect.op.Link? && s.effect.op.path == plan.items[j].destination;
  }

  lemma LaterState(plan: Plan, s: Step, j: nat)
    requires Inv(plan, s.before) && Lawful(plan, s) && j < |s.before.book.rows|
    ensures j < |s.after.book.rows|
    ensures Launched(s.before.book.rows[j].state) ==> Launched(s.after.book.rows[j].state)
    ensures Late(s.before.book.rows[j].state) ==> Late(s.after.book.rows[j].state)
  {
  }

  lemma {:induction false} LinkedIsLaunched(plan: Plan, first: World, tr: seq<Step>, last: World, j: nat, i: nat)
    requires Shaped(plan) && Inv(plan, first) && Run(plan, first, tr, last)
    requires j < |plan.items| && i < |tr| && ByEngine(tr[i]) && Links(tr[i], plan.items[j].destination)
    ensures j < |last.book.rows| && Launched(last.book.rows[j].state)
    decreases |tr|
  {
    var s := tr[|tr| - 1];
    RunInv(plan, first, tr[..|tr| - 1], s.before);
    if i == |tr| - 1 {
      LinkedNow(plan, s, j);
    } else {
      assert tr[..|tr| - 1][i] == tr[i];
      LinkedIsLaunched(plan, first, tr[..|tr| - 1], s.before, j, i);
      LaterState(plan, s, j);
    }
  }

  /** Why the states that `abandon` accepts are safe: the engine has unlinked no source of an item that
      is not COMPLETE, and linked no destination of one that is PENDING, PREFLIGHT_OK or FAILED. */
  lemma AbandonableStates(plan: Plan, first: World, tr: seq<Step>, last: World, j: nat, i: nat)
    requires Shaped(plan) && Inv(plan, first) && Run(plan, first, tr, last)
    requires j < |plan.items| && j < |last.book.rows| && i < |tr| && ByEngine(tr[i])
    requires last.book.rows[j].state in {Pending, PreflightOk, Failed, Stale}
    ensures !Removes(tr[i], plan.items[j].source)
    ensures last.book.rows[j].state != Stale ==> !Links(tr[i], plan.items[j].destination)
  {
    if Removes(tr[i], plan.items[j].source) {
      RemovedIsLate(plan, first, tr, last, j, i);
    }
    if Links(tr[i], plan.items[j].destination) {
      LinkedIsLaunched(plan, first, tr, last, j, i);
    }
  }
}
