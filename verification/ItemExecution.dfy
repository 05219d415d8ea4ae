/** The engine's work on one item: executing it, recovering it, and recording what went wrong. */
module ItemExecution {
  import opened Basics
  import opened Disks
  import opened Journals
  import opened Protocol
  import opened Invariant
  import opened Frames
  import opened Recoverable
  import opened Dangers
  import opened Filesystem
  import opened Turns
  import opened Actions

  /** The writer's verification of candidate `p` against the present source succeeds. */
  predicate Passes(plan: Plan, d: Disk, it: Item, p: Path) {
    && it.source in d.names && d.names[it.source] < |d.files|
    && p in d.names && d.names[p] < |d.files|
    && plan.writers.valid(it, d.files[d.names[it.source]].content, d.files[d.names[p]].content)
  }

  /** The destination is exactly what was sealed. */
  predicate CommittedAsSealed(plan: Plan, d: Disk, it: Item, row: Row) {
    && it.destination in d.names && d.names[it.destination] < |d.files|
    && row.stagedSize == Some(|d.files[d.names[it.destination]].content|)
    && row.stagedHash == Some(Hash(d.files[d.names[it.destination]].content))
    && d.files[d.names[it.destination]].mode == it.mode
    && Passes(plan, d, it, it.destination)
  }

  predicate BeforeCommit(s: ItemState) {
    s in {Pending, PreflightOk, Staging, Staged, Failed, Verified}
  }

  /** Where an item may stand once a call has dealt with it. */
  predicate SettledState(s: ItemState) {
    s in {Complete, Stale, RecoveryRequired, Failed, Committing, Committed, CleanupPending}
  }

  /** Where a stale source takes an item: only from these states is it still harmless. */
  function AfterStaleness(s: ItemState): ItemState {
    match s
    case PreflightOk | Staging | Staged | Verified | Committing => Stale
    case _ => RecoveryRequired
  }

  /** Where a failure takes an item: after the commit attempt it stays for recovery to decide. */
  function AfterFailure(s: ItemState): ItemState {
    match s
    case Staging | Staged => Failed
    case Pending | PreflightOk | Verified | Cleaned => RecoveryRequired
    case _ => s
  }

  /** The archive name holds other bytes, or source and archive are both missing. */
  predicate BadArchive(d: Disk, it: Item)
    requires it.lifecycle.ArchiveAfterVerify?
  {
    !Holds(d, it.lifecycle.archive, it.fingerprint.of) && (it.lifecycle.archive in d.names || it.source !in d.names)
  }

  // ---------------------------------------------------------------- diagnosis

  datatype Proposal = NothingLeft | RecognizeCommit | PublishRetained | ResumeLifecycle | RetryStaging | Manual

  function ProposedRecovery(s: ItemState, present: bool, matches: bool): Proposal {
    if s == Complete then NothingLeft
    else if s == Committing && present && matches then RecognizeCommit
    else if s in {Verified, Committing} && !present then PublishRetained
    else if s in {Committed, CleanupPending} && matches then ResumeLifecycle
    else if s in {PreflightOk, Staging, Staged, Failed} then RetryStaging
    else Manual
  }

  function Diagnosis(d: Disk, it: Item, row: Row): Proposal {
    ProposedRecovery(row.state, it.destination in d.names, AsExpected(d, it, row))
  }

  /** The destination and the recorded staging name of an item are what they were. */
  ghost predicate Retained(plan: Plan, w: World, v: World, k: nat) {
    k < |plan.items| && SameStage(w, v, k) && Same(w.disk, v.disk, plan.items[k].destination)
  }

  predicate SameStage(w: World, v: World, k: nat) {
    k < |w.book.rows| && k < |v.book.rows| && v.book.rows[k].staging == w.book.rows[k].staging
  }

  /** What is retained from here on was retained from before. */
  lemma RetainedOn(plan: Plan, w: World, v: World, k: nat)
    requires WellFormed(w.disk) && Retained(plan, w, v, k)
    ensures forall u: World :: Retained(plan, v, u, k) ==> Retained(plan, w, u, k)
  {
    hide WellFormed;
    forall u: World | Retained(plan, v, u, k) ensures Retained(plan, w, u, k) {
      SameTrans(w.disk, v.disk, u.disk, plan.items[k].destination);
    }
  }

  /** Changing nothing but the item's state and evidence retains both. */
  lemma RetainedHere(plan: Plan, w: World, k: nat)
    requires k < |plan.items|
    ensures forall v: World :: v.disk == w.disk && SameStage(w, v, k) ==> Retained(plan, w, v, k)
  {
  }

  /** Work at other paths that leaves the item's row alone. */
  lemma RetainedAt(plan: Plan, w: World, v: World, k: nat, s: Path, t: Path)
    requires k < |plan.items| && k < |w.book.rows| && WellFormed(w.disk) && v.book == w.book
    requires Apart(w.disk, v.disk, s, t) && plan.items[k].destination !in {s, t}
    ensures Retained(plan, w, v, k)
  {
    hide Same, WellFormed;
  }

  /** A staging name was recorded that is not the old one. */
  predicate NewStage(w: World, v: World, k: nat) {
    && k < |w.book.rows| && k < |v.book.rows|
    && v.book.rows[k].staging.Some? && v.book.rows[k].staging != w.book.rows[k].staging
  }

  /** The files of item `k` under its planned names and in its staging directory are as they were. */
  ghost predicate FilesKept(plan: Plan, d: Disk, e: Disk, k: nat)
    requires k < |plan.items|
  {
    forall p :: Concerns(plan, k, p) ==> Same(d, e, p)
  }

  /** Recovery did with an item, between the worlds `w` and `v`, what the inspection in `w` proposes: an item
      that nothing is left of and one for a person keep their files; a commit is recognized and a lifecycle
      resumed without touching the destination or staging anything; a retained stage is published without
      staging anything; and a retry completes an item only under a new staging name, unless it was staged. */
  ghost predicate Heeded(plan: Plan, w: World, v: World, k: nat)
    requires k < |plan.items| && k < |w.book.rows|
  {
    && k < |v.book.rows|
    && match Diagnosis(w.disk, plan.items[k], w.book.rows[k])
       case NothingLeft => v.book.rows[k] == w.book.rows[k] && FilesKept(plan, w.disk, v.disk, k)
       case RecognizeCommit => Retained(plan, w, v, k)
       case PublishRetained => SameStage(w, v, k)
       case ResumeLifecycle => Retained(plan, w, v, k)
       case RetryStaging =>
         v.book.rows[k].state == Complete ==>
           if w.book.rows[k].state == Staged then SameStage(w, v, k) else NewStage(w, v, k)
       case Manual => FilesKept(plan, w.disk, v.disk, k)
  }

  /** Not acting at all is what every proposal allows. */
  lemma HeededStill(plan: Plan, w: World, k: nat)
    requires k < |plan.items| && k < |w.book.rows|
    ensures Heeded(plan, w, w, k)
  {
  }

  /** Recording how it ended does not matter. */
  lemma HeededThen(plan: Plan, w: World, v: World, u: World, k: nat)
    requires k < |plan.items| && k < |w.book.rows| && Heeded(plan, w, v, k)
    requires u.disk == v.disk && SameStage(v, u, k)
    requires u.book.rows[k].state == Complete ==> v.book.rows[k].state == Complete
    requires w.book.rows[k].state == Complete ==> u == w
    ensures Heeded(plan, w, u, k)
  {
  }

  class ItemEngine {
    const desk: Desk

    constructor (desk: Desk)
      ensures this.desk == desk
    {
      this.desk := desk;
    }

    /** How work on an item ends: within the rules, and with a changed source or a taken name only where there
        is one and the item is not finished. */
    twostate predicate Ended(k: nat, r: Outcome)
      reads desk, desk.machine
    {
      && desk.Turned(k, r)
      && (desk.Assured(k) ==> r in {Done, Killed})
      && (r == Raised(StaleSource) ==> Expired(k) && !desk.mode.orderly)
      && (r == Raised(DestinationExists) ==> Collided(k) && !desk.mode.orderly)
    }

    predicate Expired(k: nat)
      requires k < |desk.plan.items| && k < |desk.machine.world.book.rows|
      reads desk, desk.machine
    {
      desk.State(k) !in {Complete, Stale} && !SourceHere(desk.machine.world.disk, desk.plan.items[k])
    }

    predicate Collided(k: nat)
      requires k < |desk.plan.items| && k < |desk.machine.world.book.rows|
      reads desk, desk.machine
    {
      var it, d := desk.plan.items[k], desk.machine.world.disk;
      || (desk.State(k) in {Verified, Committing} && it.destination in d.names)
      || (desk.State(k) == CleanupPending && !ArchiveAbsent(d, it))
    }

    /** The destination is there or not as before. */
    predicate SameThere(d: Disk, e: Disk, k: nat)
      requires k < |desk.plan.items|
    {
      desk.plan.items[k].destination in d.names <==> desk.plan.items[k].destination in e.names
    }

    // -------------------------------------------------------------- checks, which only read

    method RevalidateSource(k: nat) returns (r: Outcome)
      requires desk.Ready(k)
      modifies desk.machine`tick
      ensures desk.Turned(k, r)
      ensures r == Done ==> SourceHere(desk.machine.world.disk, desk.plan.items[k])
      ensures SourceHere(desk.machine.world.disk, desk.plan.items[k]) ==> r in {Done, Killed, Raised(Io)}
      ensures r in {Done, Killed, Raised(Io), Raised(StaleSource)}
    {
      hide Desk.Valid, Desk.Promised, Inv, Carries;
      :- desk.Probe(k);
      if !SourceHere(desk.machine.world.disk, desk.plan.items[k]) { return Raised(StaleSource); }
      return Done;
    }

    method Verify(k: nat, p: Path) returns (r: Outcome)
      requires desk.Ready(k)
      modifies desk.machine`tick
      ensures desk.Turned(k, r)
      ensures r == Done ==> Passes(desk.plan, desk.machine.world.disk, desk.plan.items[k], p)
      ensures Passes(desk.plan, desk.machine.world.disk, desk.plan.items[k], p) ==> r in {Done, Killed, Raised(Io)}
      ensures r in {Done, Killed, Raised(Io), Raised(Invalid)}
    {
      hide Desk.Valid, Desk.Promised, Inv, Carries;
      :- desk.Probe(k);
      if !Passes(desk.plan, desk.machine.world.disk, desk.plan.items[k], p) { return Raised(Invalid); }
      return Done;
    }

    method VerifyCommitted(k: nat) returns (r: Outcome)
      requires desk.Ready(k)
      modifies desk.machine`tick
      ensures desk.Turned(k, r)
      ensures r == Done ==>
                CommittedAsSealed(desk.plan, desk.machine.world.disk, desk.plan.items[k],
                          desk.machine.world.book.rows[k])
      ensures CommittedAsSealed(desk.plan, desk.machine.world.disk, desk.plan.items[k],
                desk.machine.world.book.rows[k]) ==>
                r in {Done, Killed, Raised(Io)}
      ensures r in {Done, Killed, Raised(Io), Raised(Invalid)}
    {
      hide Desk.Valid, Desk.Promised, Inv, Carries;
      desk.Facts(k);
      var d, it, row := desk.machine.world.disk, desk.plan.items[k], desk.machine.world.book.rows[k];
      :- desk.Probe(k);
      if it.destination !in d.names { return Raised(Invalid); }
      var content := Content(d, it.destination);
      if row.stagedSize != Some(|content|) { return Raised(Invalid); }
      if row.stagedHash != Some(Hash(content)) { return Raised(Invalid); }
      if d.files[d.names[it.destination]].mode != it.mode { return Raised(Invalid); }
      r := Verify(k, it.destination);
    }

    method CheckArchive(k: nat) returns (r: Outcome)
      requires desk.Ready(k)
      modifies desk.machine`tick
      ensures desk.Turned(k, r)
      ensures r == Done ==> ArchiveHolds(desk.machine.world.disk, desk.plan.items[k])
      ensures ArchiveHolds(desk.machine.world.disk, desk.plan.items[k]) ==> r in {Done, Killed, Raised(Io)}
      ensures r in {Done, Killed, Raised(Io), Raised(Invalid)}
    {
      hide Desk.Valid, Desk.Promised, Inv, Carries;
      :- desk.Probe(k);
      if !ArchiveHolds(desk.machine.world.disk, desk.plan.items[k]) { return Raised(Invalid); }
      return Done;
    }

    /** Make a directory that the item needs; its files and its standing against power losses stay. */
    method NeedFolder(k: nat, g: Dir) returns (r: Outcome)
      requires desk.Ready(k) && g in {StageDir(desk.plan, k), desk.plan.items[k].destination.dir}
      modifies desk.machine`tick, desk.machine`world, desk.machine`trace
      ensures Ended(k, r) || (desk.Turned(k, r) && r == Raised(Invalid))
      ensures r in {Done, Killed, Raised(Io), Raised(Invalid)} && (desk.Assured(k) ==> r in {Done, Killed})
      ensures desk.machine.world.book == old(desk.machine.world.book)
      ensures FilesAlike(old(desk.machine.world.disk), desk.machine.world.disk)
      ensures r == Done ==> g in desk.machine.world.disk.folders
      ensures r == Done && old(Firm(desk.plan, desk.machine.world.disk, k)) ==>
                Firm(desk.plan, desk.machine.world.disk, k)
      ensures r == Done && desk.plan.items[k].destination !in old(desk.machine.world.disk.names) ==> desk.Carried(k)
    {
      hide Desk.Valid, Desk.Promised, Inv, Carries, RowInv;
      desk.Facts(k);
      ghost var w := desk.machine.world;
      r := desk.EnsureFolder(k, g);
      desk.Facts(k);
      AlikeKept(desk.plan, w.disk, desk.machine.world.disk, k);
    }

    // -------------------------------------------------------------- execution

    method ExecuteItem(k: nat) returns (r: Outcome)
      requires desk.Ready(k) && desk.State(k) == PreflightOk
      requires desk.plan.items[k].destination !in desk.machine.world.disk.names ==> desk.Poised(k)
      modifies desk.machine`tick, desk.machine`world, desk.machine`trace
      ensures Ended(k, r)
      ensures r == Done ==> desk.State(k) == Complete
    {
      hide Desk.Valid, Desk.Promised, Inv, Carries, Holds, Shaped, InTurn;
      desk.Facts(k);
      :- RevalidateSource(k);
      :- NeedFolder(k, StageDir(desk.plan, k));
      r := StageAndCommit(k);
    }

    /** Stage the output under a new name and see it through. */
    method StageAndCommit(k: nat) returns (r: Outcome)
      requires desk.Ready(k) && desk.State(k) in {PreflightOk, Failed}
      requires StageDir(desk.plan, k) in desk.machine.world.disk.folders
      requires SourceHere(desk.machine.world.disk, desk.plan.items[k])
      requires desk.plan.items[k].destination !in desk.machine.world.disk.names ==> desk.Poised(k)
      modifies desk.machine`tick, desk.machine`world, desk.machine`trace
      ensures Ended(k, r)
      ensures r == Done ==> desk.State(k) == Complete
      ensures desk.State(k) == Complete ==> NewStage(old(desk.machine.world), desk.machine.world, k)
    {
      hide Desk.Valid, Desk.Promised, Inv, Carries, InTurn, RowInv, OnTrack, WellFormed, Holds, Shaped, SoundWriters,
        Firm;
      :- StageOutput(k);
      r := VerifyAndCommit(k);
    }

    /** Record a fresh staging name, let the writer fill it, and check what it says of its own output. */
    method StageOutput(k: nat) returns (r: Outcome)
      requires desk.Ready(k) && desk.State(k) in {PreflightOk, Failed}
      requires StageDir(desk.plan, k) in desk.machine.world.disk.folders
      requires SourceHere(desk.machine.world.disk, desk.plan.items[k])
      modifies desk.machine`tick, desk.machine`world, desk.machine`trace
      ensures Ended(k, r)
      ensures r == Done ==> desk.State(k) == Staged && desk.StageThere(k)
      ensures r == Done ==> SourceHere(desk.machine.world.disk, desk.plan.items[k])
      ensures r == Done ==> desk.Carried(k)
      ensures r == Done ==> SameThere(old(desk.machine.world.disk), desk.machine.world.disk, k)
      ensures desk.State(k) == Complete ==> NewStage(old(desk.machine.world), desk.machine.world, k)
      ensures r == Done ==> NewStage(old(desk.machine.world), desk.machine.world, k)
    {
      hide Desk.Valid, Desk.Promised, Inv, Carries, WellFormed, RowInv, InTurn, Hopeful;
      desk.Facts(k);
      var staging := Entry(StageDir(desk.plan, k), Random(desk.machine.world.supply));
      FreshUnused(desk.plan, desk.machine.world, staging);
      :- desk.Transition(k, Staging, SetStaging(staging));
      r := FillStage(k);
    }

    method FillStage(k: nat) returns (r: Outcome)
      requires desk.Ready(k) && desk.State(k) == Staging && StageDir(desk.plan, k) in desk.machine.world.disk.folders
      requires desk.machine.world.book.rows[k].staging.Some? && !desk.StageThere(k)
      requires SourceHere(desk.machine.world.disk, desk.plan.items[k])
      modifies desk.machine`tick, desk.machine`world, desk.machine`trace
      ensures Ended(k, r)
      ensures r == Done ==> desk.State(k) == Staged && desk.StageThere(k)
      ensures r == Done ==> SourceHere(desk.machine.world.disk, desk.plan.items[k])
      ensures r == Done ==> desk.Carried(k)
      ensures r == Done ==> SameThere(old(desk.machine.world.disk), desk.machine.world.disk, k)
      ensures SameStage(old(desk.machine.world), desk.machine.world, k) && desk.State(k) in {Staging, Staged}
    {
      hide Desk.Valid, Desk.Promised, Inv, Carries, RowInv, Firm, Above, TreeFormed, WellFormed, Durable, Rooted,
        Secured, Steady, NonePending, FirmFrom;
      desk.Facts(k);
      ghost var w := desk.machine.world;
      var it := desk.plan.items[k];
      var staging := desk.machine.world.book.rows[k].staging.value;
      var content := desk.plan.writers.stage(it, Content(desk.machine.world.disk, it.source));
      :- desk.WriteStage(k, content);
      OwnKept(desk.plan, w, desk.machine.world, k, staging, staging);
      :- Verify(k, staging);
      r := RecordStaged(k);
    }

    method RecordStaged(k: nat) returns (r: Outcome)
      requires desk.Ready(k) && desk.State(k) == Staging && desk.StageThere(k)
      requires desk.mode.orderly ==> StagedOutput(desk.plan, desk.machine.world, k)
      modifies desk.machine`tick, desk.machine`world, desk.machine`trace
      ensures Ended(k, r) && desk.machine.world.disk == old(desk.machine.world.disk)
      ensures SameStage(old(desk.machine.world), desk.machine.world, k) && desk.State(k) in {Staging, Staged}
      ensures r == Done ==> desk.State(k) == Staged
    {
      hide Desk.Valid, Desk.Promised, Inv, Carries, RowInv, OnTrack, InTurn;
      r := desk.Transition(k, Staged, NoFields);
    }

    method VerifyAndCommit(k: nat) returns (r: Outcome)
      requires desk.Ready(k) && desk.State(k) == Staged && desk.StageThere(k)
      requires SourceHere(desk.machine.world.disk, desk.plan.items[k])
      requires desk.plan.items[k].destination !in desk.machine.world.disk.names ==> desk.Poised(k)
      modifies desk.machine`tick, desk.machine`world, desk.machine`trace
      ensures Ended(k, r)
      ensures r == Done ==> desk.State(k) == Complete
      ensures SameStage(old(desk.machine.world), desk.machine.world, k)
    {
      hide Desk.Valid, Desk.Promised, Inv, Carries;
      :- SealStage(k);
      r := CommitVerified(k);
    }

    /** Verify the staged file, give it its final mode, make it durable, and record its digest. */
    method SealStage(k: nat) returns (r: Outcome)
      requires desk.Ready(k) && desk.State(k) == Staged && desk.StageThere(k)
      requires SourceHere(desk.machine.world.disk, desk.plan.items[k])
      modifies desk.machine`tick, desk.machine`world, desk.machine`trace
      ensures Ended(k, r)
      ensures r == Done ==> desk.State(k) == Verified && desk.StageThere(k)
      ensures r == Done ==> desk.Carried(k)
      ensures r == Done ==> SameThere(old(desk.machine.world.disk), desk.machine.world.disk, k)
      ensures SameStage(old(desk.machine.world), desk.machine.world, k)
    {
      hide Desk.Valid, Desk.Promised, Inv, Carries, TreeFormed, Secured, InTurn;
      desk.Facts(k);
      ghost var w := desk.machine.world;
      var staging := desk.machine.world.book.rows[k].staging.value;
      :- Verify(k, staging);
      :- desk.SetStageMode(k);
      OwnKept(desk.plan, w, desk.machine.world, k, staging, staging);
      desk.Facts(k);
      r := FlushStage(k);
    }

    /** The stage is verified and has its final mode. */
    method FlushStage(k: nat) returns (r: Outcome)
      requires desk.Ready(k) && desk.State(k) == Staged && desk.StageThere(k)
      requires var d, it := desk.machine.world.disk, desk.plan.items[k];
               var staging := desk.machine.world.book.rows[k].staging.value;
               WellFormed(d) && SourceHere(d, it) && Passes(desk.plan, d, it, staging) && ModeOf(d, staging) == it.mode
      modifies desk.machine`tick, desk.machine`world, desk.machine`trace
      ensures Ended(k, r)
      ensures r == Done ==> desk.State(k) == Verified && desk.StageThere(k)
      ensures r == Done ==> desk.Carried(k)
      ensures r == Done ==> SameThere(old(desk.machine.world.disk), desk.machine.world.disk, k)
      ensures SameStage(old(desk.machine.world), desk.machine.world, k)
    {
      hide Desk.Valid, Desk.Promised, Inv, Carries, TreeFormed, Secured, InTurn;
      desk.Facts(k);
      ghost var v := desk.machine.world;
      var staging := desk.machine.world.book.rows[k].staging.value;
      :- desk.MakeStageDurable(k);
      OwnKept(desk.plan, v, desk.machine.world, k, staging, staging);
      r := RecordEvidence(k);
    }

    method RecordEvidence(k: nat) returns (r: Outcome)
      requires desk.Ready(k) && desk.State(k) == Staged && desk.StageThere(k)
      requires var d, it := desk.machine.world.disk, desk.plan.items[k];
               var staging := desk.machine.world.book.rows[k].staging.value;
               && SourceHere(d, it)
               && Passes(desk.plan, d, it, staging)
               && Secured(d, staging)
               && ModeOf(d, staging) == it.mode
      modifies desk.machine`tick, desk.machine`world, desk.machine`trace
      ensures Ended(k, r) && desk.machine.world.disk == old(desk.machine.world.disk)
      ensures r == Done ==> desk.State(k) == Verified && desk.StageThere(k)
      ensures SameStage(old(desk.machine.world), desk.machine.world, k)
    {
      hide Desk.Valid, Desk.Promised, Inv, Carries;
      desk.Facts(k);
      :- desk.Probe(k);
      var content := Content(desk.machine.world.disk, desk.machine.world.book.rows[k].staging.value);
      r := desk.Transition(k, Verified, SetEvidence(Hash(content), |content|));
    }

    method CommitVerified(k: nat) returns (r: Outcome)
      requires desk.Ready(k) && desk.State(k) == Verified && desk.StageThere(k)
      requires desk.plan.items[k].destination !in desk.machine.world.disk.names ==> desk.Poised(k)
      modifies desk.machine`tick, desk.machine`world, desk.machine`trace
      ensures Ended(k, r)
      ensures r == Done ==> desk.State(k) == Complete
      ensures SameStage(old(desk.machine.world), desk.machine.world, k)
      ensures r == Done ==> old(SourceHere(desk.machine.world.disk, desk.plan.items[k]))
    {
      hide Desk.Valid, Desk.Promised, Inv, Carries, Above, WellFormed, Holds, Rooted, Fast, OutputHeld, Evidence,
        RowShape, RowInv, Same, Firm, SoundWriters, StageGone, CleanupInProgress, Reliable;
      desk.Facts(k);
      :- RevalidateSource(k);
      if desk.plan.items[k].destination in desk.machine.world.disk.names { return Raised(DestinationExists); }
      :- NeedFolder(k, desk.plan.items[k].destination.dir);
      :- RecordCommitting(k);
      r := PublishAndFinish(k);
    }

    method RecordCommitting(k: nat) returns (r: Outcome)
      requires desk.Ready(k) && desk.State(k) == Verified && SourceHere(desk.machine.world.disk, desk.plan.items[k])
      requires desk.plan.items[k].destination !in desk.machine.world.disk.names
      requires desk.plan.items[k].destination.dir in desk.machine.world.disk.folders
      modifies desk.machine`tick, desk.machine`world, desk.machine`trace
      ensures Ended(k, r) && desk.machine.world.disk == old(desk.machine.world.disk)
      ensures SameStage(old(desk.machine.world), desk.machine.world, k)
      ensures r == Done ==> desk.State(k) == Committing
    {
      hide Desk.Valid, Desk.Promised, Inv, Carries, RowInv, OnTrack, InTurn;
      r := desk.Transition(k, Committing, NoFields);
    }

    /** Link the output, check what was linked, record it and finish the lifecycle. */
    method PublishAndFinish(k: nat) returns (r: Outcome)
      requires desk.Ready(k) && desk.State(k) == Committing && desk.StageThere(k)
      requires desk.plan.items[k].destination !in desk.machine.world.disk.names
      requires desk.Poised(k)
      modifies desk.machine`tick, desk.machine`world, desk.machine`trace
      ensures Ended(k, r)
      ensures r == Done ==> desk.State(k) == Complete
      ensures SameStage(old(desk.machine.world), desk.machine.world, k)
    {
      hide Desk.Valid, Desk.Promised, Inv, Carries, RowInv, Firm, CommittedAsSealed, OnTrack, Landed, OnlyAt,
        SoundWriters, TreeFormed, Shaped, PreflightOkFor, Exclusive, RowShape, InTurn, Passes;
      desk.Facts(k);
      ghost var w := desk.machine.world;
      :- desk.Publish(k);
      desk.Facts(k);
      if desk.mode.orderly { LandedOnTrack(desk.plan, w, desk.machine.world, k); }
      :- VerifyCommitted(k);
      :- RecordCommitted(k);
      r := FinishLifecycle(k);
    }

    method RecordCommitted(k: nat) returns (r: Outcome)
      requires desk.Ready(k) && desk.State(k) == Committing
      requires CommittedAsSealed(desk.plan, desk.machine.world.disk, desk.plan.items[k],
                desk.machine.world.book.rows[k])
      modifies desk.machine`tick, desk.machine`world, desk.machine`trace
      ensures Ended(k, r) && desk.machine.world.disk == old(desk.machine.world.disk)
      ensures r == Done ==>
        && desk.State(k) == Committed && desk.StageThere(k) == old(desk.StageThere(k))
        && OutputHeld(desk.machine.world.disk, desk.plan.items[k], desk.machine.world.book.rows[k])
      ensures Retained(desk.plan, old(desk.machine.world), desk.machine.world, k)
    {
      hide Desk.Valid, Desk.Promised, Inv, Carries;
      r := desk.Transition(k, Committed, SetDestinationHash(desk.machine.world.book.rows[k].stagedHash.value));
    }

    method FinishLifecycle(k: nat) returns (r: Outcome)
      requires desk.Ready(k) && desk.State(k) == Committed && !desk.StageThere(k)
      requires OutputHeld(desk.machine.world.disk, desk.plan.items[k], desk.machine.world.book.rows[k])
      requires desk.Poised(k)
      modifies desk.machine`tick, desk.machine`world, desk.machine`trace
      ensures Ended(k, r)
      ensures r == Done ==> desk.State(k) == Complete
      ensures Retained(desk.plan, old(desk.machine.world), desk.machine.world, k)
    {
      hide Desk.Valid, Desk.Promised, Inv, Carries, RowInv, Firm, TreeFormed, WellFormed, Holds, Exclusive, InTurn,
        Retained, Same;
      desk.Facts(k);
      ghost var w := desk.machine.world;
      RetainedHere(desk.plan, w, k);
      var it := desk.plan.items[k];
      if it.lifecycle.Preserve? {
        r := RecordComplete(k);
        return;
      }
      :- desk.Transition(k, CleanupPending, NoFields);
      RetainedOn(desk.plan, w, desk.machine.world, k);
      r := CleanUp(k);
    }

    /** Archive the source if that is planned, then remove it. */
    method CleanUp(k: nat) returns (r: Outcome)
      requires desk.Ready(k) && desk.State(k) == CleanupPending && !desk.StageThere(k)
      requires OutputHeld(desk.machine.world.disk, desk.plan.items[k], desk.machine.world.book.rows[k])
      requires !desk.plan.items[k].lifecycle.Preserve?
      requires desk.mode.orderly ==> SourceHere(desk.machine.world.disk, desk.plan.items[k])
      requires desk.mode.orderly ==> ArchiveAbsent(desk.machine.world.disk, desk.plan.items[k])
      requires desk.Poised(k)
      modifies desk.machine`tick, desk.machine`world, desk.machine`trace
      ensures Ended(k, r)
      ensures r == Done ==> desk.State(k) == Complete
      ensures Retained(desk.plan, old(desk.machine.world), desk.machine.world, k)
    {
      hide Desk.Valid, Desk.Promised, Inv, Carries, RowInv, Firm, TreeFormed, WellFormed, Holds, Exclusive, InTurn,
        Retained, Same, OnTrack, OutputHeld;
      desk.Facts(k);
      ghost var w := desk.machine.world;
      RetainedHere(desk.plan, w, k);
      var it := desk.plan.items[k];
      :- RevalidateSource(k);
      var cleanup: Option<Path> := None;
      if it.lifecycle.ArchiveAfterVerify? {
        :- ArchiveSource(k);
        RetainedOn(desk.plan, w, desk.machine.world, k);
        :- CheckArchive(k);
        cleanup := Some(it.lifecycle.archive);
      }
      r := RemoveAndComplete(k, SetCleanup(cleanup));
    }

    method ArchiveSource(k: nat) returns (r: Outcome)
      requires desk.Ready(k) && desk.State(k) == CleanupPending && !desk.StageThere(k)
      requires desk.plan.items[k].lifecycle.ArchiveAfterVerify?
      requires OutputHeld(desk.machine.world.disk, desk.plan.items[k], desk.machine.world.book.rows[k])
      requires SourceHere(desk.machine.world.disk, desk.plan.items[k])
      requires desk.mode.orderly ==> desk.plan.items[k].lifecycle.archive !in desk.machine.world.disk.names
      modifies desk.machine`tick, desk.machine`world, desk.machine`trace
      ensures Ended(k, r)
      ensures desk.machine.world.book == old(desk.machine.world.book)
      ensures SourceHere(desk.machine.world.disk, desk.plan.items[k])
      ensures OutputHeld(desk.machine.world.disk, desk.plan.items[k], desk.machine.world.book.rows[k])
      ensures r == Done ==> ArchiveHolds(desk.machine.world.disk, desk.plan.items[k]) && !desk.StageThere(k)
      ensures r == Done ==> desk.Carried(k)
      ensures Retained(desk.plan, old(desk.machine.world), desk.machine.world, k)
    {
      hide Desk.Valid, Desk.Promised, Inv, Carries, Retained;
      desk.Facts(k);
      ghost var w := desk.machine.world;
      ghost var it := desk.plan.items[k];
      OwnPaths(desk.plan, w, k);
      r := desk.CopyArchive(k);
      RetainedAt(desk.plan, w, desk.machine.world, k, CopyTemp(w, it.lifecycle.archive), it.lifecycle.archive);
      OwnKept(desk.plan, w, desk.machine.world, k, CopyTemp(w, it.lifecycle.archive), it.lifecycle.archive);
      assert Same(w.disk, desk.machine.world.disk, it.destination);
    }

    /** Remove the source, then record that the item is cleaned up and complete. */
    method RemoveAndComplete(k: nat, fields: Fields) returns (r: Outcome)
      requires desk.Ready(k) && MayRemoveSource(desk.plan, desk.machine.world, k) && !desk.StageThere(k)
      requires fields.NoFields? || fields.SetCleanup?
      requires desk.Poised(k)
      modifies desk.machine`tick, desk.machine`world, desk.machine`trace
      ensures Ended(k, r)
      ensures r == Done ==> desk.State(k) == Complete
      ensures Retained(desk.plan, old(desk.machine.world), desk.machine.world, k)
    {
      hide Desk.Valid, Desk.Promised, Inv, Carries, Retained, Same, WellFormed, InTurn, RowInv, Finished, OnTrack;
      desk.Facts(k);
      ghost var w := desk.machine.world;
      ghost var it := desk.plan.items[k];
      OwnPaths(desk.plan, w, k);
      r := desk.RemoveSource(k);
      RetainedAt(desk.plan, w, desk.machine.world, k, it.source, it.source);
      if r != Done { return; }
      OwnKept(desk.plan, w, desk.machine.world, k, it.source, it.source);
      RetainedOn(desk.plan, w, desk.machine.world, k);
      r := CompleteCleaned(k, fields);
    }

    method CompleteCleaned(k: nat, fields: Fields) returns (r: Outcome)
      requires desk.Ready(k) && desk.State(k) == CleanupPending && (fields.NoFields? || fields.SetCleanup?)
      requires !desk.StageThere(k)
      requires desk.plan.items[k].source !in desk.machine.world.disk.names
      requires OutputHeld(desk.machine.world.disk, desk.plan.items[k], desk.machine.world.book.rows[k])
      requires ArchiveHolds(desk.machine.world.disk, desk.plan.items[k])
      modifies desk.machine`tick, desk.machine`world, desk.machine`trace
      ensures Ended(k, r)
      ensures r == Done ==> desk.State(k) == Complete
      ensures Retained(desk.plan, old(desk.machine.world), desk.machine.world, k)
    {
      hide Desk.Valid, Desk.Promised, Inv, Carries, Retained, OutputHeld, ArchiveHolds;
      RetainedHere(desk.plan, desk.machine.world, k);
      :- RecordCleaned(k, fields);
      r := RecordComplete(k);
    }

    method RecordCleaned(k: nat, fields: Fields) returns (r: Outcome)
      requires desk.Ready(k) && desk.State(k) == CleanupPending && (fields.NoFields? || fields.SetCleanup?)
      requires !desk.StageThere(k)
      requires desk.plan.items[k].source !in desk.machine.world.disk.names
      requires OutputHeld(desk.machine.world.disk, desk.plan.items[k], desk.machine.world.book.rows[k])
      requires ArchiveHolds(desk.machine.world.disk, desk.plan.items[k])
      modifies desk.machine`tick, desk.machine`world, desk.machine`trace
      ensures Ended(k, r) && desk.machine.world.disk == old(desk.machine.world.disk)
      ensures SameStage(old(desk.machine.world), desk.machine.world, k)
      ensures r == Done ==> desk.State(k) == Cleaned
    {
      hide Desk.Valid, Desk.Promised, Inv, Carries, RowInv, Finished, OutputHeld, ArchiveHolds, OnTrack, InTurn;
      r := desk.Transition(k, Cleaned, fields);
    }

    /** The item is finished. */
    method RecordComplete(k: nat) returns (r: Outcome)
      requires desk.Ready(k) && !desk.StageThere(k)
      requires desk.State(k) == Cleaned || (desk.State(k) == Committed && desk.plan.items[k].lifecycle.Preserve?)
      modifies desk.machine`tick, desk.machine`world, desk.machine`trace
      ensures Ended(k, r) && desk.machine.world.disk == old(desk.machine.world.disk)
      ensures SameStage(old(desk.machine.world), desk.machine.world, k)
      ensures r == Done ==> desk.State(k) == Complete
    {
      hide Desk.Valid, Desk.Promised, Inv, Carries, RowInv, Finished, OnTrack, InTurn;
      r := desk.Transition(k, Complete, NoFields);
    }

    // -------------------------------------------------------------- recovery

    method RecoveryPreflight(k: nat) returns (r: Outcome)
      requires desk.Ready(k)
      modifies desk.machine`tick
      ensures Ended(k, r)
      ensures r == Done && BeforeCommit(desk.State(k)) ==> SourceHere(desk.machine.world.disk, desk.plan.items[k])
      ensures r == Done && BeforeCommit(desk.State(k)) && desk.State(k) != Verified ==>
                desk.plan.items[k].destination !in desk.machine.world.disk.names
      ensures r in {Raised(StaleSource), Raised(Invalid)} ==> BeforeCommit(desk.State(k))
      ensures r != Raised(DestinationExists)
      ensures Spoilt(k) && desk.mode.sure ==> r in {Killed, Raised(StaleSource)}
    {
      hide Desk.Valid, Desk.Promised, Inv, Carries;
      desk.Facts(k);
      :- desk.Probe(k);
      if BeforeCommit(desk.State(k)) {
        :- RevalidateSource(k);
        if desk.State(k) != Verified && desk.plan.items[k].destination in desk.machine.world.disk.names {
          return Raised(Invalid);
        }
      }
      return Done;
    }

    method RecoverItem(k: nat) returns (r: Outcome)
      requires desk.Ready(k)
      requires BeforeCommit(desk.State(k)) ==> SourceHere(desk.machine.world.disk, desk.plan.items[k])
      requires desk.Poised(k)
      modifies desk.machine`tick, desk.machine`world, desk.machine`trace
      ensures Ended(k, r)
      ensures r == Done ==>
                desk.State(k) in {Complete, Stale, RecoveryRequired} && (desk.Assured(k) ==> desk.State(k) == Complete)
      ensures old(NeedsHand(k)) ==> desk.machine.world.disk == old(desk.machine.world.disk)
      ensures old(desk.State(k)) == Pending ==>
                if r == Done then desk.State(k) == RecoveryRequired else desk.State(k) == Pending
      ensures old(desk.State(k)) == Complete ==>
                desk.machine.world == old(desk.machine.world) && desk.machine.trace == old(desk.machine.trace)
      ensures Heeded(desk.plan, old(desk.machine.world), desk.machine.world, k)
      ensures r == Done && desk.State(k) == Complete && old(desk.State(k) !in {CleanupPending, Cleaned, Complete}) ==>
                old(SourceHere(desk.machine.world.disk, desk.plan.items[k]))
    {
      hide Desk.Valid, Desk.Promised, Inv, Carries, TreeFormed, RowInv, InTurn;
      desk.Facts(k);
      var state := desk.State(k);
      if state in {Complete, Stale, RecoveryRequired} { return Done; }
      if state == Cleaned {
        r := FinishCleaned(k);
      } else if state in {Committed, CleanupPending} {
        r := RecoverCleanup(k);
      } else if state in {Verified, Committing} {
        r := RecoverVerified(k);
      } else if state == Staged {
        StagingRecorded(k);
        if !desk.StageThere(k) { r := ManualRecovery(k); } else { r := VerifyAndCommit(k); }
      } else {
        r := RetryItem(k);
      }
    }

    /** The source is gone as planned; only the last entry is missing. */
    method FinishCleaned(k: nat) returns (r: Outcome)
      requires desk.Ready(k) && desk.State(k) == Cleaned
      modifies desk.machine`tick, desk.machine`world, desk.machine`trace
      ensures Ended(k, r) && desk.machine.world.disk == old(desk.machine.world.disk)
      ensures r == Done ==> desk.State(k) == Complete
    {
      hide Desk.Valid, Desk.Promised, Inv, Carries, InTurn;
      desk.Facts(k);
      r := desk.Transition(k, Complete, NoFields);
    }

    lemma StagingRecorded(k: nat)
      requires desk.Ready(k) && HasStage(desk.State(k))
      ensures desk.machine.world.book.rows[k].staging.Some?
    {
      hide Desk.Valid;
      desk.Facts(k);
    }

    /** An item that has not been staged: give up an interrupted attempt and start a new one. */
    method RetryItem(k: nat) returns (r: Outcome)
      requires desk.Ready(k) && desk.State(k) in {Pending, PreflightOk, Staging, Failed}
      requires desk.Poised(k)
      modifies desk.machine`tick, desk.machine`world, desk.machine`trace
      ensures Ended(k, r)
      ensures r == Done ==>
                desk.State(k) in {Complete, RecoveryRequired} && (desk.Assured(k) ==> desk.State(k) == Complete)
      ensures old(desk.State(k) == Pending || desk.plan.items[k].destination in desk.machine.world.disk.names) ==>
                && desk.machine.world.disk == old(desk.machine.world.disk)
                && (r == Done ==> desk.State(k) == RecoveryRequired)
      ensures old(desk.State(k)) == Pending && r != Done ==> desk.State(k) == Pending
      ensures desk.State(k) == Complete ==> NewStage(old(desk.machine.world), desk.machine.world, k)
    {
      hide Desk.Valid, Desk.Promised, Inv, Carries, RowInv, Firm, Shaped;
      if desk.State(k) == Staging {
        :- desk.Transition(k, Failed, NoFields);
      }
      r := RetryUnstaged(k);
    }

    method RetryUnstaged(k: nat) returns (r: Outcome)
      requires desk.Ready(k) && desk.State(k) in {Pending, PreflightOk, Failed}
      requires desk.Poised(k)
      modifies desk.machine`tick, desk.machine`world, desk.machine`trace
      ensures Ended(k, r)
      ensures r == Done ==>
                desk.State(k) in {Complete, RecoveryRequired} && (desk.Assured(k) ==> desk.State(k) == Complete)
      ensures old(desk.State(k) == Pending || desk.plan.items[k].destination in desk.machine.world.disk.names) ==>
                && desk.machine.world.disk == old(desk.machine.world.disk)
                && (r == Done ==> desk.State(k) == RecoveryRequired)
      ensures old(desk.State(k)) == Pending && r != Done ==> desk.State(k) == Pending
      ensures desk.State(k) == Complete ==> NewStage(old(desk.machine.world), desk.machine.world, k)
    {
      hide Desk.Valid, Desk.Promised, Inv, Carries, RowInv, Firm, Shaped;
      desk.Facts(k);
      if desk.plan.items[k].destination in desk.machine.world.disk.names {
        r := ManualRecovery(k);
        return;
      }
      :- RevalidateSource(k);
      r := ExecuteFromFailedOrPreflight(k);
    }

    method ExecuteFromFailedOrPreflight(k: nat) returns (r: Outcome)
      requires desk.Ready(k) && SourceHere(desk.machine.world.disk, desk.plan.items[k])
      requires desk.Poised(k)
      requires desk.State(k) in {Pending, PreflightOk, Failed}
      modifies desk.machine`tick, desk.machine`world, desk.machine`trace
      ensures Ended(k, r)
      ensures r == Done ==> desk.State(k) == Complete
      ensures old(desk.State(k)) !in {Failed, PreflightOk} ==>
                r == Raised(Invalid) && desk.machine.world == old(desk.machine.world)
      ensures desk.State(k) == Complete ==> NewStage(old(desk.machine.world), desk.machine.world, k)
    {
      hide Desk.Valid, Desk.Promised, Inv, Carries, InTurn, RowInv, OnTrack, WellFormed, Holds, Shaped, SoundWriters,
        Firm;
      desk.Facts(k);
      if desk.State(k) !in {Failed, PreflightOk} { return Raised(Invalid); }
      :- NeedFolder(k, StageDir(desk.plan, k));
      r := StageAndCommit(k);
    }

    method RecoverVerified(k: nat) returns (r: Outcome)
      requires desk.Ready(k) && desk.State(k) in {Verified, Committing}
      requires desk.Poised(k)
      modifies desk.machine`tick, desk.machine`world, desk.machine`trace
      ensures Ended(k, r)
      ensures r == Done ==>
                desk.State(k) in {Complete, RecoveryRequired} && (desk.Assured(k) ==> desk.State(k) == Complete)
      ensures old(NeedsHand(k)) ==> desk.machine.world.disk == old(desk.machine.world.disk)
      ensures SameStage(old(desk.machine.world), desk.machine.world, k)
      ensures old(desk.plan.items[k].destination in desk.machine.world.disk.names) ==>
                Retained(desk.plan, old(desk.machine.world), desk.machine.world, k)
      ensures r == Done && desk.State(k) == Complete ==> old(SourceHere(desk.machine.world.disk, desk.plan.items[k]))
    {
      hide Desk.Valid, Desk.Promised, Inv, Carries, WellFormed, Shaped, SourceHere, Exclusive, RowShape, SoundWriters,
        NonePending, InTurn;
      desk.Facts(k);
      if desk.plan.items[k].destination in desk.machine.world.disk.names {
        if desk.State(k) != Committing {
          r := ManualRecovery(k);
        } else {
          r := RecognizeCommit(k);
        }
        return;
      }
      if !StageAsSealed(desk.machine.world.disk, desk.machine.world.book.rows[k]) {
        r := ManualRecovery(k);
        return;
      }
      :- RevalidateSource(k);
      if desk.State(k) == Verified {
        r := CommitVerified(k);
      } else {
        r := PublishAndFinish(k);
      }
    }

    /** The destination was linked before the crash: check it, then carry on where the crash struck. */
    method RecognizeCommit(k: nat) returns (r: Outcome)
      requires desk.Ready(k) && desk.State(k) == Committing
      requires desk.plan.items[k].destination in desk.machine.world.disk.names
      requires desk.Poised(k)
      modifies desk.machine`tick, desk.machine`world, desk.machine`trace
      ensures Ended(k, r)
      ensures r == Done ==>
                desk.State(k) in {Complete, RecoveryRequired} && (desk.Assured(k) ==> desk.State(k) == Complete)
      ensures old(NeedsHand(k)) ==> desk.machine.world.disk == old(desk.machine.world.disk)
      ensures Retained(desk.plan, old(desk.machine.world), desk.machine.world, k)
      ensures r == Done && desk.State(k) == Complete ==> old(SourceHere(desk.machine.world.disk, desk.plan.items[k]))
    {
      hide Desk.Valid, Desk.Promised, Inv, Carries, RowInv, OnTrack, Firm, CommittedAsSealed, SoundWriters, Fast,
        Retained, Same;
      desk.Facts(k);
      RetainedHere(desk.plan, desk.machine.world, k);
      CommittingFacts(desk.plan, desk.machine.world, k);
      var it, expected := desk.plan.items[k], desk.machine.world.book.rows[k].stagedHash;
      :- desk.Probe(k);
      if expected != Some(Hash(Content(desk.machine.world.disk, it.destination))) {
        r := ManualRecovery(k);
        return;
      }
      r := AcceptCommit(k);
    }

    /** Check what was linked once more, record it and finish the lifecycle. */
    method AcceptCommit(k: nat) returns (r: Outcome)
      requires desk.Ready(k) && desk.State(k) == Committing
      requires desk.mode.orderly ==> SourceHere(desk.machine.world.disk, desk.plan.items[k])
      requires desk.mode.orderly ==>
        CommittedAsSealed(desk.plan, desk.machine.world.disk, desk.plan.items[k], desk.machine.world.book.rows[k])
      requires desk.Poised(k)
      modifies desk.machine`tick, desk.machine`world, desk.machine`trace
      ensures Ended(k, r)
      ensures r == Done ==> desk.State(k) == Complete
      ensures Retained(desk.plan, old(desk.machine.world), desk.machine.world, k)
      ensures r == Done ==> old(SourceHere(desk.machine.world.disk, desk.plan.items[k]))
    {
      hide Desk.Valid, Desk.Promised, Inv, Carries, RowInv, OnTrack, Firm, CommittedAsSealed, SoundWriters, Fast,
        Retained, Same, WellFormed;
      desk.Facts(k);
      ghost var w := desk.machine.world;
      RetainedHere(desk.plan, w, k);
      :- RevalidateSource(k);
      :- VerifyCommitted(k);
      :- RecordCommitted(k);
      RetainedOn(desk.plan, w, desk.machine.world, k);
      :- RemoveSurvivingStage(k);
      RetainedOn(desk.plan, w, desk.machine.world, k);
      r := FinishLifecycle(k);
    }

    method RecoverCleanup(k: nat) returns (r: Outcome)
      requires desk.Ready(k) && desk.State(k) in {Committed, CleanupPending}
      requires desk.Poised(k)
      modifies desk.machine`tick, desk.machine`world, desk.machine`trace
      ensures Ended(k, r)
      ensures r == Done ==>
                desk.State(k) in {Complete, RecoveryRequired} && (desk.Assured(k) ==> desk.State(k) == Complete)
      ensures old(NeedsHand(k)) ==> desk.machine.world.disk == old(desk.machine.world.disk)
      ensures Retained(desk.plan, old(desk.machine.world), desk.machine.world, k)
      ensures r == Done && desk.State(k) == Complete && old(desk.State(k) !in {CleanupPending, Cleaned, Complete}) ==>
                old(SourceHere(desk.machine.world.disk, desk.plan.items[k]))
    {
      hide Desk.Valid, Desk.Promised, Inv, Carries, Holds, NonePending, InTurn, Retained, Same, WellFormed,
        SourceHere, OnTrack, RowInv, OutputHeld;
      desk.Facts(k);
      ghost var w := desk.machine.world;
      RetainedHere(desk.plan, w, k);
      CleanupFacts(desk.plan, w, k);
      var it, row := desk.plan.items[k], desk.machine.world.book.rows[k];
      :- desk.Probe(k);
      if Expected(row).None? || !Holds(desk.machine.world.disk, it.destination, Expected(row).value.of) {
        r := ManualRecovery(k);
        return;
      }
      :- RemoveSurvivingStage(k);
      RetainedOn(desk.plan, w, desk.machine.world, k);
      r := ResumeLifecycle(k);
    }

    method ResumeLifecycle(k: nat) returns (r: Outcome)
      requires desk.Ready(k) && desk.State(k) in {Committed, CleanupPending} && !desk.StageThere(k)
      requires OutputHeld(desk.machine.world.disk, desk.plan.items[k], desk.machine.world.book.rows[k])
      requires desk.Poised(k)
      modifies desk.machine`tick, desk.machine`world, desk.machine`trace
      ensures Ended(k, r)
      ensures r == Done ==>
                desk.State(k) in {Complete, RecoveryRequired} && (desk.Assured(k) ==> desk.State(k) == Complete)
      ensures old(desk.State(k) == Committed && !SourceHere(desk.machine.world.disk, desk.plan.items[k])) ==>
                && desk.machine.world.disk == old(desk.machine.world.disk)
                && (r == Done ==> desk.State(k) == RecoveryRequired)
      ensures Retained(desk.plan, old(desk.machine.world), desk.machine.world, k)
      ensures r == Done && desk.State(k) == Complete && old(desk.State(k) !in {CleanupPending, Cleaned, Complete}) ==>
                old(SourceHere(desk.machine.world.disk, desk.plan.items[k]))
    {
      hide Desk.Valid, Desk.Promised, Inv, Carries, WellFormed, Holds, Walk, Shaped, Separated, OutputHeld, Exclusive,
        Firm, SoundWriters, NonePending, InTurn, BadArchive, Retained, Same;
      desk.Facts(k);
      RetainedHere(desk.plan, desk.machine.world, k);
      var it := desk.plan.items[k];
      if desk.State(k) == Committed {
        if !SourceHere(desk.machine.world.disk, it) {
          r := ManualRecovery(k);
        } else {
          r := FinishLifecycle(k);
        }
      } else if it.lifecycle.MoveAfterVerify? {
        if it.source in desk.machine.world.disk.names {
          :- RevalidateSource(k);
          r := RemoveAndComplete(k, NoFields);
        } else {
          r := CompleteCleaned(k, NoFields);
        }
      } else {
        r := RecoverArchiveCleanup(k);
      }
    }

    method RemoveSurvivingStage(k: nat) returns (r: Outcome)
      requires desk.Ready(k) && desk.State(k) in {Committed, CleanupPending}
      requires OutputHeld(desk.machine.world.disk, desk.plan.items[k], desk.machine.world.book.rows[k])
      requires desk.Poised(k)
      modifies desk.machine`tick, desk.machine`world, desk.machine`trace
      ensures Ended(k, r)
      ensures desk.machine.world.book == old(desk.machine.world.book)
      ensures OutputHeld(desk.machine.world.disk, desk.plan.items[k], desk.machine.world.book.rows[k])
      ensures desk.Carried(k)
      ensures r == Done ==> !desk.StageThere(k)
      ensures Retained(desk.plan, old(desk.machine.world), desk.machine.world, k)
      ensures SourceHere(desk.machine.world.disk, desk.plan.items[k]) ==
                old(SourceHere(desk.machine.world.disk, desk.plan.items[k]))
    {
      hide Desk.Valid, Desk.Promised, Inv, Carries, WellFormed, RowInv, InTurn, Retained;
      desk.Facts(k);
      RetainedHere(desk.plan, desk.machine.world, k);
      var it, row := desk.plan.items[k], desk.machine.world.book.rows[k];
      if !desk.StageThere(k) { return Done; }
      :- desk.Probe(k);
      var staging, d := row.staging.value, desk.machine.world.disk;
      if Some(Hash(Content(d, staging))) != row.stagedHash || d.names[staging] != d.names[it.destination] {
        return Raised(Invalid);
      }
      ghost var w := desk.machine.world;
      OwnPaths(desk.plan, w, k);
      r := desk.DropStage(k);
      RetainedAt(desk.plan, w, desk.machine.world, k, staging, staging);
      OwnKept(desk.plan, w, desk.machine.world, k, staging, staging);
    }

    method RecoverArchiveCleanup(k: nat) returns (r: Outcome)
      requires desk.Ready(k) && desk.State(k) == CleanupPending && !desk.StageThere(k)
      requires desk.plan.items[k].lifecycle.ArchiveAfterVerify?
      requires OutputHeld(desk.machine.world.disk, desk.plan.items[k], desk.machine.world.book.rows[k])
      requires desk.Poised(k)
      modifies desk.machine`tick, desk.machine`world, desk.machine`trace
      ensures Ended(k, r)
      ensures r == Done ==>
                desk.State(k) in {Complete, RecoveryRequired} && (desk.Assured(k) ==> desk.State(k) == Complete)
      ensures old(BadArchive(desk.machine.world.disk, desk.plan.items[k])) ==>
                && desk.machine.world.disk == old(desk.machine.world.disk)
                && (r == Done ==> desk.State(k) == RecoveryRequired)
      ensures Retained(desk.plan, old(desk.machine.world), desk.machine.world, k)
    {
      hide Desk.Valid, Desk.Promised, Inv, Carries, TreeFormed, SealedRow, RowShape, RowInv, Firm, SoundWriters, InTurn,
        Retained, Same, WellFormed;
      desk.Facts(k);
      ghost var w := desk.machine.world;
      RetainedHere(desk.plan, w, k);
      var it := desk.plan.items[k];
      var archive := it.lifecycle.archive;
      var archiveValid := Holds(desk.machine.world.disk, archive, it.fingerprint.of);
      if archive in desk.machine.world.disk.names && !archiveValid {
        r := ManualRecovery(k);
        return;
      }
      if it.source in desk.machine.world.disk.names {
        :- RevalidateSource(k);
        if !archiveValid {
          :- ArchiveSource(k);
          RetainedOn(desk.plan, w, desk.machine.world, k);
        }
        r := RemoveAndComplete(k, SetCleanup(Some(archive)));
      } else if !archiveValid {
        r := ManualRecovery(k);
      } else {
        r := CompleteCleaned(k, SetCleanup(Some(archive)));
      }
    }

    // -------------------------------------------------------------- verdicts on an item

    method ManualRecovery(k: nat) returns (r: Outcome)
      requires desk.Ready(k) && !desk.Assured(k) && desk.State(k) !in {Complete, Stale}
      requires desk.mode.orderly ==> desk.State(k) in {Pending, PreflightOk, Verified, Cleaned, RecoveryRequired}
      requires MayHandOver(desk.machine.world.disk, desk.plan.items[k], desk.machine.world.book.rows[k])
      modifies desk.machine`tick, desk.machine`world, desk.machine`trace
      ensures desk.Turned(k, r) && r in {Done, Killed}
      ensures desk.machine.world.disk == old(desk.machine.world.disk)
      ensures r == Done ==> desk.State(k) == RecoveryRequired
      ensures r != Done ==> desk.State(k) == old(desk.State(k))
      ensures Retained(desk.plan, old(desk.machine.world), desk.machine.world, k)
    {
      hide Desk.Valid, Desk.Promised, Inv, Carries;
      if desk.State(k) == RecoveryRequired { return Done; }
      r := desk.Transition(k, RecoveryRequired, NoFields);
    }

    method MarkCollision(k: nat) returns (r: Outcome)
      requires desk.Ready(k) && !desk.mode.orderly && Collided(k)
      modifies desk.machine`tick, desk.machine`world, desk.machine`trace
      ensures desk.Turned(k, r) && r in {Done, Killed}
      ensures desk.machine.world.disk == old(desk.machine.world.disk)
      ensures r == Done ==> desk.State(k) == if old(desk.State(k)) == Committing then Stale else RecoveryRequired
      ensures Retained(desk.plan, old(desk.machine.world), desk.machine.world, k)
      ensures desk.State(k) == Complete ==> old(desk.State(k)) == Complete
    {
      hide Desk.Valid, Desk.Promised, Inv, Carries;
      if desk.State(k) == Committing {
        r := desk.Transition(k, Stale, NoFields);
      } else {
        r := ManualRecovery(k);
      }
    }

    method MarkStale(k: nat) returns (r: Outcome)
      requires desk.Ready(k) && !desk.mode.orderly && Expired(k)
      modifies desk.machine`tick, desk.machine`world, desk.machine`trace
      ensures desk.Turned(k, r) && r in {Done, Killed}
      ensures desk.machine.world.disk == old(desk.machine.world.disk)
      ensures r == Done ==> desk.State(k) == AfterStaleness(old(desk.State(k)))
      ensures Retained(desk.plan, old(desk.machine.world), desk.machine.world, k)
      ensures desk.State(k) == Complete ==> old(desk.State(k)) == Complete
    {
      hide Desk.Valid, Desk.Promised, Inv, Carries;
      if desk.State(k) in {PreflightOk, Staging, Staged, Verified, Committing} {
        r := desk.Transition(k, Stale, NoFields);
      } else {
        r := ManualRecovery(k);
      }
    }

    /** An error in a state after the commit attempt only leaves a note: recovery decides later. */
    method MarkFailure(k: nat) returns (r: Outcome)
      requires desk.Ready(k) && !desk.Assured(k)
      modifies desk.machine`tick, desk.machine`world, desk.machine`trace
      ensures desk.Turned(k, r) && r in {Done, Killed}
      ensures desk.machine.world.disk == old(desk.machine.world.disk)
      ensures r == Done ==> SettledState(desk.State(k)) && desk.State(k) == AfterFailure(old(desk.State(k)))
      ensures r == Done && old(desk.State(k)) in {Staging, Staged} ==> desk.State(k) == Failed
      ensures old(desk.State(k)) in {Committing, Committed, CleanupPending} ==> desk.State(k) == old(desk.State(k))
      ensures Retained(desk.plan, old(desk.machine.world), desk.machine.world, k)
      ensures desk.State(k) == Complete ==> old(desk.State(k)) == Complete
      ensures old(desk.State(k)) == Complete ==> desk.machine.world == old(desk.machine.world)
    {
      hide Desk.Valid, Desk.Promised, Inv, Carries;
      r := Done;
      match desk.State(k) {
        case Staging | Staged => r := desk.Transition(k, Failed, NoFields);
        case Committing | Committed | CleanupPending => r := desk.NoteError(k);
        case Pending | PreflightOk | Verified | Cleaned => r := ManualRecovery(k);
        case _ =>
      }
    }

    /** The handlers around an item's turn. */
    method Handle(k: nat, error: Error) returns (r: Outcome)
      requires desk.Ready(k) && !desk.Assured(k)
      requires error == StaleSource ==> Expired(k) && !desk.mode.orderly
      requires error == DestinationExists ==> Collided(k) && !desk.mode.orderly
      modifies desk.machine`tick, desk.machine`world, desk.machine`trace
      ensures desk.Turned(k, r) && r in {Done, Killed}
      ensures desk.machine.world.disk == old(desk.machine.world.disk)
      ensures r == Done ==> SettledState(desk.State(k))
      ensures old(desk.State(k)) == Pending && r == Done ==> desk.State(k) == RecoveryRequired
      ensures Retained(desk.plan, old(desk.machine.world), desk.machine.world, k)
      ensures desk.State(k) == Complete ==> old(desk.State(k)) == Complete
      ensures old(desk.State(k)) == Complete ==> desk.machine.world == old(desk.machine.world)
      ensures error == StaleSource && r == Done ==> desk.State(k) == AfterStaleness(old(desk.State(k)))
    {
      hide Desk.Valid, Desk.Promised, Inv, Carries;
      match error {
        case DestinationExists => r := MarkCollision(k);
        case StaleSource => r := MarkStale(k);
        case _ => r := MarkFailure(k);
      }
    }

    // -------------------------------------------------------------- an item's turn

    /** The item's recovery can only be decided by hand. */
    ghost predicate NeedsHand(k: nat)
      requires k < |desk.plan.items| && k < |desk.machine.world.book.rows|
      reads desk.machine
    {
      Diagnosis(desk.machine.world.disk, desk.plan.items[k], desk.machine.world.book.rows[k]) == Manual
    }

    /** The source is not the planned one and no commit has been attempted. */
    predicate Spoilt(k: nat)
      requires k < |desk.plan.items| && k < |desk.machine.world.book.rows|
      reads desk, desk.machine
    {
      BeforeCommit(desk.State(k)) && !SourceHere(desk.machine.world.disk, desk.plan.items[k])
    }

    method ExecuteTurn(k: nat) returns (r: Outcome)
      requires desk.Ready(k) && desk.State(k) == PreflightOk
      requires desk.Poised(k)
      modifies desk.machine`tick, desk.machine`world, desk.machine`trace
      ensures desk.Turned(k, r) && r in {Done, Killed}
      ensures r == Done ==> SettledState(desk.State(k)) && (desk.Assured(k) ==> desk.State(k) == Complete)
    {
      hide Desk.Valid, Desk.Promised, Inv, Carries;
      r := ExecuteItem(k);
      if r.Raised? { r := Handle(k, r.error); }
    }

    method TryRecovery(k: nat) returns (r: Outcome)
      requires desk.Ready(k)
      requires desk.Poised(k)
      modifies desk.machine`tick, desk.machine`world, desk.machine`trace
      ensures Ended(k, r)
      ensures r == Done ==> SettledState(desk.State(k)) && (desk.Assured(k) ==> desk.State(k) == Complete)
      ensures old(NeedsHand(k)) ==> desk.machine.world.disk == old(desk.machine.world.disk)
      ensures old(desk.State(k)) == Pending ==>
                if r == Done then desk.State(k) == RecoveryRequired else desk.State(k) == Pending
      ensures old(desk.State(k)) == Complete ==>
                desk.machine.world == old(desk.machine.world) && desk.machine.trace == old(desk.machine.trace)
      ensures Heeded(desk.plan, old(desk.machine.world), desk.machine.world, k)
      ensures desk.mode.sure && old(Spoilt(k)) ==>
                r in {Killed, Raised(StaleSource)} && desk.State(k) == old(desk.State(k))
      ensures r == Done && desk.State(k) == Complete && old(desk.State(k) !in {CleanupPending, Cleaned, Complete}) ==>
                old(SourceHere(desk.machine.world.disk, desk.plan.items[k]))
    {
      hide Desk.Valid, Desk.Promised, Inv, Carries, InTurn, Heeded, RowInv, OnTrack, WellFormed, Diagnosis;
      HeededStill(desk.plan, desk.machine.world, k);
      :- RecoveryPreflight(k);
      r := RecoverItem(k);
    }

    method RecoverTurn(k: nat) returns (r: Outcome)
      requires desk.Ready(k)
      requires desk.Poised(k)
      modifies desk.machine`tick, desk.machine`world, desk.machine`trace
      ensures desk.Turned(k, r) && r in {Done, Killed}
      ensures r == Done ==> SettledState(desk.State(k)) && (desk.Assured(k) ==> desk.State(k) == Complete)
      ensures old(NeedsHand(k)) ==> desk.machine.world.disk == old(desk.machine.world.disk)
      ensures old(desk.State(k)) == Pending && r == Done ==> desk.State(k) == RecoveryRequired
      ensures old(desk.State(k)) == Complete && desk.Assured(k) ==>
                desk.machine.world == old(desk.machine.world) && desk.machine.trace == old(desk.machine.trace)
      ensures Heeded(desk.plan, old(desk.machine.world), desk.machine.world, k)
      ensures desk.mode.sure && r == Done && old(Spoilt(k)) ==>
                desk.State(k) == if old(desk.State(k)) in {Pending, Failed} then RecoveryRequired else Stale
    {
      hide Desk.Valid, Desk.Promised, Inv, Carries, InTurn, Heeded, RowInv, OnTrack, WellFormed, Diagnosis;
      ghost var w := desk.machine.world;
      r := TryRecovery(k);
      if r.Raised? {
        ghost var v := desk.machine.world;
        r := Handle(k, r.error);
        HeededThen(desk.plan, w, v, desk.machine.world, k);
      }
    }

  }

  /** Every name is there as it was, with the same bytes. */
  ghost predicate FilesAlike(d: Disk, e: Disk) {
    && (forall p, c :: Holds(e, p, c) == Holds(d, p, c))
    && (forall p :: p in e.names <==> p in d.names)
  }

  lemma AlikeKept(plan: Plan, d: Disk, e: Disk, k: nat)
    requires WellFormed(d) && WellFormed(e) && AllSame(d, e) && k < |plan.items|
    ensures FilesAlike(d, e)
    ensures e.loose <= d.loose && Firm(plan, d, k) ==> Firm(plan, e, k)
  {
    forall p
      ensures forall c :: Holds(e, p, c) == Holds(d, p, c)
      ensures p in e.names <==> p in d.names
    {
      assert Same(d, e, p);
    }
    var it := plan.items[k];
    assert Same(d, e, it.destination);
    if it.lifecycle.ArchiveAfterVerify? { assert Same(d, e, it.lifecycle.archive); }
  }

  /** What an action at `s` and `t` leaves of an item's own files. */
  lemma OwnKept(plan: Plan, w: World, v: World, k: nat, s: Path, t: Path)
    requires Inv(plan, w) && Inv(plan, v) && k < |plan.items| && Apart(w.disk, v.disk, s, t)
    ensures forall p, c :: p != s && p != t ==> Holds(v.disk, p, c) == Holds(w.disk, p, c)
    ensures forall p :: p != s && p != t ==> (p in v.disk.names <==> p in w.disk.names)
  {
    forall p | p != s && p != t
      ensures forall c :: Holds(v.disk, p, c) == Holds(w.disk, p, c)
      ensures p in v.disk.names <==> p in w.disk.names
    {
      assert Same(w.disk, v.disk, p);
    }
  }

  /** The item's own names are all different, and a new temporary is none of them. */
  lemma OwnPaths(plan: Plan, w: World, k: nat)
    requires Shaped(plan) && Inv(plan, w) && k < |plan.items| && k < |w.book.rows|
    requires HasStage(w.book.rows[k].state)
    ensures var it, staging := plan.items[k], w.book.rows[k].staging;
            && staging.Some? && staging.value !in {it.source, it.destination} && it.source != it.destination
            && (it.lifecycle.ArchiveAfterVerify? ==>
                 && it.lifecycle.archive !in {it.source, it.destination, staging.value}
                 && CopyTemp(w, it.lifecycle.archive)
                      !in {it.source, it.destination, staging.value, it.lifecycle.archive})
  {
    assert RowInv(plan, w, k);
  }

  /** In COMMITTED and CLEANUP_PENDING the expected digest is the one that was sealed, and on track the
      destination holds it. */
  lemma CleanupFacts(plan: Plan, w: World, k: nat)
    requires Inv(plan, w) && k < |plan.items| && k < |w.book.rows|
    requires w.book.rows[k].state in {Committed, CleanupPending}
    ensures AsExpected(w.disk, plan.items[k], w.book.rows[k]) <==> OutputHeld(w.disk, plan.items[k], w.book.rows[k])
    ensures OnTrack(plan, w, k) ==> AsExpected(w.disk, plan.items[k], w.book.rows[k])
  {
    assert RowInv(plan, w, k);
  }

  /** In COMMITTING only the staged digest is recorded, and a destination that is there on track is the output. */
  lemma CommittingFacts(plan: Plan, w: World, k: nat)
    requires Inv(plan, w) && k < |plan.items| && k < |w.book.rows| && w.book.rows[k].state == Committing
    ensures w.book.rows[k].stagedHash.Some? && Expected(w.book.rows[k]) == w.book.rows[k].stagedHash
    ensures OnTrack(plan, w, k) && SoundWriters(plan) && plan.items[k].destination in w.disk.names ==>
              SourceHere(w.disk, plan.items[k]) && CommittedAsSealed(plan, w.disk, plan.items[k], w.book.rows[k])
              && w.book.rows[k].stagedHash == Some(Hash(Content(w.disk, plan.items[k].destination)))
  {
    assert RowInv(plan, w, k);
  }

  /** An item on track that has just been published passes the check of what was linked. */
  lemma LandedOnTrack(plan: Plan, w: World, v: World, k: nat)
    requires k < |plan.items| && k < |w.book.rows| && v.book == w.book && Inv(plan, v) && OnTrack(plan, v, k)
    requires SoundWriters(plan)
    requires w.book.rows[k].state == Committing && w.book.rows[k].staging.Some?
    requires Landed(w.disk, v.disk, w.book.rows[k].staging.value, plan.items[k].destination)
    ensures CommittedAsSealed(plan, v.disk, plan.items[k], v.book.rows[k])
  {
    assert RowInv(plan, v, k);
  }
}
