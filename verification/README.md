# Verification of the apply protocol and its neighbours

This project models the parts of kavita-ingest that decide what happens to a user's files, and proves
properties of them. `dafny verify dfyconfig.toml` checks everything.

## What is modelled

**The apply protocol.** `Disks` is the filesystem as a value: names for inodes, inode contents and modes,
directories, and for every directory entry what a power loss may still make of it. `Journals` is the apply journal
with its rows and append-only events. `Protocol` states the rules: which single effect an item of a plan may have on
the disk or the journal, and in which world. `Invariant` proves that every permitted effect, every interference by other
programs and every power loss keeps one invariant; `Runs` and `Conservation` draw the consequences for whole
runs; `Recoverable` says which states process kills can leave; `Directories` and `Durability` follow directories
and publications operation by operation; `Dangers` says what a power loss could take of an item's published files,
`PowerRisks` and `MixedCrashes` when it comes to that, and `Reaching` and `ExposedMove` run into it.

The engine itself is imperative. `Filesystem.Machine` performs one system call or journal transaction at a time;
before each of them an arbitrary oracle may kill the process or fail the call. `LinuxFilesystem` and
`JournalRepository` are built on it, `Actions.Desk` issues their calls on behalf of one item, `ItemEngine` has the
per-item methods (executing, recovering, marking), and `ApplyEngine` has apply, recover, abandon and inspect.
Each method is proved to have only effects that the rules permit, so every theorem about runs holds for the
engine. Ghost state carries the further promises: the `anchor` of a turn, which is the world in which it began (the
other items are undisturbed since, and the acting item's exposure is carried on: `Carries`), and a `Mode` with the
items that were firm when the call began, whether the call may accept items, whether the run is orderly, whether
no system call fails any more, and where call and turn began. `Histories` composes calls.

A run is *orderly* if every item is on track, that is in a state recovery can finish, or was given up where the
code does not try again (`Recoverable.Orderly`). Without interference every run stays orderly, whatever fails.

An item is *firm* on a disk if a power loss can take none of its published names and no directory above one. It is
*exposed* if it can take something that the rest of the item's turn will not fsync on its way (`Dangers.Exposed`).

**Plans, decisions and run groups.** `Ledgers` has the append-only tables with their derived invalidations and
supersessions as one value; `Stores` has the repositories that update it.

**Around it.** `RateLimit` is the sliding-window limiter over real time, `ProviderCache` the response cache with
schema migration behind it, `LibraryRepair` the batch of renames, `ComicInfo` the in-place patch of a metadata
tree, and `Sequence` issue numbers as text.

## Where the code does less than it seems to promise

- Recovery does not repeat the barriers that a kill cut off. Killed after the hard link and before the barrier of
  its directory, a run is recovered by recognising the destination, or the archive copy; killed after mkdir and
  before the barrier of its parent, by finding the directory there. Either way the source is removed while a power
  loss can still take what replaces it. `MixedCrashes.KilledAfterLink`, `KilledAfterMaking`,
  `KilledAfterArchiveLink` and `KilledAfterArchiveMaking` show that these states arise from every undisturbed run
  that is about to link or to make a directory; `ExposedMove.LinkExposes` and `MkdirExposes` that runs come there,
  and `ExposedMove.RecoverExposed` recovers them.
- A barrier of a new directory that fails, rather than being cut off by a kill, leaves the directory in the same
  state, and the call goes on to other items, which publish into it (`MixedCrashes.FailedBarrier`,
  `ExposedMove.BarrierExposes`).
- In both cases the exact condition is one on the disk when the item's turn begins: `PowerRisks.TurnRisk` says, for
  every call and whatever fails in it, that a power loss during a turn that removes a durable source could leave
  neither it nor what replaces it if and only if the item was exposed. For the item that a recovery comes to first
  that is the disk when the recovery begins (`MixedCrashes.RiskOfRecovery`). An item that begins no turn exposed is
  never lost (`Histories.MixedHistory`); while no system call fails it is enough that all is durable at the start of
  every call, so with power losses alone (`Histories.PowerHistory`) or kills alone (`Histories.AnyHistory`) nothing
  is lost.
- A waiting time returned by the rate limiter can be too short when the clock is behind rows already granted
  (`RateLimit.ShortWaitExample`); `RateLimit.WaitExactly` says exactly when it is right, and
  `RateLimit.TooManyMeansBehind` that only a clock behind the newest row can get it wrong. `wait_and_reserve` then
  needs a third attempt.
- A system call that fails costs an item only a retry if the item is being staged or past its commit attempt. In
  PREFLIGHT_OK, VERIFIED and CLEANED the handlers take it to RECOVERY_REQUIRED, from which nothing leads on, even
  in CLEANED, where only a journal entry is missing (`Recoverable.Excusable`, `Histories.FailureHistory`).
- The inspection calls for a person in CLEANED, although recovery finishes such an item; apart from PENDING this is
  the only state of an item on track in which it does (`ApplyEngine.DiagnosisFits`).
- Range sort keys pad the end to nine digits, so a longer end can sort wrongly (`Sequence.LongEndsExample`);
  `Sequence.RangeOrder` says exactly when.
- An item still PENDING when the process is killed during preflight cannot be retried: recovery takes it to
  RECOVERY_REQUIRED. A recovery of a run on track that is not cut short completes if and only if no item is
  PENDING (`ApplyEngine.ApplyEngine.Recover`).

## Model

| member | source | states |
|---|---|---|
| Histories.AnyHistory | src/kavita_ingest/apply_engine.py:312-464 | No data loss over any history of applies, recoveries and abandonments, each killed or failing anywhere, with harmless interference between them: every item keeps its planned source bytes or (never under preserve) the verified output at its destination and, if planned, the archive copy; and the whole history is one lawful run |
| Histories.KillHistory | src/kavita_ingest/apply_engine.py:312-398 | Recoverability: after an apply on a plan that passes preflight and any number of recoveries, all killed anywhere, the run can be resumed exactly when the journal shows that every item was accepted; an apply that is not cut short accepts them all; and the plan stays admitted |
| Histories.RecoverToTheEnd | src/kavita_ingest/apply_engine.py:312-398 | If the kills ever stop, whoever recovers again after each of them gets to the end: an apply that passes preflight and then recoveries until one is not killed leave every item complete if the apply came to accept them all |
| Histories.FailureHistory | src/kavita_ingest/apply_engine.py:312-398 | System calls may fail and processes be killed anywhere in an apply of a plan that passes preflight and in any number of recoveries: what failed in staging is on track, items are handed over only from PENDING, PREFLIGHT_OK, VERIFIED or CLEANED, and the first recovery that nothing cuts short completes every item that was accepted and not given up, unless an item is stale |
| Histories.MixedHistory | src/kavita_ingest/filesystem.py:50-109 | Kills, failing system calls, power losses, recoveries and harmless interference in any order: an item that begins no turn exposed always has a copy (source, or destination plus archive) that no power loss can take; while no system call fails it is enough that its published names and directories are durable whenever a call begins; the events are the parts of the run |
| Histories.PowerHistory | src/kavita_ingest/filesystem.py:50-109 | When every interruption is a power loss, each item always has a copy that the next power loss cannot take, directories included, if no system call fails or the item begins no turn exposed |
| Histories.ClosedHistory | src/kavita_ingest/apply_engine.py:400-464 | Once the plan is invalidated by an abandonment, no apply, recovery or abandonment changes any file |
| Histories.Call | src/kavita_ingest/apply_engine.py:277-464 | Whatever becomes of a call, it only adds engine steps to the run; only an apply accepts items; in every turn an item's source goes with the exposure it had when the turn began, and the unlinks of an item that was firm then are firm; while no system call fails, so are those of each item that was firm when the call began; and invalidation is never undone |
| Runs.SourceLicence | src/kavita_ingest/apply_engine.py:867-900 | In every run the engine unlinks a source only for its own item, in CLEANUP_PENDING, not under preserve, while it holds the planned bytes, and with the verified output and any archive copy on disk afterwards |
| Runs.NoClobber | src/kavita_ingest/apply_engine.py:824-1095 | No engine step changes the bytes or mode of a foreign file or of any planned name, removes anything but its own private names and a planned source holding the planned bytes, or changes or removes a directory that the disk holds durably |
| Runs.WrittenAhead | src/kavita_ingest/apply_engine.py:788-791 | In every run a file is made in a staging directory only after the journal recorded its name for the item that makes it, and only where nothing was |
| Runs.StageDropKeepsInode | src/kavita_ingest/apply_engine.py:1050-1064 | A staging name of an item disappears only while the destination names the same inode |
| Runs.SealedForever | src/kavita_ingest/apply_engine.py:800-865 | From VERIFIED on the staged inode keeps bytes, mode and durability through every later step, recovery, kill, interference and power loss, and its bytes are the recorded, verified ones |
| Runs.RecordedDigests | src/kavita_ingest/apply_engine.py:824-850 | In every reachable world an item in COMMITTED, CLEANUP_PENDING, CLEANED or COMPLETE records one digest for stage and destination, with the size of those bytes, and the bytes passed verification |
| Runs.LogIsAPath | src/kavita_ingest/apply_journal.py:41-78 | Each item's event log is a chain of legal transitions from its creation to its present row state; only error notes stay in a state; a run is COMPLETE only when all its items are |
| Runs.HandedOverOnly | src/kavita_ingest/apply_engine.py:902-1108 | In no run is an item handed over to a person while it is being staged, or staged with its staging file there; a failed one only for a taken destination or a changed source; from the commit attempt on only if destination, stage, source or archive are not what the journal says |
| Runs.ExpiredOnly | src/kavita_ingest/apply_engine.py:1140-1174 | In every run items become STALE at the first preflight, and later only before they are published, for a changed source or, in COMMITTING, for a taken destination |
| Runs.RunInv | src/kavita_ingest/apply_engine.py:312-398 | The protocol invariant holds before and after every step of every run |
| Invariant.InvKept | src/kavita_ingest/apply_engine.py:782-1205 | Every single permitted effect of any item, every interference and every power loss keeps the protocol invariant |
| Recoverable.QuietKept | src/kavita_ingest/apply_engine.py:902-1095 | Every permitted effect that does not give the item up leaves every item in a state recovery can finish, so kills inside recoveries of recoveries are covered |
| Recoverable.OrderlyKept | src/kavita_ingest/apply_engine.py:902-1205 | Whatever fails, as long as no other program interferes: every permitted effect that gives items up only where the handlers do leaves every other item in a state recovery can finish |
| Conservation.NothingLost | src/kavita_ingest/apply_engine.py:782-900 | Along any run without power loss that leaves existing planned files alone from outside, a kept copy of every item stays kept |
| Conservation.NothingLostToPower | src/kavita_ingest/filesystem.py:81-109 | If every removal of an item's source in a run is firm, a durable copy of it survives any number of power losses |
| Conservation.AbandonableStates | src/kavita_ingest/apply_engine.py:421-446 | In no run has the engine removed the source of an item now PENDING, PREFLIGHT_OK, FAILED or STALE, or linked a destination of one now PENDING, PREFLIGHT_OK or FAILED |
| Journals.UnbrokenEvents | src/kavita_ingest/apply_journal.py:156-234 | On an unbroken log an error note stays where it is and every other event of the item is an allowed move to a different state |
| Durability.CommitNeverLoses | src/kavita_ingest/filesystem.py:85-105 | A power loss at any point of a publication leaves the staging name or the destination name naming the staged inode with its bytes: the staging name up to the second directory barrier, the destination from it on |
| Durability.CommitPoint | src/kavita_ingest/filesystem.py:85-105 | What names, inodes and unsynced entries are after each operation of a publication |
| Durability.CommitResult | src/kavita_ingest/filesystem.py:85-105 | A publication that goes through moves one name to the other, touches no other name, and leaves the destination durable |
| Durability.CopyPoint | src/kavita_ingest/filesystem.py:111-129 | What an archive temporary looks like after each operation of its preparation |
| MixedCrashes.RiskOfRecovery | src/kavita_ingest/apply_engine.py:984-1043 | A recovery that goes through, whatever the state and lifecycle of the first item that is not complete, whose source is durable: a power loss during it could have left neither source nor what replaces it if and only if the source is to go and the item was exposed when the recovery began |
| PowerRisks.TurnRisk | src/kavita_ingest/apply_engine.py:344-398 | Whatever fails or is killed in any call: a power loss during an item's turn could leave neither its durable source nor what replaces it (linked once at most, and flushed then) if and only if the turn removes the source and the item was exposed when the turn began: a published entry or a directory on the way to one was not durable, and nothing on the turn's way fsyncs it |
| PowerRisks.ExposedIsNotFirm | src/kavita_ingest/apply_engine.py:1066-1090 | An item with its output and any archive copy in place is exposed if and only if one of these names, or a directory above one, is not durable |
| PowerRisks.MendedCallKeeps | src/kavita_ingest/filesystem.py:50-109 | A call in which an item begins no turn exposed keeps a copy of it that no power loss can take, whatever fails |
| Dangers.FirmIsNotWeak | src/kavita_ingest/filesystem.py:50-109 | An item is firm if and only if its published files are flushed and it has no weak point: no published entry that a power loss may change, no directory on the way to one that it may take |
| MixedCrashes.KilledAfterLink | src/kavita_ingest/filesystem.py:85-105 | A kill between the hard link and the directory barrier after it leaves a run on track whose destination entry a power loss may take; the item is exposed unless the way to its archive begins at the destination's directory |
| MixedCrashes.KilledAfterMaking | src/kavita_ingest/filesystem.py:50-75 | A kill between mkdir and the barrier of its parent leaves a run on track with a directory that a power loss may take; making directories again leaves it so, and an item to be moved is exposed |
| MixedCrashes.KilledAfterArchiveLink | src/kavita_ingest/filesystem.py:92-129 | A kill between linking the archive name and the barrier after it leaves a run on track with a valid archive copy whose entry a power loss may take: the item is exposed |
| MixedCrashes.KilledAfterArchiveMaking | src/kavita_ingest/filesystem.py:184-201 | A kill between making a directory for the archive and the barrier of its parent leaves a run on track: the item is exposed |
| MixedCrashes.FailedBarrier | src/kavita_ingest/filesystem.py:60-75 | A failing barrier of a new directory hands its item to a person and leaves every other item to be moved below that directory exposed in the same call, unless its hidden directory is yet to be made in the same place |
| ExposedMove.LinkExposes | src/kavita_ingest/filesystem.py:85-105 | From every world in which a plan with a move first passes preflight a run comes to the link, and killed right after it, the run can be recovered with the item exposed, next, and its durable source in place |
| ExposedMove.MkdirExposes | src/kavita_ingest/filesystem.py:60-75 | Likewise for a kill right after mkdir on the way to the destination |
| ExposedMove.BarrierExposes | src/kavita_ingest/filesystem.py:60-75 | From every such world a run comes to a barrier that fails for the first item, with a later item exposed that the call goes on to |
| ExposedMove.RecoverExposed | src/kavita_ingest/apply_engine.py:370-398 | A new process recovers every such run completely, and a power loss at one of its steps could have left neither source nor output |
| ExposedMove.FailuresExist | src/kavita_ingest/filesystem.py:60-105 | A plan of two moves into a new directory, with a disk on which it passes preflight, has runs to all three failures |
| MixedCrashes.FirmNotAtRisk | src/kavita_ingest/filesystem.py:107-109 | A call whose removals of an item's source are firm at no step exposes it to a power loss |
| ApplyEngine.ApplyEngine.Apply | src/kavita_ingest/apply_engine.py:312-359 | An apply refuses a plan that is not admitted or already has a run, without any effect. A refused preflight leaves the files alone, the run FAILED, every item with a finding STALE and all others STALE or PENDING, so that it can be abandoned; a plan with a finding is never done, and if no call fails it is refused with exactly the items with findings STALE, unless killed. Otherwise an apply ends with the settled verdict; from a start that passes preflight the run stays orderly whatever fails, stays recoverable if only kills occur, and with nothing cut short every item completes; every turn carries its item's exposure to the removal of the source |
| ApplyEngine.ApplyEngine.Recover | src/kavita_ingest/apply_engine.py:370-398 | A recovery refuses without any effect when the plan is not admitted, has no run or has stale items; otherwise it ends with the settled verdict. An orderly run stays orderly; if no call fails, a recovery that ends has completed every item that had been accepted and not given up, and if nothing is cut short it ends; a run on track completes if and only if no item is PENDING, and every PENDING item is handed to a person; a resumable run stays resumable. Each item gets what the inspection proposes for it: items for a person keep their files, a commit is recognized and a lifecycle resumed without staging anything or touching the destination, a retained stage is published as it is, and a retry completes under a new staging name. Every turn carries its item's exposure to the removal of the source, and the first item that is not complete begins its turn on the disk that the recovery found |
| ApplyEngine.ApplyEngine.Abandon | src/kavita_ingest/apply_engine.py:400-464 | Abandonment succeeds exactly for a run, not complete, whose items are all in the safe states and with a reason; it touches no file, invalidates the plan, and then nothing is at stake: no source of an unfinished item was ever removed, no destination of an unpublished one ever linked |
| ApplyEngine.ApplyEngine.InspectRecovery | src/kavita_ingest/apply_engine.py:473-502 | Each proposal is made exactly where it applies: nothing is left exactly of COMPLETE items, a commit is recognized exactly in COMMITTING over the recorded output, a stage published exactly in VERIFIED and COMMITTING without a destination, a lifecycle resumed exactly in COMMITTED and CLEANUP_PENDING over the recorded output, staging retried exactly before VERIFIED; an item that no transition leads on is left to a person, one on track only if PENDING or CLEANED; items are flagged exactly when no automatic recovery is proposed and the plan is not invalidated; without a run there is nothing to inspect |
| ApplyEngine.DiagnosisFits | src/kavita_ingest/apply_engine.py:1625-1679 | In every reachable world the proposal for an item is the one that its state, its destination and the recorded digest call for, and an item on track is left to a person only in PENDING or CLEANED |
| ApplyEngine.ApplyEngine.Finalize | src/kavita_ingest/apply_engine.py:1207-1225 | The settled verdict: every item in one of seven states; the run COMPLETE iff all items are; FAILED iff all are COMPLETE or STALE with at least one STALE |
| ApplyEngine.ApplyEngine.PreflightAll | src/kavita_ingest/apply_engine.py:632-693 | An item without an error passes on the present disk; if no capability check fails for an outside reason, an item has an error only for a finding of its own |
| ApplyEngine.ApplyEngine.RefuseStale | src/kavita_ingest/apply_engine.py:326-338 | Exactly the items with an error become STALE, the others stay PENDING, the run is FAILED, and no file changes |
| ApplyEngine.ApplyEngine.ExecuteAll | src/kavita_ingest/apply_engine.py:344-358 | Items are worked off one after the other; each ends settled, and COMPLETE in an undisturbed run |
| ApplyEngine.ApplyEngine.RecoverAll | src/kavita_ingest/apply_engine.py:385-398 | The recovery pass settles every item, hands the PENDING ones over, completes those it can hope for if nothing but kills can go wrong, and gives each item what the inspection proposed |
| ApplyEngine.ApplyEngine.TurnOf | src/kavita_ingest/apply_engine.py:386-395 | One item's recovery keeps every later item's row and files as they were when the pass began, and what the inspection proposed for the others stays heeded |
| ApplyEngine.ApplyEngine.Admit | src/kavita_ingest/apply_engine.py:504-573 | The gate admits exactly the eligible plans of the current schema, and may record an invalidation only when it refuses |
| ApplyEngine.FirmAfterPowerLoss | src/kavita_ingest/filesystem.py:85-105 | Right after a power loss every published name that is visible is durable, and so is its directory |
| ItemExecution.ItemEngine.ExecuteItem | src/kavita_ingest/apply_engine.py:782-798 | Within the rules at every effect; done means COMPLETE; if nothing but kills can go wrong only a kill stops it |
| ItemExecution.ItemEngine.StageOutput | src/kavita_ingest/apply_engine.py:788-796 | When done the item is STAGED under a new staging name with its stage on disk and the source still as planned |
| ItemExecution.ItemEngine.NeedFolder | src/kavita_ingest/apply_engine.py:785-787 | Making the staging or destination directory leaves every file as it was, and, unless the destination is there already, the item's exposure |
| ItemExecution.ItemEngine.SealStage | src/kavita_ingest/apply_engine.py:800-819 | When done the item is VERIFIED: verified bytes, final mode, durable, digest recorded |
| ItemExecution.ItemEngine.CommitVerified | src/kavita_ingest/apply_engine.py:824-850 | Publishes a verified stage only with the planned source present and no destination; done means COMPLETE |
| ItemExecution.ItemEngine.PublishAndFinish | src/kavita_ingest/apply_engine.py:841-850 | Links, checks, records COMMITTED and finishes the lifecycle |
| ItemExecution.ItemEngine.VerifyCommitted | src/kavita_ingest/apply_engine.py:852-865 | Succeeds exactly when the destination has the sealed size, digest and mode and passes the writer's verification |
| ItemExecution.ItemEngine.FinishLifecycle | src/kavita_ingest/apply_engine.py:867-900 | Each lifecycle ends COMPLETE with the source removed only under its licence and the archive copied and checked before |
| ItemExecution.ItemEngine.RevalidateSource | src/kavita_ingest/apply_engine.py:1110-1114 | Succeeds only while the source holds the planned bytes |
| ItemExecution.ItemEngine.RecoverItem | src/kavita_ingest/apply_engine.py:902-942 | Recovers an item from every journal state as the inspection proposes; a PENDING item is handed over; nothing on disk changes if its diagnosis is manual; up to COMMITTED it completes an item only if the source was the planned one |
| ItemExecution.ItemEngine.RetryItem | src/kavita_ingest/apply_engine.py:926-942 | An interrupted staging is given up first; a pending item, or one whose destination exists, is never retried and no file changes |
| ItemExecution.ItemEngine.ExecuteFromFailedOrPreflight | src/kavita_ingest/apply_engine.py:944-962 | Only FAILED and PREFLIGHT_OK items are staged again; anything else is refused with nothing done |
| ItemExecution.ItemEngine.RecoverVerified | src/kavita_ingest/apply_engine.py:964-1014 | A retained stage is published, a linked destination recognised, anything else left to a person with the disk unchanged |
| ItemExecution.ItemEngine.RecognizeCommit | src/kavita_ingest/apply_engine.py:971-995 | A destination linked before the crash is accepted only with the planned source in place, the sealed digest and mode and a passing verification; neither it nor the staging name recorded changes |
| ItemExecution.ItemEngine.RecoverCleanup | src/kavita_ingest/apply_engine.py:1016-1048 | Cleanup resumes only over the expected destination; otherwise the disk is unchanged |
| ItemExecution.ItemEngine.RemoveSurvivingStage | src/kavita_ingest/apply_engine.py:1050-1064 | A surviving stage goes only as a second name of the published inode, and the output stays held |
| ItemExecution.ItemEngine.RecoverArchiveCleanup | src/kavita_ingest/apply_engine.py:1066-1095 | With other bytes under the archive name, or with source and archive both missing, no file changes and a person decides; otherwise the archive is there before the source goes |
| ItemExecution.ItemEngine.RecoveryPreflight | src/kavita_ingest/apply_engine.py:1120-1138 | Before the commit attempt recovery goes on only with the planned source present, and before VERIFIED only without a destination |
| ItemExecution.ItemEngine.ManualRecovery | src/kavita_ingest/apply_engine.py:1097-1108 | Leaves the disk alone and the item in RECOVERY_REQUIRED |
| ItemExecution.ItemEngine.MarkCollision | src/kavita_ingest/apply_engine.py:1140-1153 | A taken name makes the item STALE in COMMITTING and hands it over otherwise, only where the name is taken |
| ItemExecution.ItemEngine.MarkStale | src/kavita_ingest/apply_engine.py:1155-1174 | A stale source makes the item STALE where that is still harmless and RECOVERY_REQUIRED elsewhere, legally from its actual state |
| ItemExecution.ItemEngine.MarkFailure | src/kavita_ingest/apply_engine.py:1176-1205 | A failure takes an item from STAGING or STAGED to FAILED, leaves one past its commit attempt where it is, and hands any other to a person, never one that was being staged; the disk is unchanged |
| ItemExecution.ItemEngine.RecoverTurn | src/kavita_ingest/apply_engine.py:386-395 | With all handlers: a recovery turn ends killed or settled, COMPLETE if nothing but kills can go wrong, does what the inspection proposes, hands a PENDING item over, changes no file when the diagnosis is manual, and, if no call fails, makes an item whose source has changed before its commit attempt STALE (from PENDING and FAILED: RECOVERY_REQUIRED) |
| ItemExecution.ItemEngine.ExecuteTurn | src/kavita_ingest/apply_engine.py:346-355 | With all handlers: an apply turn ends killed or settled, COMPLETE if nothing but kills can go wrong |
| Actions.Desk.Transition | src/kavita_ingest/apply_journal.py:156-195 | Every transition the engine asks for is legal from the row's actual state and is within the rules of the protocol |
| Actions.Desk.Publish | src/kavita_ingest/filesystem.py:85-105 | Publishing an item's stage touches only its staging and destination names, and on success leaves the destination durable |
| Actions.Desk.CopyArchive | src/kavita_ingest/filesystem.py:111-129 | The archive copy, its directory made first, touches only its temporary and the archive name, and on success the archive durably holds the planned bytes |
| Actions.Desk.RemoveSource | src/kavita_ingest/filesystem.py:107-109 | A source is unlinked only under its licence and with the exposure the item had when its turn began, so firmly if it was firm then |
| Actions.Desk.EnsureFolder | src/kavita_ingest/filesystem.py:50-75 | A directory that an item needs is made within the rules, and no file changes |
| Filesystem.Machine.Attempt | src/kavita_ingest/filesystem.py:50-109 | One system call: done with exactly its effect, or nothing; linking an existing name is refused |
| Filesystem.LinuxFilesystem.Commit | src/kavita_ingest/filesystem.py:85-105 | Some prefix of the six operations runs; a missing directory stops it before any, and a destination that exists before any change of names |
| Filesystem.LinuxFilesystem.MakeFileDurable | src/kavita_ingest/filesystem.py:81-83 | Some prefix of file and directory barrier runs |
| Filesystem.LinuxFilesystem.DurableUnlink | src/kavita_ingest/filesystem.py:107-109 | Some prefix of unlink and directory barrier runs |
| Filesystem.LinuxFilesystem.CopyForArchive | src/kavita_ingest/filesystem.py:111-129 | Bytes are published only if they have the expected digest; an existing archive is not touched; unless killed the temporary is taken away |
| Legitimacy.CommitSound | src/kavita_ingest/filesystem.py:85-105 | However far a publication gets, every operation is within the rules, and its unlink is firm if the item was firm when its turn began |
| Legitimacy.CopySound | src/kavita_ingest/filesystem.py:111-129 | However far an archive copy gets, cleaned up or not, every operation is within the rules |
| Filesystem.LinuxFilesystem.EnsureDirectory | src/kavita_ingest/filesystem.py:50-75 | Walking down from the root makes the missing directories, or stops within that; a directory whose mode cannot be set is taken away again; refused without effect exactly when the root is missing or not above |
| Filesystem.LinuxFilesystem.EnsureFromExistingAncestor | src/kavita_ingest/filesystem.py:184-200 | Walking up to the nearest existing directory first performs the very same operations as walking down |
| Directories.EnsurePoint | src/kavita_ingest/filesystem.py:50-75 | Made in full, exactly the missing directories are there, with the planned mode and durable entries; every other directory, its mode and whether its entry is durable is as before |
| Directories.EnsuredRooted | src/kavita_ingest/filesystem.py:50-75 | After making the way to a directory no power loss can take it if and only if no power loss could take the part of the way that was there before |
| Directories.EnsuringSpares | src/kavita_ingest/filesystem.py:50-75 | Wherever making directories stops, no operation has touched an existing directory on the way or made its entry durable |
| Directories.EnsuringGrows | src/kavita_ingest/filesystem.py:50-75 | Wherever it stops, making directories takes none away that was there |
| Legitimacy.EnsureSound | src/kavita_ingest/filesystem.py:50-75 | However far making directories gets, taken away again or not, every operation is within the rules |
| ApplyJournal.JournalRepository.CreateRun | src/kavita_ingest/apply_journal.py:119-154 | A run is opened once, with every item pending, or nothing is written |
| ApplyJournal.JournalRepository.Transition | src/kavita_ingest/apply_journal.py:156-195 | A transition outside the table is refused with nothing written; row and event change together |
| ApplyJournal.JournalRepository.NoteError | src/kavita_ingest/apply_journal.py:213-234 | An error note appends an event without leaving the state |
| ApplyJournal.JournalRepository.SetRunState | src/kavita_ingest/apply_journal.py:197-211 | The run state and its event change together |
| Ledgers.RefusedForever | src/kavita_ingest/apply_engine.py:504-566 | Eligibility is one-way: over every history of imports, approvals, decisions, run-group choices, invalidations and applies an approved plan once refused is refused forever |
| Ledgers.EligibleExactly | src/kavita_ingest/apply_engine.py:504-566 | The whole life of a plan: from its import on, over every history, the gate accepts it exactly if it was approved, has no conflicts, blocked items or outdated policy, was planned from the newest decisions, and since then no rival was imported before it was applied, no decision was made on a source and no choice for a run group that an item was planned from, and it was not invalidated itself |
| Ledgers.CurrentExactly | src/kavita_ingest/plan_store.py:160-169 | One change overtakes a plan exactly if it is such a rival, decision, choice or invalidation; it overtakes no other plan |
| Ledgers.StalenessIsRecorded | src/kavita_ingest/decisions.py:118-131 | For a plan made from the newest decisions, staleness recomputed from the tables at any later time has an invalidation row |
| Ledgers.NoTwoRivals | src/kavita_ingest/plan_store.py:160-169 | Two plans that share a source and were never applied are never both un-superseded |
| Ledgers.EligibleIsCurrent | src/kavita_ingest/apply_engine.py:529-552 | An eligible plan rests on the present decisions: each of its items was planned from the newest decision of its source and the newest choice of its run group |
| Ledgers.CoherentKept | src/kavita_ingest/plan_store.py:127-169 | Every change keeps the preconditions those of the plans' items, and a plan superseded exactly if it has no run and a later plan shares a source, by the first such plan |
| Ledgers.NewestDecisionBound | src/kavita_ingest/apply_engine.py:529-534 | The head a precondition is compared with is the newest decision of its fingerprint |
| Ledgers.NewestRunBound | src/kavita_ingest/run_groups.py:69-75 | Likewise for run-group decisions of a group and provider |
| Stores.PlanStore.ImportBytes | src/kavita_ingest/plan_store.py:45-67 | An import is the whole transaction (draft, derived preconditions, supersessions) or nothing, and happens exactly for a new document of a supported schema whose decisions exist; newly superseded are only plans without a run that share a source, by the imported plan |
| Stores.PlanStore.Approve | src/kavita_ingest/plan_store.py:77-109 | A plan is approved exactly if it is a draft, for its exact bytes, under the present policy, without conflicts or blocked items, and neither invalidated nor superseded; an outdated policy invalidates it instead |
| Stores.PlanStore.EligiblePlan | src/kavita_ingest/apply_engine.py:504-566 | The gate answers eligibility exactly, and writes at most one invalidation when it refuses |
| Stores.DecisionRepository.Add | src/kavita_ingest/decisions.py:83-150 | The new decision becomes the newest of its source and invalidates the plans made from another head |
| Stores.DecisionRepository.ManualOverrides | src/kavita_ingest/decisions.py:190-201 | The fold equals the last-mention-wins value of every field |
| Stores.LastMention | src/kavita_ingest/decisions.py:190-201 | The last override that mentions a field decides its value, and within it clearing wins over setting |
| Stores.RunGroupRepository.Choose | src/kavita_ingest/run_groups.py:45-62 | The choice becomes the newest of its group and invalidates the plans made from another one |
| Stores.RunGroupRepository.Clear | src/kavita_ingest/run_groups.py:64-67 | A group without a decision cannot be cleared; otherwise clearing is a new decision |
| RateLimit.Interleaved | src/kavita_ingest/rate_limit.py:36-69 | For every sequence of clock readings of any callers under one policy, exactly the specified readings are granted, grants are spaced and every half-open window, closed on either side, holds at most the maximum |
| RateLimit.Serve | src/kavita_ingest/rate_limit.py:36-90 | For every sequence of reservations and blocks of any keys under any policies: under a sensible policy a reservation is granted exactly when no block of its key, old or made earlier in the sequence, lasts beyond it and the key's rows leave room; under any policy none is granted during a block, and a refusal's wait reaches to the end of every earlier block of the key |
| RateLimit.LatestEnd | src/kavita_ingest/rate_limit.py:78-90 | The table holds for each key the latest end of all its blocks |
| RateLimit.RecentExactly | src/kavita_ingest/rate_limit.py:45-50 | The rows looked at are exactly those after the cutoff, each as often as it occurs, whatever order they have |
| RateLimit.GrantKeepsSpaced | src/kavita_ingest/rate_limit.py:45-66 | A grant at any clock reading keeps all rows spaced by the minimum interval and the window bound |
| RateLimit.WindowBound | src/kavita_ingest/rate_limit.py:45-66 | Spaced rows put at most the maximum into any half-open window |
| RateLimit.GrantedExactly | src/kavita_ingest/rate_limit.py:45-66 | A reservation is granted iff there is no block, the minimum interval since the newest recent row has passed, and there is room in the window |
| RateLimit.RefusedUntilThen | src/kavita_ingest/rate_limit.py:52-59 | A refusal's wait is never too long: every earlier instant is refused as well |
| RateLimit.WaitExactly | src/kavita_ingest/rate_limit.py:52-59 | A caller who waits as it was told is granted at once if and only if, before the call, no more rows are recent than the maximum, or the row that makes room leaves the window before the block and the interval end or is as old as the oldest |
| RateLimit.TooManyMeansBehind | src/kavita_ingest/rate_limit.py:52-59 | Under one policy more recent rows than the maximum mean that the clock is behind the newest row |
| RateLimit.ExactWhenClockIsNotBehind | src/kavita_ingest/rate_limit.py:52-59 | With one policy and a clock that has reached the newest row the wait is always exact |
| RateLimit.ShortWaitExample | src/kavita_ingest/rate_limit.py:52-59 | A clock behind the newest rows is told a wait after which it is refused again |
| RateLimit.DurableRateLimiter.Reserve | src/kavita_ingest/rate_limit.py:36-69 | The decision is the specified one: none is granted while a block lasts, a refusal's wait reaches to the end of the block, and under a sensible policy it is granted exactly without a block and with room; a grant appends the reading, a refusal writes nothing; one policy's rows stay spaced |
| RateLimit.DurableRateLimiter.WaitAndReserve | src/kavita_ingest/rate_limit.py:71-76 | Alone with an exact sleeper it takes at most three attempts, and at most two when the clock is not behind |
| RateLimit.DurableRateLimiter.Block | src/kavita_ingest/rate_limit.py:78-90 | A block is only ever prolonged, and no other block changes |
| ProviderCache.AnyHistory | src/kavita_ingest/providers/client.py:72-170 | Over every history of requests, expiries, offline switches and schema versions: what a request returns is the current normal form of the response stored last for its key; a request stores at most one response, which it received itself for its own key; and online nothing expired is returned |
| ProviderCache.CachedProviderClient.Get | src/kavita_ingest/providers/client.py:72-170 | A request succeeds exactly if a row that may be served can be read under the present schema, then without a request, or else, online, if the first answer that is neither unreachable nor a server error, or the last attempt's, is a success whose body normalizes; it is then the current normal form of the row. A stale row is never served online; nothing but a received response changes a row's response or expiry; each attempt uses one reservation of its own, at most one more than the retries; a 429 blocks the bucket for as long as asked, and nothing else blocks |
| ProviderCache.CachedProviderClient.Migrate | src/kavita_ingest/providers/client.py:95-113 | Renormalizing succeeds exactly if the response normalizes, changes neither response nor expiry, and fails without effect |
| ProviderCache.CachedProviderClient.Fetch | src/kavita_ingest/providers/client.py:125-170 | Answers that time may mend are followed by another attempt while there is one; the last alone decides: a success is stored if it normalizes and is malformed otherwise, a 429 blocks, and every attempt took a reservation |
| ProviderCache.ProviderStore.RewriteNormalization | src/kavita_ingest/provider_store.py:44-63 | Only the normal form and its schema change, and only for a row that exists |
| ProviderCache.ProviderStore.PutCache | src/kavita_ingest/provider_store.py:65-102 | The row is replaced as a whole with a fresh expiry |
| LibraryRepair.RemoveCollidingActions | src/kavita_ingest/library_repair.py:347-382 | An action goes to a person exactly if it collides; the rest is a clean batch: destinations absent, distinct up to case, and with no file or directory beside them of the same name up to case |
| LibraryRepair.CollidesExactly | src/kavita_ingest/library_repair.py:347-382 | An action collides exactly if it is not clean by itself or another action wants its name up to case |
| LibraryRepair.CleanBatch | src/kavita_ingest/library_repair.py:178-237 | A clean batch whose sources are as planned and whose transformations succeed gives, in every order of execution, the same files: each output at its new name, its old name gone, everything else unchanged |
| LibraryRepair.Competition | src/kavita_ingest/library_repair.py:350-356 | More than one competitor for a key means that another action wants it |
| LibraryRepair.OrderIndependent | src/kavita_ingest/library_repair.py:178-237 | Every permutation of a batch that can be carried out gives the same files |
| LibraryRepair.BatchOutcome | src/kavita_ingest/library_repair.py:178-237 | Each action's output, the old bytes for a move and what the transformation made of them otherwise, is at its new name, its old name is gone, and nothing else changed |
| LibraryRepair.Repairer.ApplyRepairs | src/kavita_ingest/library_repair.py:178-237 | Wherever a batch stops, on any disk, each file is at its old name or its verified output at the new one, and no other file is touched or overwritten; a batch completes only if every source was there with its planned digest and every destination free, and one that is refused has carried out exactly the actions before the refused one |
| LibraryRepair.Repairer.ApplyAction | src/kavita_ingest/library_repair.py:178-237 | One action is refused exactly when it is not doable, then without effect; killed halfway it has only added the new name |
| ComicInfo.PatchIdempotent | src/kavita_ingest/comicinfo.py:130-171 | Patching a patched document again changes nothing |
| ComicInfo.PatchReadsBack | src/kavita_ingest/comicinfo.py:130-171 | Set fields read back, empty ones and cleared ones are absent, every other owned field reads as its first element did in whatever case its tag was written, and no tag stays miscased |
| ComicInfo.PatchPreserves | src/kavita_ingest/comicinfo.py:130-171 | The result is in schema order; nodes the schema does not know keep subtrees and relative order but for a redundant Issue alias; fields the patch does not own keep theirs |
| ComicInfo.AliasFate | src/kavita_ingest/comicinfo.py:199-245 | A patch goes through only with at most one Issue alias; if Number is planned, the alias goes and was blank, equal to the planned value up to blanks around it, or digits that differ from it in leading zeros only; otherwise it stays |
| ComicInfo.AliasHarmless | src/kavita_ingest/comicinfo.py:199-245 | The alias stops a patch exactly if it is doubled or, with Number planned, not redundant in this sense |
| ComicInfo.PatchKeepsImageHashes | src/kavita_ingest/comicinfo.py:278-294 | The page hashes are those of the canonically spelt document, hence unchanged when no child is a miscased Pages |
| ComicInfo.OrderedStable | src/kavita_ingest/comicinfo.py:259-275 | The order is by schema position and stable |
| ComicInfo.PartsDetermine | src/kavita_ingest/comicinfo.py:259-275 | A document in order is determined by its elements of each kind |
| ComicInfo.Root.Patch | src/kavita_ingest/comicinfo.py:130-171 | The in-place patch computes the specified result, and succeeds exactly when it is defined |
| ComicInfo.Root.Read | src/kavita_ingest/comicinfo.py:115-121 | Reading gives each owned field's text, and fails exactly on an ambiguous one |
| ComicInfo.Root.CanonicalizeLegacyKnownFieldCase | src/kavita_ingest/comicinfo.py:174-196 | Exactly the miscased tags are renamed |
| ComicInfo.Root.NormalizeLegacyIssueAlias | src/kavita_ingest/comicinfo.py:199-245 | The alias goes exactly when Number is planned and does not contradict it |
| ComicInfo.Root.RemoveField | src/kavita_ingest/comicinfo.py:156-158 | All elements of the field go, the others keep their order |
| ComicInfo.Root.SetField | src/kavita_ingest/comicinfo.py:159-164 | The first element of the field gets the text, or one is appended |
| ComicInfo.Root.OrderKnownElements | src/kavita_ingest/comicinfo.py:259-275 | The in-place sort is the specified stable one |
| Sequence.NormalizedRoundTrip | src/kavita_ingest/domain.py:26-52 | Parsing a normal form gives the same normal form, kind and sort key |
| Sequence.RenderedRoundTrip | src/kavita_ingest/domain.py:54-57 | So does parsing a rendered number, however wide integers are padded |
| Sequence.DecimalOrder | src/kavita_ingest/domain.py:34-38 | Sort keys of decimals of any length order exactly as the numbers, and are equal exactly for equal numbers |
| Sequence.DecimalEquality | src/kavita_ingest/domain.py:34-38 | Two decimals are equal exactly when their normal forms are |
| Sequence.KeyIdentifies | src/kavita_ingest/domain.py:26-52 | Two numbers of any kinds have the same normal form exactly if they have the same sort key |
| Sequence.IntegerOrder | src/kavita_ingest/domain.py:31-33 | Integers sort, and are equal, as their texts are when the shorter one is padded with zeros |
| Sequence.RangeOrder | src/kavita_ingest/domain.py:48-50 | Ranges sort by start and then by end exactly if the starts differ, or the padded ends are equally long, or the shorter one does not exceed the leading digits of the longer one |
| Sequence.LongEndsExample | src/kavita_ingest/domain.py:48-50 | A range that ends in a ten-digit number may sort before one that ends in a smaller nine-digit number |
| Sequence.RenderedExactly | src/kavita_ingest/domain.py:54-57 | A rendered integer has as many digits as it was written with or as the minimum width asks for, whichever is more, and the same value; anything else is rendered as its normal form |
| Sequence.SymbolicAgain | src/kavita_ingest/domain.py:51-52 | A symbolic number's normal form has none of the other shapes and is its own normal form |

## Left out

- Format writers and verifiers are an arbitrary function and an arbitrary predicate (`Writers`); what they write into archives is not modelled.
- SQL text, PRAGMAs, migrations and JSON: a repository method is one atomic transaction, and a database error during a call counts as a kill, because no handler of the engine sees it.
- A link onto a name that a directory has already: for the model names of files and of directories do not meet.
- SHA-256 is an injective function of the bytes.
- The process lock: calls on a plan do not overlap. Runs of other plans on the same files appear as interference.
- Interference acts between calls, not between a check and the effect right after it, and does not reach into names or inodes that the run created for itself.
- Capability, version, signature and disk-space checks are steps that may fail or be killed at any time but read nothing that is modelled. That includes `_require_usable_parent`, and a file in the place of a directory, which counts as a failing mkdir.
- `_remove_empty_staging`: empty staging directories stay.
- A directory that was removed does not come back after a power loss, and a barrier that fails has flushed nothing.
- Two items with one source or one archive name: the model takes plans as the planner makes them (`Protocol.Shaped`); `import_bytes` does not check this again.
- Publication reports and their backfill, progress hooks, previews and the command line.
- `plan_library_repairs` beyond the removal of colliding actions: which findings are safe, and the final sorting, which the order-independence theorem makes irrelevant for the files.
- Temporary directories of repair transformations, and directories that appear while a batch of repairs is carried out.
- XML parsing, serialization and white space between elements; schema validation is an arbitrary predicate on the patched children.
- Non-ASCII sequence numbers and white space.
- The limiter computes with real numbers, not with binary floating point.
- HTTP transport, response normalizers and cache key construction: arbitrary responses, arbitrary normalizers, keys as given.
- RateLimit.DurableRateLimiter.WaitAndReserve: stated for one caller with an exact sleeper, because with other callers at work the loop need not end.
- ItemExecution.ItemEngine.MarkFailure: does not keep the error text.
- ComicInfo.Root.NormalizeLegacyIssueAlias: digits are ASCII digits.
