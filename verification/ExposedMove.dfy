/** The failing starts reached and run: a plan that moves a file, killed between the hard link and the barrier
    after it or between mkdir and the barrier of the parent, and recovered by a new process; and files moved to
    one new directory, whose barrier fails in the first one's turn. */
module ExposedMove {
  import opened Basics
  import opened Disks
  import opened Journals
  import opened Protocol
  import opened Frames
  import opened Recoverable
  import opened Runs
  import opened Operations
  import opened Directories
  import opened Durability
  import opened Dangers
  import opened Filesystem
  import opened Turns
  import opened Actions
  import opened PowerRisks
  import opened ApplyEngine
  import opened MixedCrashes
  import opened Reaching
  import Ledgers
  import Stores

  // ---------------------------------------------------------------- reached by every plan that moves its first file

  /** A start from which a recovery that goes through puts the item at risk: the run can be recovered, the item is
      next and has its durable source, and a weak point of its destination is not on the way. */
  ghost predicate ExposedStart(plan: Plan, first: World, tr: seq<Step>, v: World) {
    && Shaped(plan) && SoundWriters(plan) && Inv(plan, first) && !first.book.begun && Run(plan, first, tr, v)
    && plan.items != [] && v.book.rows != [] && Quiet(plan, v) && NonePending(v.book) && Turning(plan, v, 0)
    && !plan.items[0].lifecycle.Preserve?
    && SourceHere(v.disk, plan.items[0]) && Fast(v.disk, plan.items[0].source) && LinkedOnce(plan, v.disk, 0)
    && exists x :: Exposed(plan, v.disk, 0, x)
  }

  /** Killed after link, before the barrier of the destination directory. */
  lemma LinkExposes(plan: Plan, first: World) returns (tr: seq<Step>, v: World)
    requires Ready(plan, first) && plan.items[0].lifecycle.MoveAfterVerify?
    ensures ExposedStart(plan, first, tr, v) && v.book.rows[0].state == Committing
    ensures plan.items[0].destination in v.disk.names
  {
    hide Inv, Quiet, Run, Exposed, Legit, Do, Steps, Publishing, DiskRule, Perform, Possible,
      Unpublished;
    var before, w := ComeToLink(plan, first);
    ReachedFacts(plan, first, before, w, Committing);
    NothingRun(plan, first);
    var s, t := w.book.rows[0].staging.value, plan.items[0].destination;
    var ops := CommitOps(s, t)[..2];
    StageToLink(plan, w);
    KilledAfterLink(plan, w, 0, 2);
    CommitPoint(w, 0, s, t, 2);
    LegitRuns(plan, first, before, w, 0, ops);
    tr, v := before + Steps(w, 0, ops), Do(w, 0, ops);
    LinkedStart(plan, w, v, s);
    assert Exposed(plan, v.disk, 0, EntryMayGo(t, None));
  }

  lemma StageToLink(plan: Plan, w: World)
    requires plan.items != [] && w.book.rows != [] && w.book.rows[0].state == Committing
    requires OnTrack(plan, w, 0) && plan.items[0].destination !in w.disk.names && WellFormed(w.disk)
    ensures w.book.rows[0].staging.Some? && w.book.rows[0].staging.value in w.disk.names
    ensures w.disk.names[w.book.rows[0].staging.value] < |w.disk.files|
    ensures plan.items[0].destination.dir in w.disk.folders
  {
  }

  lemma LinkedStart(plan: Plan, w: World, v: World, s: Path)
    requires plan.items != [] && plan.items[0].lifecycle.MoveAfterVerify? && Inv(plan, w) && w.book.rows != []
    requires w.book.rows[0].state == Committing && w.book.rows[0].staging == Some(s)
    requires s in w.disk.names && w.disk.names[s] < |w.disk.files| && Unpublished(plan, w.disk)
    requires Publishing(w.disk, v.disk, s, plan.items[0].destination, 2)
    ensures LinkedOnce(plan, v.disk, 0)
    ensures SourceHere(v.disk, plan.items[0]) && Fast(v.disk, plan.items[0].source)
  {
    assert Pristine(plan.items[0], w.disk);
    assert RowInv(plan, w, 0) && Might(w.disk, s, w.disk.names[s]);
    hide Inv, RowInv, Above;
    assert Publishes(plan.items[0], plan.items[0].destination);
  }

  /** Killed after mkdir, before the barrier of the parent directory. */
  lemma MkdirExposes(plan: Plan, first: World, h: Dir) returns (tr: seq<Step>, v: World)
    requires Ready(plan, first) && plan.items[0].lifecycle.MoveAfterVerify?
    requires h !in first.disk.folders && h.Folder? && Above(h, plan.items[0].destination.dir)
    ensures ExposedStart(plan, first, tr, v) && v.book.rows[0].state == Verified && h in v.disk.loose
  {
    hide Inv, Quiet, Run, Exposed, Legit, Do, Steps, CutOps, SoundWriters, Shaped, Unpublished, LinkedOnce, Fast,
      Above, OnTrack, RowInv, AllPossible;
    var before, w := Seal(plan, first);
    NothingRun(plan, first);
    ReachedFacts(plan, first, before, w, Verified);
    var ops := CutOps(w.disk, h, plan.items[0].folderMode, 1, 0);
    KilledAfterMaking(plan, w, 0, h, 1);
    CutWay(plan, w, 0, plan.items[0].destination.dir, h, 1);
    LegitRuns(plan, first, before, w, 0, ops);
    CutLegit(plan, w, 0, plan.items[0].destination.dir, h, 1);
    forall op | op in ops ensures Target(op).None? {}
    StillUnpublished(plan, w, ops);
    tr, v := before + Steps(w, 0, ops), Do(w, 0, ops);
    UnpublishedOnce(plan, v.disk, 0);
  }

  lemma UnpublishedOnce(plan: Plan, d: Disk, j: nat)
    requires j < |plan.items| && Unpublished(plan, d)
    ensures LinkedOnce(plan, d, j) && SourceHere(d, plan.items[j]) && Fast(d, plan.items[j].source)
  {
    assert Pristine(plan.items[j], d);
  }

  /** The first item makes a directory, whose barrier fails: the item is handed to a person, and every other file
      that is to be moved below that directory is exposed before its turn in the same call. */
  lemma BarrierExposes(plan: Plan, first: World, h: Dir, j: nat) returns (tr: seq<Step>, u: World)
    requires Ready(plan, first) && h !in first.disk.folders && h.Folder? && Above(h, plan.items[0].destination.dir)
    requires 0 < j < |plan.items| && plan.items[j].lifecycle.MoveAfterVerify?
    requires Above(h, plan.items[j].destination.dir) && plan.items[j].root == plan.items[0].root
    ensures Run(plan, first, tr, u) && |u.book.rows| == |plan.items| && u.book.rows[0].state == RecoveryRequired
    ensures u.book.rows[j].state == PreflightOk
    ensures SourceHere(u.disk, plan.items[j]) && Fast(u.disk, plan.items[j].source) && LinkedOnce(plan, u.disk, j)
    ensures Exposed(plan, u.disk, j, FolderMayGo(h))
  {
    hide Inv, Quiet, Run, Exposed, Legit, Do, Steps, CutOps, SoundWriters, Unpublished, LinkedOnce, Fast,
      Above, OnTrack, RowInv, AllPossible;
    var before, w := Seal(plan, first);
    ReachedFacts(plan, first, before, w, Verified);
    var ops, failed := CutOps(w.disk, h, plan.items[0].folderMode, 3, 0), Move(RecoveryRequired, NoFields);
    FailedBarrier(plan, w, 0, h, 3, j);
    CutLegit(plan, w, 0, plan.items[0].destination.dir, h, 3);
    CutWay(plan, w, 0, plan.items[0].destination.dir, h, 3);
    LegitRuns(plan, first, before, w, 0, ops);
    forall op | op in ops ensures Target(op).None? {}
    StillUnpublished(plan, w, ops);
    var v := Do(w, 0, ops);
    u := After(v, 0, OnBook(failed));
    var s := Step(v, 0, OnBook(failed), u);
    RunExtends(plan, first, before + Steps(w, 0, ops), v, s);
    tr := before + Steps(w, 0, ops) + [s];
    UnpublishedOnce(plan, u.disk, j);
    StageStays(plan, w, 0);
    HiddenNearest(plan, u.disk, j, h);
  }

  /** Where one item's hidden directory is, another one's does not begin at a visible directory. */
  lemma HiddenNearest(plan: Plan, d: Disk, j: nat, h: Dir)
    requires j < |plan.items| && TreeFormed(d) && StageDir(plan, 0) in d.folders && h.Folder?
    requires plan.items[j].root == plan.items[0].root
    ensures Nearest(d, StageDir(plan, j)) != Parent(h)
  {
    assert Parent(StageDir(plan, 0)) == StageRun(plan.items[j].root) == Parent(StageDir(plan, j));
  }

  // ---------------------------------------------------------------- recovered by a new process

  function Peace(t: nat): Answer {
    Go
  }

  /** A new process, which nothing will cut short, over what the earlier ones left. */
  method Restart(plan: Plan, ghost first: World, ghost tr: seq<Step>, w: World) returns (engine: ApplyEngine)
    requires ExposedStart(plan, first, tr, w)
    ensures fresh(engine) && fresh(engine.machine) && fresh(engine.desk) && fresh(engine.store.db)
    ensures engine.Valid() && engine.desk.plan == plan && engine.machine.world == w && engine.machine.trace == tr
    ensures engine.Resumable() && engine.Uncut()
  {
    hide Inv, Run, OnTrack, Exposed, LinkedOnce, Fast, Shaped, Ledgers.Eligible, SoundWriters, Desk.Valid;
    var machine := new Machine.Resumed(w, Peace, _ => [], tr);
    var store := ApprovedStore();
    engine := new ApplyEngine(machine, plan, store, 0, first);
  }

  /** It recovers the run, and a power loss at one of its steps could have left neither the source nor the output. */
  method RecoverExposed(plan: Plan, ghost first: World, ghost tr: seq<Step>, w: World)
    returns (engine: ApplyEngine, r: Outcome)
    requires ExposedStart(plan, first, tr, w)
    ensures engine.Valid() && engine.desk.plan == plan && tr <= engine.machine.trace
    ensures r == Done && AllFinished(plan, engine.machine.world)
    ensures AtRisk(plan, engine.machine.trace, |tr|, 0)
  {
    hide Inv, Run, Quiet, Exposed, LinkedOnce, Fast, Shaped, AllFinished, AtRisk, Desk.Valid, SoundWriters, Hopeful;
    engine := Restart(plan, first, tr, w);
    r := RiskOfRecovery(engine, 0);
  }

  /** A plan imported, approved and applied before. */
  method ApprovedStore() returns (store: Stores.PlanStore)
    ensures fresh(store) && fresh(store.db) && Admitted(store.db.ledger, 0) && 0 in store.db.ledger.runs
  {
    var db := new Stores.Database();
    store := new Stores.PlanStore(db);
    var item := Ledgers.PlanItem("issue", false, false, Ledgers.Provenance(None, None, None));
    var document := Ledgers.Document(0, Ledgers.CURRENT_SCHEMA, Ledgers.CURRENT_POLICY, false, [item]);
    var id := store.ImportBytes(document);
    assert Ledgers.Derived(0, [item]) == [];
    var approved := store.Approve(0, document);
    store.db.ledger := Ledgers.RecordRun(store.db.ledger, 0);
  }

  // ---------------------------------------------------------------- one in full detail

  const INBOX := Folder(["inbox"])
  const LIBRARY := Folder(["library"])
  const SERIES := Folder(["library", "Series"])
  const CONTENT: Bytes := [80, 75]

  function Source(k: nat): Path {
    Entry(INBOX, Planned(if k == 0 then "issue 1.cbz" else "issue 2.cbz"))
  }

  function Destination(k: nat): Path {
    Entry(SERIES, Planned(if k == 0 then "Series 001.cbz" else "Series 002.cbz"))
  }

  function Comic(k: nat): Item {
    Item(Source(k), Sha256(CONTENT), 2, Destination(k), MoveAfterVerify, 420, ["library"], 493)
  }

  /** The writer leaves the bytes as they are, and verification accepts just that. */
  const WRITERS := Writers((it, bytes) => bytes, (it, before, after) => before == after)

  const PLAN := Plan([Comic(0), Comic(1)], WRITERS)

  const START := World(
    Disk(map[Source(0) := 0, Source(1) := 1], [File(CONTENT, 420, true, false), File(CONTENT, 420, true, false)],
         map[], map[TOP := 493, INBOX := 493, LIBRARY := 493], {}), EMPTY_BOOK, 0)

  lemma PlanSound()
    ensures SoundWriters(PLAN)
  {
  }

  lemma ComicFacts(j: nat, k: nat)
    requires j < 2 && k < 2
    ensures PLAN.items[k] == Comic(k) && Comic(k).lifecycle == MoveAfterVerify
    ensures UserPath(Comic(k).source) && UserPath(Comic(k).destination)
    ensures Comic(k).root <= Comic(k).destination.dir.path
    ensures j != k ==> Comic(j).source != Comic(k).source && Comic(j).destination != Comic(k).destination
  {
    assert Source(0).name.text[6] != Source(1).name.text[6];
    assert Destination(0).name.text[9] != Destination(1).name.text[9];
  }

  lemma PlanShaped()
    ensures Shaped(PLAN)
  {
    hide Comic;
    assert |PLAN.items| == 2;
    forall k: nat | k < 2
      ensures UserPath(PLAN.items[k].source) && UserPath(PLAN.items[k].destination)
      ensures PLAN.items[k].root <= PLAN.items[k].destination.dir.path && !PLAN.items[k].lifecycle.ArchiveAfterVerify?
    {
      ComicFacts(0, k);
    }
    forall j: nat, k: nat | j < 2 && k < 2 && j != k
      ensures PLAN.items[j].source != PLAN.items[k].source
      ensures PLAN.items[j].destination != PLAN.items[k].destination
    {
      ComicFacts(j, k);
      ComicFacts(k, j);
    }
  }

  lemma StartFormed()
    ensures Initial(START)
  {
    forall g | g in START.disk.folders ensures Parent(g) in START.disk.folders {
      assert g in {TOP, INBOX, LIBRARY};
    }
  }

  lemma StartPristine(j: nat)
    requires j < 2
    ensures Pristine(Comic(j), START.disk) && PreflightOkFor(START.disk, Comic(j))
    ensures Above(SERIES, Comic(j).destination.dir) && Comic(j) == PLAN.items[j]
  {
  }

  /** There is such a plan, and such a world for it. */
  lemma PlanReady()
    ensures Ready(PLAN, START) && SERIES !in START.disk.folders
    ensures forall j :: 0 <= j < |PLAN.items| ==>
              && PLAN.items[j].lifecycle.MoveAfterVerify? && PLAN.items[j].root == PLAN.items[0].root
              && Above(SERIES, PLAN.items[j].destination.dir)
  {
    hide Shaped, SoundWriters, Initial, Pristine, PreflightOkFor, Above;
    PlanSound();
    PlanShaped();
    StartFormed();
    StartPristine(0);
    StartPristine(1);
    forall j | 0 <= j < |PLAN.items| ensures Pristine(PLAN.items[j], START.disk) {
      assert j in {0, 1};
    }
  }

  /** So the failures are not hypothetical: of this plan there are runs to each of them. */
  lemma FailuresExist()
    ensures exists tr, v :: ExposedStart(PLAN, START, tr, v) && v.book.rows[0].state == Committing
    ensures exists tr, v :: ExposedStart(PLAN, START, tr, v) && v.book.rows[0].state == Verified
    ensures exists tr, u :: Run(PLAN, START, tr, u) && NextExposed(u)
  {
    hide ExposedStart, Ready, Above, Run, Exposed, LinkedOnce, Fast;
    PlanReady();
    var tr, v := LinkExposes(PLAN, START);
    var tr', v' := MkdirExposes(PLAN, START, SERIES);
    var tr'', u := BarrierExposes(PLAN, START, SERIES, 1);
    assert NextExposed(u);
  }

  /** The second item is about to begin its turn exposed, its source in place. */
  ghost predicate NextExposed(u: World) {
    && |u.book.rows| == 2 && u.book.rows[0].state == RecoveryRequired && u.book.rows[1].state == PreflightOk
    && SourceHere(u.disk, PLAN.items[1]) && Fast(u.disk, PLAN.items[1].source) && LinkedOnce(PLAN, u.disk, 1)
    && Exposed(PLAN, u.disk, 1, FolderMayGo(SERIES))
  }
}
