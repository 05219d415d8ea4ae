/** The rules of the apply protocol: which single effects an item of a plan may have on the disk and
    the journal, and in which world. The engine's methods are proved to have only such effects. */
module Protocol {
  import opened Basics
  import opened Disks
  import opened Journals

  datatype Lifecycle = Preserve | MoveAfterVerify | ArchiveAfterVerify(archive: Path)

  datatype Item = Item(
    source: Path,
    fingerprint: Digest,
    size: nat,
    destination: Path,
    lifecycle: Lifecycle,
    mode: nat,
    root: seq<string>,
    folderMode: nat)

  /** Format writers are foreign code: what they stage, and whether a candidate passes verification
      against the bytes of the source. */
  datatype Writers = Writers(stage: (Item, Bytes) -> Bytes, valid: (Item, Bytes, Bytes) -> bool)

  datatype Plan = Plan(items: seq<Item>, writers: Writers)

  /** `supply` numbers the random names of staging and temporary files. */
  datatype World = World(disk: Disk, book: Book, supply: nat)

  datatype Effect =
    | OnDisk(op: Op)
    | OnBook(edit: Edit)
    | Elsewhere(disk: Disk)
    | Outage(disk: Disk)

  datatype Step = Step(before: World, item: nat, effect: Effect, after: World)

  ghost predicate Feasible(w: World, k: nat, e: Effect) {
    match e
    case OnDisk(op) => Possible(w.disk, op)
    case OnBook(edit) => Editable(w.book, k, edit)
    case Elsewhere(d) => Outside(w.disk, d)
    case Outage(d) => PowerLoss(w.disk, d)
  }

  /** A `Create` or a move to Staging uses up a random name. */
  function Supply(supply: nat, e: Effect): nat {
    match e
    case OnDisk(Create(p)) => if p.name.Random? && supply <= p.name.serial then p.name.serial + 1 else supply
    case OnBook(Move(_, SetStaging(p))) =>
      if p.name.Random? && supply <= p.name.serial then p.name.serial + 1 else supply
    case _ => supply
  }

  ghost function After(w: World, k: nat, e: Effect): World
    requires Feasible(w, k, e)
  {
    match e
    case OnDisk(op) => World(Perform(w.disk, op), w.book, Supply(w.supply, e))
    case OnBook(edit) => World(w.disk, Edited(w.book, k, edit), Supply(w.supply, e))
    case Elsewhere(d) => w.(disk := d)
    case Outage(d) => w.(disk := d)
  }

  // ---------------------------------------------------------------- the plan

  ghost predicate UserPath(p: Path) {
    p.dir.Folder? && p.name.Planned?
  }

  /** Where item `k` keeps its staging files. */
  function StageDir(plan: Plan, k: nat): Dir
    requires k < |plan.items|
  {
    StageArea(plan.items[k].root, k)
  }

  /** The directories an item may have to make. */
  predicate OwnFolder(plan: Plan, k: nat, g: Dir)
    requires k < |plan.items|
  {
    var it := plan.items[k];
    || Above(g, StageDir(plan, k)) || Above(g, it.destination.dir)
    || (it.lifecycle.ArchiveAfterVerify? && Above(g, it.lifecycle.archive.dir))
  }

  /** What the planner guarantees: one item a source, one a destination, one an archive name, and
      destinations below the library root. */
  ghost predicate Shaped(plan: Plan) {
    && (forall k :: 0 <= k < |plan.items| ==>
         && UserPath(plan.items[k].source)
         && UserPath(plan.items[k].destination) && plan.items[k].root <= plan.items[k].destination.dir.path
         && (plan.items[k].lifecycle.ArchiveAfterVerify? ==> UserPath(plan.items[k].lifecycle.archive)))
    && (forall j, k :: 0 <= j < |plan.items| && 0 <= k < |plan.items| && j != k ==>
         && plan.items[j].source != plan.items[k].source
         && plan.items[j].destination != plan.items[k].destination
         && (plan.items[j].lifecycle.ArchiveAfterVerify? ==>
              plan.items[j].lifecycle != plan.items[k].lifecycle))
    && (forall j, k :: 0 <= j < |plan.items| && 0 <= k < |plan.items| && plan.items[j].lifecycle.ArchiveAfterVerify? ==>
         plan.items[j].lifecycle.archive != plan.items[k].destination)
  }

  /** No source is at the same time a destination or an archive name of the plan. */
  ghost predicate Separated(plan: Plan) {
    forall j, k :: 0 <= j < |plan.items| && 0 <= k < |plan.items| ==>
      && plan.items[j].source != plan.items[k].destination
      && (plan.items[k].lifecycle.ArchiveAfterVerify? ==>
           plan.items[j].source != plan.items[k].lifecycle.archive)
  }

  predicate SourceHere(d: Disk, it: Item) {
    Holds(d, it.source, it.fingerprint.of)
  }

  predicate ArchiveHolds(d: Disk, it: Item) {
    it.lifecycle.ArchiveAfterVerify? ==> Holds(d, it.lifecycle.archive, it.fingerprint.of)
  }

  predicate ArchiveAbsent(d: Disk, it: Item) {
    it.lifecycle.ArchiveAfterVerify? ==> it.lifecycle.archive !in d.names
  }

  /** The source, root, destination and archive findings of `_preflight_item` for one item. */
  predicate PreflightOkFor(d: Disk, it: Item) {
    Folder(it.root) in d.folders && SourceHere(d, it) && it.destination !in d.names && ArchiveAbsent(d, it)
  }

  predicate Preflighted(plan: Plan, d: Disk) {
    forall k :: 0 <= k < |plan.items| ==> PreflightOkFor(d, plan.items[k])
  }

  // ---------------------------------------------------------------- classes of states

  predicate Sealed(s: ItemState) {
    s in {Verified, Committing, Committed, CleanupPending, Cleaned, Complete}
  }

  predicate Published(s: ItemState) {
    s in {Committed, CleanupPending, Cleaned, Complete}
  }

  predicate HasStage(s: ItemState) {
    Sealed(s) || s in {Staging, Staged}
  }

  /** States an item reaches only after its destination name may have been linked. */
  predicate Launched(s: ItemState) {
    Published(s) || s in {Committing, Stale, RecoveryRequired}
  }

  // ---------------------------------------------------------------- the rules

  /** `p` is this item's staging file, in state `s`. */
  ghost predicate OpenStage(w: World, k: nat, p: Path, s: ItemState) {
    k < |w.book.rows| && w.book.rows[k].staging == Some(p) && w.book.rows[k].state == s
  }

  /** `p` is a temporary beside the archive name of an item that is being cleaned up. */
  ghost predicate ArchiveTemp(plan: Plan, w: World, k: nat, p: Path) {
    && k < |plan.items| && k < |w.book.rows| && w.book.rows[k].state == CleanupPending
    && plan.items[k].lifecycle.ArchiveAfterVerify?
    && p.dir == plan.items[k].lifecycle.archive.dir && p.name.Random?
  }

  ghost predicate Unshared(d: Disk, p: Path) {
    forall q: Path, i: nat :: q != p && Might(d, p, i) ==> !Might(d, q, i)
  }

  /** The licence to link a published name: a verified stage to its destination, or a complete and
      synced copy of the source to its archive name. */
  ghost predicate MayLink(plan: Plan, w: World, k: nat, from: Path, p: Path)
    requires k < |plan.items| && k < |w.book.rows|
  {
    var it, row := plan.items[k], w.book.rows[k];
    || (row.state == Committing && p == it.destination && row.staging == Some(from))
    || (ArchiveTemp(plan, w, k, from) && p == it.lifecycle.archive && Holds(w.disk, from, it.fingerprint.of)
        && w.disk.files[w.disk.names[from]].synced)
  }

  /** The published output of `it`: the destination holds the bytes whose digest was sealed. */
  ghost predicate OutputHeld(d: Disk, it: Item, row: Row) {
    row.stagedHash.Some? && Holds(d, it.destination, row.stagedHash.value.of)
  }

  /** The licence to unlink a source. */
  ghost predicate MayRemoveSource(plan: Plan, w: World, k: nat)
    requires k < |plan.items| && k < |w.book.rows|
  {
    var it, row := plan.items[k], w.book.rows[k];
    && row.state == CleanupPending
    && !it.lifecycle.Preserve?
    && SourceHere(w.disk, it)
    && OutputHeld(w.disk, it, row)
    && ArchiveHolds(w.disk, it)
  }

  /** The licence to unlink a staging name: the destination is another name of the same inode. */
  ghost predicate MayDropStage(plan: Plan, w: World, k: nat, p: Path)
    requires k < |plan.items| && k < |w.book.rows|
  {
    var it, row := plan.items[k], w.book.rows[k];
    && row.staging == Some(p)
    && row.state in {Committing, Committed, CleanupPending}
    && Lookup(w.disk, p).Some?
    && Lookup(w.disk, it.destination) == Lookup(w.disk, p)
  }

  ghost predicate DiskRule(plan: Plan, w: World, k: nat, op: Op) {
    && k < |plan.items| && k < |w.book.rows|
    && Possible(w.disk, op)
    && match op
       case Create(p) => OpenStage(w, k, p, Staging) || (ArchiveTemp(plan, w, k, p) && w.supply <= p.name.serial)
       case Write(p, _) => OpenStage(w, k, p, Staging) || (ArchiveTemp(plan, w, k, p) && Unshared(w.disk, p))
       case Chmod(p, _) => OpenStage(w, k, p, Staged)
       case SyncFile(_) => true
       case SyncDir(_) => true
       case Link(from, p) => MayLink(plan, w, k, from, p)
       case Unlink(p) =>
         || MayDropStage(plan, w, k, p)
         || ArchiveTemp(plan, w, k, p)
         || (p == plan.items[k].source && MayRemoveSource(plan, w, k))
       case MakeDir(g) => OwnFolder(plan, k, g)
       case ChmodDir(g, _) => OwnFolder(plan, k, g) && g in w.disk.loose
       case RemoveDir(g) => OwnFolder(plan, k, g) && g in w.disk.loose
  }

  /** The staging file is what the journal is about to record: verified against the planned source
      bytes, carrying the published mode, and durable under its staging name. */
  ghost predicate Evidence(plan: Plan, w: World, k: nat, hash: Digest, size: nat)
    requires k < |plan.items| && k < |w.book.rows|
  {
    var it, row := plan.items[k], w.book.rows[k];
    && row.staging.Some?
    && Holds(w.disk, row.staging.value, hash.of) && size == |hash.of|
    && w.disk.files[w.disk.names[row.staging.value]].mode == it.mode
    && Secured(w.disk, row.staging.value)
    && SourceHere(w.disk, it)
    && plan.writers.valid(it, it.fingerprint.of, hash.of)
  }

  function Expected(row: Row): Option<Digest> {
    if row.destinationHash.Some? then row.destinationHash else row.stagedHash
  }

  /** The destination holds the bytes that the journal expects there. */
  predicate AsExpected(d: Disk, it: Item, row: Row) {
    Expected(row).Some? && Holds(d, it.destination, Expected(row).value.of)
  }

  /** The staging name holds the bytes that were sealed. */
  predicate StageAsSealed(d: Disk, row: Row) {
    row.staging.Some? && row.stagedHash.Some? && Holds(d, row.staging.value, row.stagedHash.value.of)
  }

  /** When an item may be handed over to a person: while a commit attempt is to come, after a failure; during
      staging, which can be tried again, only if the files contradict the journal, and from the commit
      attempt on never for another reason. */
  predicate MayHandOver(d: Disk, it: Item, row: Row) {
    match row.state
    case Staging => false
    case Staged => row.staging.Some? && row.staging.value !in d.names
    case Failed => it.destination in d.names || !SourceHere(d, it)
    case Committing => if it.destination in d.names then !AsExpected(d, it, row) else !StageAsSealed(d, row)
    case Committed => !AsExpected(d, it, row) || !SourceHere(d, it)
    case CleanupPending => !AsExpected(d, it, row) || !SourceHere(d, it) || !ArchiveAbsent(d, it)
    case _ => true
  }

  /** When an item may be declared stale: at the first preflight, and later only if its source has changed
      or, in the commit attempt, its destination is taken. */
  predicate MayExpire(b: Book, d: Disk, it: Item, row: Row) {
    match row.state
    case Pending => b.run == Preflighting
    case PreflightOk => !SourceHere(d, it)
    case Staging => !SourceHere(d, it)
    case Staged => !SourceHere(d, it)
    case Verified => !SourceHere(d, it)
    case Committing => !SourceHere(d, it) || it.destination in d.names
    case _ => false
  }

  ghost predicate MoveRule(plan: Plan, w: World, k: nat, to: ItemState, fields: Fields)
    requires k < |plan.items| && k < |w.book.rows|
  {
    var it, row := plan.items[k], w.book.rows[k];
    match to
    case Pending => false
    case PreflightOk => fields == NoFields && Preflighted(plan, w.disk)
    case Staging => fields == SetStaging(Entry(StageDir(plan, k), Random(w.supply)))
    case Staged => fields == NoFields
    case Verified => fields.SetEvidence? && Evidence(plan, w, k, fields.hash, fields.size)
    case Committing =>
      && fields == NoFields && SourceHere(w.disk, it) && it.destination !in w.disk.names
      && it.destination.dir in w.disk.folders
    case Committed =>
      && fields.SetDestinationHash? && row.stagedHash == Some(fields.digest)
      && Holds(w.disk, it.destination, fields.digest.of)
      && w.disk.files[w.disk.names[it.destination]].mode == it.mode
    case CleanupPending => fields == NoFields && !it.lifecycle.Preserve?
    case Cleaned =>
      && (fields == NoFields || fields.SetCleanup?)
      && it.source !in w.disk.names && OutputHeld(w.disk, it, row) && ArchiveHolds(w.disk, it)
    case Complete => fields == NoFields && (row.state == Committed ==> it.lifecycle.Preserve?)
    case Failed => fields == NoFields && row.state in {Staging, Staged}
    case Stale => fields == NoFields && MayExpire(w.book, w.disk, it, row)
    case RecoveryRequired => fields == NoFields && MayHandOver(w.disk, it, row)
  }

  ghost predicate BookRule(plan: Plan, w: World, k: nat, edit: Edit) {
    && Editable(w.book, k, edit)
    && match edit
       case OpenRun(n) => n == |plan.items|
       case Move(to, fields) => k < |plan.items| && MoveRule(plan, w, k, to, fields)
       case Note => w.book.rows[k].state in {Committing, Committed, CleanupPending}
       case MarkRun(s) =>
         && w.book.begun
         && (s == RunComplete ==> forall j :: 0 <= j < |w.book.rows| ==> w.book.rows[j].state == Complete)
  }

  ghost predicate Permitted(plan: Plan, w: World, k: nat, e: Effect)
    ensures Permitted(plan, w, k, e) ==> Feasible(w, k, e)
  {
    match e
    case OnDisk(op) => DiskRule(plan, w, k, op)
    case OnBook(edit) => BookRule(plan, w, k, edit)
    case Elsewhere(d) => Outside(w.disk, d)
    case Outage(d) => PowerLoss(w.disk, d)
  }

  // ---------------------------------------------------------------- the invariant

  /** Only the destination of a launched item may share the staging file's inode. */
  ghost predicate Exclusive(d: Disk, p: Path, destination: Path, launched: bool) {
    forall q: Path, i: nat :: q != p && Might(d, p, i) && Might(d, q, i) ==> launched && q == destination
  }

  /** What VERIFIED seals: the recorded digest is of bytes that passed verification, and whenever the
      staging name shows up it names exactly those bytes with the published mode, synced. */
  ghost predicate SealedRow(plan: Plan, w: World, k: nat)
    requires k < |plan.items| && k < |w.book.rows|
  {
    var it, row := plan.items[k], w.book.rows[k];
    && row.staging.Some? && row.stagedHash.Some?
    && row.stagedSize == Some(|row.stagedHash.value.of|)
    && plan.writers.valid(it, it.fingerprint.of, row.stagedHash.value.of)
    && forall i: nat :: Might(w.disk, row.staging.value, i) ==>
         && i < |w.disk.files|
         && w.disk.files[i].content == row.stagedHash.value.of
         && w.disk.files[i].mode == it.mode
         && w.disk.files[i].synced && w.disk.files[i].ours
  }

  /** What the columns of a row say about each other. */
  ghost predicate RowShape(plan: Plan, it: Item, row: Row) {
    && (HasStage(row.state) ==> row.staging.Some?)
    && (Published(row.state) ==> row.destinationHash == row.stagedHash)
    && (row.destinationHash.Some? ==>
         row.destinationHash == row.stagedHash && (Published(row.state) || row.state == RecoveryRequired))
    && (row.state in {CleanupPending, Cleaned} ==> !it.lifecycle.Preserve?)
    && (row.stagedHash.Some? ==> row.staging.Some? && (Sealed(row.state) || row.state in {Stale, RecoveryRequired}))
    && (row.state !in {Pending, Stale, RecoveryRequired} || row.staging.Some? ==> Separated(plan))
  }

  ghost predicate RowInv(plan: Plan, w: World, k: nat)
    requires k < |plan.items| && k < |w.book.rows|
  {
    var it, row := plan.items[k], w.book.rows[k];
    && (row.staging.Some? ==>
         && row.staging.value.dir == StageDir(plan, k) && row.staging.value.name.Random?
         && row.staging.value.name.serial < w.supply
         && Exclusive(w.disk, row.staging.value, it.destination, Launched(row.state)))
    && RowShape(plan, it, row)
    && (Sealed(row.state) ==> SealedRow(plan, w, k))
    && Walk(w.book.events, k) == At(row.state)
  }

  ghost predicate PrivateInv(w: World) {
    forall p: Path, i: nat :: p.name.Random? && Might(w.disk, p, i) ==>
      i < |w.disk.files| && w.disk.files[i].ours && p.name.serial < w.supply
  }

  ghost predicate Inv(plan: Plan, w: World) {
    && WellFormed(w.disk)
    && PrivateInv(w)
    && (if w.book.begun then |w.book.rows| == |plan.items| else w.book == EMPTY_BOOK)
    && (w.book.run == RunComplete ==> forall k :: 0 <= k < |w.book.rows| ==> w.book.rows[k].state == Complete)
    && (forall k :: 0 <= k < |w.book.rows| ==> RowInv(plan, w, k))
  }
}
