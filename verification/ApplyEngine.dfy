/** The engine's calls over a whole plan: apply, recover, abandon and inspect. */
module ApplyEngine {
  import opened Disks
  import opened Journals
  import opened Protocol
  import opened Frames
  import opened Recoverable
  import opened Runs
  import opened Conservation
  import opened Dangers
  import opened Filesystem
  import opened Turns
  import opened Actions
  import opened ItemExecution
  import Ledgers
  import Stores

  // ---------------------------------------------------------------- verdicts

  predicate AllIn(b: Book, states: set<ItemState>) {
    forall k :: 0 <= k < |b.rows| ==> b.rows[k].state in states
  }

  predicate AnyIn(b: Book, states: set<ItemState>) {
    exists k :: 0 <= k < |b.rows| && b.rows[k].state in states
  }

  /** What a call that reaches its end says about the run. */
  predicate Verdict(b: Book) {
    && (forall k :: 0 <= k < |b.rows| ==> SettledState(b.rows[k].state))
    && (b.run == RunComplete <==> AllIn(b, {Complete}))
    && (b.run == RunFailed <==> AllIn(b, {Complete, Stale}) && AnyIn(b, {Stale}))
    && b.run in {RunComplete, RunFailed, RunRecoveryRequired}
  }

  /** The items whose published names and directories a power loss cannot take. */
  ghost function FirmItems(plan: Plan, d: Disk): set<nat> {
    set k: nat | k < |plan.items| && Firm(plan, d, k)
  }

  /** Each of these items, as far as there are such. */
  ghost predicate AllFirm(plan: Plan, d: Disk, items: set<nat>) {
    forall k: nat :: k in items && k < |plan.items| ==> Firm(plan, d, k)
  }

  /** Preflight finds nothing wrong with the files of an item. */
  predicate NoFinding(d: Disk, it: Item) {
    PreflightOkFor(d, it) && it.size == |it.fingerprint.of|
  }

  lemma NoFindings(plan: Plan, d: Disk, errors: seq<bool>)
    requires |errors| == |plan.items|
    requires forall i :: 0 <= i < |errors| && !errors[i] ==> NoFinding(d, plan.items[i])
    ensures true !in errors ==> Preflighted(plan, d) && AllClear(plan, d)
    ensures SoundWriters(plan) && Preflighted(plan, d) ==> forall i :: 0 <= i < |errors| ==> NoFinding(d, plan.items[i])
  {
    if true !in errors { assert forall i :: 0 <= i < |errors| ==> errors[i] in errors; }
  }

  /** The item's lifecycle has ended as it should, and its last staging name is gone. */
  ghost predicate ItemFinished(plan: Plan, w: World, k: nat)
    requires k < |plan.items|
  {
    k < |w.book.rows| && Finished(plan, w.disk, plan.items[k]) && StageGone(w.disk, w.book.rows[k])
  }

  ghost predicate AllFinished(plan: Plan, w: World) {
    forall k :: 0 <= k < |plan.items| ==> ItemFinished(plan, w, k)
  }

  /** A plan refused by its first preflight on the disk `d`: the run has failed, the items with a finding are
      stale, perhaps with others for which a check failed, and all others are pending. */
  ghost predicate RefusedAsStale(plan: Plan, b: Book, d: Disk) {
    && b.begun && b.run == RunFailed && |b.rows| == |plan.items|
    && (forall k :: 0 <= k < |b.rows| ==> b.rows[k].state in {Pending, Stale})
    && (exists k :: 0 <= k < |b.rows| && b.rows[k].state == Stale)
    && (forall k :: 0 <= k < |b.rows| && !NoFinding(d, plan.items[k]) ==> b.rows[k].state == Stale)
  }

  /** Stale are exactly the items with a finding. */
  ghost predicate ExactlyStale(plan: Plan, b: Book, d: Disk) {
    |b.rows| == |plan.items| &&
      forall k :: 0 <= k < |b.rows| ==> (b.rows[k].state == Stale <==> !NoFinding(d, plan.items[k]))
  }

  /** No item is given up and, once the run is under way, all are accepted. */
  predicate OnCourse(b: Book) {
    forall k :: 0 <= k < |b.rows| ==>
      !GivenUp(b.rows[k].state) && (b.run != Preflighting ==> b.rows[k].state != Pending)
  }

  lemma OnCourseHopeful(plan: Plan, w: World, oracle: nat -> Answer)
    requires Orderly(plan, w) && OnCourse(w.book) && Reliable(oracle) && SoundWriters(plan)
    ensures Hopeful(plan, w, oracle)
  {
    hide SoundWriters, OnTrack;
    QuietMeans(plan, w);
  }

  /** No item has a finding. */
  ghost predicate AllClear(plan: Plan, d: Disk) {
    forall k :: 0 <= k < |plan.items| ==> NoFinding(d, plan.items[k])
  }

  lemma Refusal(plan: Plan, b: Book, d: Disk, errors: seq<bool>)
    requires b.begun && b.run == RunFailed && |b.rows| == |plan.items| == |errors| && true in errors
    requires forall j :: 0 <= j < |errors| ==> b.rows[j].state == if errors[j] then Stale else Pending
    requires forall j :: 0 <= j < |errors| && !errors[j] ==> NoFinding(d, plan.items[j])
    ensures RefusedAsStale(plan, b, d)
  {
    var j :| 0 <= j < |errors| && errors[j];
    assert b.rows[j].state == Stale;
  }

  /** A refused plan cannot be recovered, but it can be abandoned. */
  lemma RefusedIsClosable(plan: Plan, b: Book, d: Disk)
    requires RefusedAsStale(plan, b, d)
    ensures AnyIn(b, {Stale}) && AllIn(b, ABANDONABLE)
  {
    var k :| 0 <= k < |b.rows| && b.rows[k].state == Stale;
    assert b.rows[k].state in {Stale};
  }

  ghost predicate ByHand(plan: Plan, w: World, k: nat)
    requires k < |plan.items| && k < |w.book.rows|
  {
    Diagnosis(w.disk, plan.items[k], w.book.rows[k]) == Manual
  }

  /** What a proposal says about an item: each where it applies and nowhere else, and a person for every item
      that no transition leads on but for the complete ones. An item on track is left to a person only while
      it is pending or, although recovery finishes it, cleaned up. */
  ghost predicate Fitting(plan: Plan, w: World, k: nat, p: Proposal)
    requires k < |plan.items| && k < |w.book.rows|
  {
    var it, row, d := plan.items[k], w.book.rows[k], w.disk;
    && (p == NothingLeft <==> row.state == Complete)
    && (p == RecognizeCommit <==> row.state == Committing && OutputHeld(d, it, row))
    && (p == PublishRetained <==> row.state in {Verified, Committing} && it.destination !in d.names)
    && (p == ResumeLifecycle <==> row.state in {Committed, CleanupPending} && OutputHeld(d, it, row))
    && (p == RetryStaging <==> row.state in {PreflightOk, Staging, Staged, Failed})
    && (Allowed(row.state) == {} && row.state != Complete ==> p == Manual)
    && (OnTrack(plan, w, k) ==> (p == Manual <==> row.state in {Pending, Cleaned}))
  }

  lemma DiagnosisFits(plan: Plan, w: World, k: nat)
    requires Inv(plan, w) && k < |plan.items| && k < |w.book.rows|
    ensures Fitting(plan, w, k, Diagnosis(w.disk, plan.items[k], w.book.rows[k]))
  {
    assert RowInv(plan, w, k);
  }

  predicate Admitted(l: Ledgers.Ledger, id: nat) {
    Ledgers.Eligible(l, id) && l.plans[id].document.schema == Ledgers.CURRENT_SCHEMA
  }

  /** What a call may do to the plan tables. */
  predicate Ledgered(l: Ledgers.Ledger, m: Ledgers.Ledger, id: nat) {
    m == l || m == Ledgers.Invalidate(l, id) || (Ledgers.Eligible(l, id) && m == Ledgers.RecordRun(l, id))
  }

  lemma StillAdmitted(l: Ledgers.Ledger, id: nat)
    requires Admitted(l, id)
    ensures Admitted(Ledgers.RecordRun(l, id), id)
  {
    var m := Ledgers.RecordRun(l, id);
    forall p | p in m.preconditions && p.plan == id ensures !Ledgers.StaleHead(m, p) && !Ledgers.StaleRun(m, p) {
      assert !Ledgers.StaleHead(l, p) && !Ledgers.StaleRun(l, p);
    }
  }

  predicate Blank(s: string) {
    forall c :: c in s ==> c in {' ', '\t', '\n', '\r'}
  }

  const ABANDONABLE := {Pending, PreflightOk, Failed, Stale, Complete}

  lemma FirmAfterPowerLoss(plan: Plan, w: World)
    requires Settled(w.disk) && WellFormed(w.disk)
    ensures forall k :: 0 <= k < |plan.items| ==> Firm(plan, w.disk, k)
  {
    forall p | p in w.disk.names ensures Secured(w.disk, p) {
      assert w.disk.files[w.disk.names[p]] in w.disk.files;
    }
  }

  lemma UndisturbedDiagnosis(plan: Plan, a: World, w: World, j: nat)
    requires j < |plan.items| && j < |a.book.rows| && WellFormed(a.disk) && WellFormed(w.disk)
    requires Undisturbed(plan, a, w, j)
    ensures j < |w.book.rows| && w.book.rows[j] == a.book.rows[j] && FilesKept(plan, a.disk, w.disk, j)
    ensures Diagnosis(w.disk, plan.items[j], w.book.rows[j]) == Diagnosis(a.disk, plan.items[j], a.book.rows[j])
  {
    var it := plan.items[j];
    assert Concerns(plan, j, it.destination);
    SameHolds(a.disk, w.disk, it.destination);
  }

  /** What was done with an item, and then not disturbed any more. */
  lemma HeededOn(plan: Plan, w: World, v: World, u: World, j: nat)
    requires j < |plan.items| && j < |w.book.rows| && WellFormed(w.disk)
    requires Heeded(plan, w, v, j) && Undisturbed(plan, v, u, j)
    ensures Heeded(plan, w, u, j)
  {
    hide WellFormed, Same, Diagnosis;
    var t := plan.items[j].destination;
    assert Concerns(plan, j, t);
    if Same(w.disk, v.disk, t) { SameTrans(w.disk, v.disk, u.disk, t); }
    if FilesKept(plan, w.disk, v.disk, j) { FilesKeptTrans(plan, w.disk, v.disk, u.disk, j); }
  }

  /** And what was done with an item that had not been disturbed before. */
  lemma HeededFrom(plan: Plan, w: World, v: World, u: World, j: nat)
    requires j < |plan.items| && j < |w.book.rows| && WellFormed(w.disk) && WellFormed(v.disk)
    requires Undisturbed(plan, w, v, j) && Heeded(plan, v, u, j)
    ensures Heeded(plan, w, u, j)
  {
    UndisturbedDiagnosis(plan, w, v, j);
    hide WellFormed, Same, Diagnosis;
    var t := plan.items[j].destination;
    assert Concerns(plan, j, t);
    if Same(v.disk, u.disk, t) { SameTrans(w.disk, v.disk, u.disk, t); }
    if FilesKept(plan, v.disk, u.disk, j) { FilesKeptTrans(plan, w.disk, v.disk, u.disk, j); }
  }

  lemma FilesKeptTrans(plan: Plan, d: Disk, e: Disk, f: Disk, j: nat)
    requires j < |plan.items| && WellFormed(d) && FilesKept(plan, d, e, j) && FilesKept(plan, e, f, j)
    ensures FilesKept(plan, d, f, j)
  {
    forall p | Concerns(plan, j, p) ensures Same(d, f, p) { SameTrans(d, e, f, p); }
  }

  /** A run just opened on a disk that passes preflight is on track. */
  lemma FreshQuiet(plan: Plan, w: World)
    requires w.book.begun && w.book.rows == seq(|plan.items|, _ => FRESH_ROW) && Preflighted(plan, w.disk)
    ensures Quiet(plan, w)
  {
  }

  lemma CompleteFinished(plan: Plan, w: World)
    requires Orderly(plan, w)
    ensures forall k :: 0 <= k < |plan.items| && w.book.rows[k].state == Complete ==> ItemFinished(plan, w, k)
    ensures AllIn(w.book, {Complete}) ==> AllFinished(plan, w)
  {
    forall k | 0 <= k < |plan.items| && w.book.rows[k].state == Complete ensures ItemFinished(plan, w, k) {
      assert OnTrack(plan, w, k);
    }
    if AllIn(w.book, {Complete}) {
      forall k | 0 <= k < |plan.items| ensures ItemFinished(plan, w, k) {
        assert w.book.rows[k].state in {Complete};
      }
    }
  }

  /** The items before item `k` are complete. */
  predicate Turning(plan: Plan, w: World, k: nat) {
    k < |plan.items| && k < |w.book.rows| && forall j :: 0 <= j < k ==> w.book.rows[j].state == Complete
  }

  /** The item that is next begins its turn on the disk that `w` has. */
  ghost predicate NextFromThere(plan: Plan, w: World, tr: seq<Step>, since: nat) {
    forall k: nat :: Turning(plan, w, k) ==> BeganOn(tr, since, w.disk, k)
  }

  lemma NoTurnsYet(plan: Plan, w: World, tr: seq<Step>, since: nat)
    requires OnlyBefore(tr, since, 0, |plan.items|)
    ensures NextFromThere(plan, w, tr, since)
  {
  }

  lemma NextGoesOn(plan: Plan, w: World, tr: seq<Step>, all: seq<Step>, since: nat, i: nat, a: World)
    requires since <= |tr| && OnlyBefore(tr, since, i, |plan.items|) && i < |plan.items| && OneTurn(tr, all, i, a)
    requires NextFromThere(plan, w, tr, since) && (Turning(plan, w, i) ==> a.disk == w.disk)
    ensures NextFromThere(plan, w, all, since)
  {
    hide BeganOn, OneTurn, OnlyBefore, Turning;
    forall k: nat | Turning(plan, w, k) ensures BeganOn(all, since, w.disk, k) {
      BeganOnNext(tr, all, since, w.disk, k, i, |plan.items|, a);
    }
  }

  /** The run's own journal entries are no item's turn. */
  lemma NextStill(plan: Plan, w: World, v: World, tr: seq<Step>, all: seq<Step>, since: nat)
    requires since <= |tr| && tr <= all && NextFromThere(plan, w, tr, since)
    requires forall m :: |tr| <= m < |all| ==> all[m].item == RunItself(plan)
    requires v.disk == w.disk && v.book.rows == w.book.rows
    ensures NextFromThere(plan, v, all, since)
  {
    forall k: nat | Turning(plan, v, k) ensures BeganOn(all, since, v.disk, k) {
      assert Turning(plan, w, k);
      BeganOnStill(tr, all, since, w.disk, k);
    }
  }

  lemma TurningState(plan: Plan, w: World, k: nat, i: nat)
    requires Turning(plan, w, k) && i < k
    ensures i < |w.book.rows| && w.book.rows[i].state == Complete
  {
  }

  /** With every item a call did what the inspection proposed before it. */
  ghost predicate AllHeeded(plan: Plan, w: World, v: World) {
    |w.book.rows| == |plan.items| && forall j :: 0 <= j < |plan.items| ==> Heeded(plan, w, v, j)
  }

  /** The first `i` items that had not been accepted were handed over to a person. */
  predicate HandedOver(b: Book, c: Book, i: nat) {
    |c.rows| == |b.rows| &&
      forall j :: 0 <= j < i && j < |b.rows| && b.rows[j].state == Pending ==> c.rows[j].state == RecoveryRequired
  }

  /** A pass over the items, which began in world `w`, stands in world `v` before item `i`. */
  ghost predicate Passed(plan: Plan, w: World, v: World, i: nat) {
    && AllHeeded(plan, w, v) && HandedOver(w.book, v.book, i)
    && forall j :: i <= j < |plan.items| ==> Undisturbed(plan, w, v, j)
  }

  lemma PassEnds(plan: Plan, w: World, v: World)
    requires Passed(plan, w, v, |plan.items|)
    ensures AllHeeded(plan, w, v) && HandedOver(w.book, v.book, |plan.items|)
  {
  }

  /** The run's own entries do not matter. */
  lemma SameHands(plan: Plan, w: World, v: World, u: World)
    requires AllHeeded(plan, w, v) && u.disk == v.disk && u.book.rows == v.book.rows
    ensures AllHeeded(plan, w, u)
    ensures HandedOver(w.book, v.book, |plan.items|) ==> HandedOver(w.book, u.book, |plan.items|)
  {
    hide Diagnosis, FilesKept, Same;
    forall j | 0 <= j < |plan.items| ensures Heeded(plan, w, u, j) { assert Heeded(plan, w, v, j); }
  }

  /** What was kept since the run was marked was kept since before. */
  lemma HandsFrom(plan: Plan, w: World, v: World, u: World)
    requires v.disk == w.disk && v.book.rows == w.book.rows && AllHeeded(plan, v, u)
    ensures AllHeeded(plan, w, u)
    ensures HandedOver(v.book, u.book, |plan.items|) ==> HandedOver(w.book, u.book, |plan.items|)
  {
    hide Diagnosis, FilesKept, Same;
    forall j | 0 <= j < |plan.items| ensures Heeded(plan, w, u, j) { assert Heeded(plan, v, u, j); }
  }

  lemma PendingLeft(b: Book, c: Book)
    requires Verdict(c) && HandedOver(b, c, |b.rows|)
    ensures c.run == RunComplete ==> NonePending(b)
  {
    if c.run == RunComplete {
      forall k | 0 <= k < |b.rows| ensures b.rows[k].state != Pending {
        assert c.rows[k].state in {Complete};
      }
    }
  }

  /** The first `i` items are settled and, if nothing but kills can go wrong, complete if they had been
      accepted and not given up. */
  predicate Worked(w: World, v: World, i: nat, bright: bool) {
    |v.book.rows| == |w.book.rows| && forall j :: 0 <= j < i && j < |v.book.rows| ==>
      && SettledState(v.book.rows[j].state)
      && (bright && Hoped(w.book.rows[j].state) ==> v.book.rows[j].state == Complete)
  }

  /** No item was given up. */
  predicate NoneLost(w: World, v: World) {
    |v.book.rows| == |w.book.rows| && forall j :: 0 <= j < |v.book.rows| ==>
      Hoped(w.book.rows[j].state) ==> Hoped(v.book.rows[j].state)
  }

  lemma NonePassed(plan: Plan, w: World, bright: bool)
    requires |w.book.rows| == |plan.items|
    ensures Passed(plan, w, w, 0) && Worked(w, w, 0, bright) && NoneLost(w, w)
  {
    forall j | 0 <= j < |plan.items| ensures Heeded(plan, w, w, j) { HeededStill(plan, w, j); }
  }

  /** What recovery may hope for is all of a run in which nothing was given up. */
  lemma AllHoped(plan: Plan, w: World, v: World)
    requires NoneLost(w, v) && Quiet(plan, w) && NonePending(w.book) && Orderly(plan, v)
    ensures Quiet(plan, v) && NonePending(v.book)
  {
    hide Orderly, Inv;
    forall k | 0 <= k < |w.book.rows| ensures Hoped(w.book.rows[k].state) { assert OnTrack(plan, w, k); }
    QuietMeans(plan, v);
  }

  /** What a pass over all items leaves, if nothing but kills could go wrong. */
  lemma AllWorked(plan: Plan, w: World, v: World)
    requires Worked(w, v, |plan.items|, true) && |w.book.rows| == |plan.items| && Orderly(plan, v)
    ensures HopesFulfilled(plan, w, v)
    ensures Quiet(plan, w) && NonePending(w.book) ==> AllIn(v.book, {Complete}) && AllFinished(plan, v)
  {
    hide Orderly;
    CompleteFinished(plan, v);
    if Quiet(plan, w) && NonePending(w.book) {
      forall k | 0 <= k < |v.book.rows| ensures v.book.rows[k].state in {Complete} {
        assert OnTrack(plan, w, k) && Hoped(w.book.rows[k].state);
      }
    }
  }

  /** Every item that had been accepted and not given up is complete. */
  ghost predicate HopesFulfilled(plan: Plan, w: World, v: World) {
    |v.book.rows| == |w.book.rows| == |plan.items| && forall k :: 0 <= k < |plan.items| ==>
      Hoped(w.book.rows[k].state) ==> v.book.rows[k].state == Complete && ItemFinished(plan, v, k)
  }

  lemma StandsFirm(plan: Plan, w: World, v: World, i: nat, items: set<nat>)
    requires i < |plan.items| && Passed(plan, w, v, i) && WellFormed(w.disk) && WellFormed(v.disk)
    requires AllFirm(plan, w.disk, items) && (items != {} ==> v.disk.loose <= w.disk.loose)
    ensures i in items ==> Firm(plan, v.disk, i)
  {
    if i in items { UndisturbedFirm(plan, w, v, i); }
  }

  lemma QuietNotStale(plan: Plan, w: World)
    requires Quiet(plan, w)
    ensures !AnyIn(w.book, {Stale})
  {
    forall k | 0 <= k < |w.book.rows| ensures w.book.rows[k].state !in {Stale} {
      assert OnTrack(plan, w, k);
    }
  }

  lemma SmoothIsUnfailing(oracle: nat -> Answer, from: nat)
    requires Smooth(oracle, from)
    ensures Unfailing(oracle, from)
  {
  }

  class ApplyEngine {
    const machine: Machine
    const desk: Desk
    const items: ItemEngine
    const store: Stores.PlanStore
    const planId: nat

    constructor (machine: Machine, plan: Plan, store: Stores.PlanStore, planId: nat, ghost origin: World)
      requires Shaped(plan) && Inv(plan, origin) && !origin.book.begun
      requires Run(plan, origin, machine.trace, machine.world)
      requires machine.world.book.begun ==> planId in store.db.ledger.runs
      ensures Valid() && this.machine == machine && desk.plan == plan && this.store == store && this.planId == planId
      ensures desk.origin == origin && fresh(desk)
    {
      this.machine, this.store, this.planId := machine, store, planId;
      var d := new Desk(machine, plan, origin);
      desk := d;
      items := new ItemEngine(d);
      new;
      d.Promises();
    }

    ghost predicate Valid()
      reads this, desk, machine, store.db
    {
      && desk.machine == machine && items.desk == desk && desk.Valid() && !desk.origin.book.begun
      && (machine.world.book.begun ==> |machine.world.book.rows| == |desk.plan.items|)
      && (machine.world.book.begun ==> planId in store.db.ledger.runs)
    }

    ghost predicate Begun()
      reads this, desk, machine, store.db
    {
      Valid() && machine.world.book.begun
    }

    /** The unlinks since `since` of these items are firm. */
    ghost predicate FirmCall(since: nat, items: set<nat>)
      reads machine
    {
      forall j :: j in items ==> FirmFrom(desk.plan, machine.trace, since, j)
    }

    /** The plan is admitted, and nothing cuts a call short from now on. */
    ghost predicate Uncut()
      reads machine, store.db
    {
      Admitted(store.db.ledger, planId) && Smooth(machine.oracle, machine.tick)
    }

    /** Nothing but kills can go wrong: no interference, sound writers, and no call fails from now on. */
    ghost predicate Bright()
      reads desk
    {
      desk.mode.orderly && desk.mode.sure
    }

    // -------------------------------------------------------------- apply

    method PreflightAll() returns (r: Outcome, errors: seq<bool>)
      requires Begun()
      modifies machine`tick
      ensures Begun() && machine.tick >= old(machine.tick) && r in {Done, Killed}
      ensures Excused(machine.oracle, old(machine.tick), r)
      ensures r == Done ==>
        && |errors| == |desk.plan.items|
        && (forall i :: 0 <= i < |errors| && !errors[i] ==> NoFinding(machine.world.disk, desk.plan.items[i]))
        && (desk.mode.sure ==>
          forall i :: 0 <= i < |errors| && errors[i] ==> !NoFinding(machine.world.disk, desk.plan.items[i]))
    {
      hide Desk.Valid, Inv;
      r, errors := Done, [];
      for i := 0 to |desk.plan.items|
        invariant Begun() && machine.tick >= old(machine.tick) && r == Done && |errors| == i
        invariant forall j :: 0 <= j < i && !errors[j] ==> NoFinding(machine.world.disk, desk.plan.items[j])
        invariant desk.mode.sure ==> forall j :: 0 <= j < i && errors[j] ==>
                  !NoFinding(machine.world.disk, desk.plan.items[j])
      {
        var it, d := desk.plan.items[i], machine.world.disk;
        var capable := desk.Prepare();
        if capable == Killed { r := Killed; return; }
        var bad := capable != Done || it.size != |it.fingerprint.of| || !PreflightOkFor(d, it);
        errors := errors + [bad];
      }
      for i := 0 to |desk.plan.items|
        invariant Begun() && machine.tick >= old(machine.tick) && r == Done && |errors| == |desk.plan.items|
        invariant forall j :: 0 <= j < |errors| && !errors[j] ==> NoFinding(machine.world.disk, desk.plan.items[j])
        invariant desk.mode.sure ==> forall j :: 0 <= j < |errors| && errors[j] ==>
                  !NoFinding(machine.world.disk, desk.plan.items[j])
      {
        var space := desk.Prepare();
        if space == Killed { r := Killed; return; }
        if space != Done { errors := errors[i := true]; }
      }
    }

    /** Mark the items that failed preflight as stale and the run as failed. */
    method RefuseStale(errors: seq<bool>) returns (r: Outcome)
      requires Begun() && |errors| == |desk.plan.items| && AllFresh(0) && machine.world.book.run == Preflighting
      requires AllFirm(desk.plan, machine.world.disk, desk.mode.firm)
      requires forall j :: 0 <= j < |machine.world.book.rows| ==> machine.world.book.rows[j].state == Pending
      modifies machine`tick, machine`world, machine`trace, machine`actor, desk`anchor, desk`mode
      ensures Begun() && machine.tick >= old(machine.tick) && r in {Done, Killed}
      ensures Excused(machine.oracle, old(machine.tick), r)
      ensures machine.world.disk == old(machine.world.disk)
      ensures r == Done ==> machine.world.book.run == RunFailed && forall j :: 0 <= j < |errors| ==>
                machine.world.book.rows[j].state == if errors[j] then Stale else Pending
      ensures SameCall(old(desk.mode), desk.mode)
    {
      hide Desk.Valid, Inv, Fresh, Firm;
      for i := 0 to |errors|
        invariant Begun() && machine.tick >= old(machine.tick) && SameCall(old(desk.mode), desk.mode) && AllFresh(i)
        invariant machine.world.disk == old(machine.world.disk) && machine.world.book.run == Preflighting
        invariant forall j :: 0 <= j < |errors| ==>
                    machine.world.book.rows[j].state == if j < i && errors[j] then Stale else Pending
      {
        if errors[i] {
          :- MoveOne(i, Stale);
        }
      }
      r := desk.SetRun(RunFailed);
    }

    /** A turn that only moves a pending item on. */
    method MoveOne(i: nat, to: ItemState) returns (r: Outcome)
      requires Begun() && i < |desk.plan.items| && AllFresh(i) && desk.State(i) == Pending
      requires AllFirm(desk.plan, machine.world.disk, desk.mode.firm)
      requires if to == PreflightOk then desk.mode.accepting && Preflighted(desk.plan, machine.world.disk)
               else to == Stale && machine.world.book.run == Preflighting
      modifies machine`tick, machine`world, machine`trace, machine`actor, desk`anchor, desk`mode
      ensures Begun() && machine.tick >= old(machine.tick) && r in {Done, Killed}
      ensures Excused(machine.oracle, old(machine.tick), r)
      ensures machine.world.disk == old(machine.world.disk) && machine.world.book.run == old(machine.world.book.run)
      ensures |machine.world.book.rows| == |old(machine.world).book.rows|
      ensures forall j :: 0 <= j < |machine.world.book.rows| ==>
                machine.world.book.rows[j].state ==
                  if j == i && r == Done then to else old(machine.world).book.rows[j].state
      ensures SameCall(old(desk.mode), desk.mode) && AllFresh(i + 1)
    {
      hide Desk.Valid, Inv, Fresh, Firm, Carries, Preflighted;
      ghost var w := machine.world;
      desk.BeginTurn(i);
      r := desk.Transition(i, to, NoFields);
      OthersAfterTurn(i, w);
      TurnTraced(i, w);
    }

    /** The items from `i` on have not begun their turns. */
    ghost predicate AllFresh(i: nat)
      reads machine, desk
    {
      forall j: nat :: i <= j < |desk.plan.items| ==> Fresh(machine.trace, |desk.mode.before|, j)
    }

    method AcceptAll() returns (r: Outcome)
      requires Begun() && desk.mode.accepting && Preflighted(desk.plan, machine.world.disk) && AllFresh(0)
      requires AllFirm(desk.plan, machine.world.disk, desk.mode.firm)
      requires forall j :: 0 <= j < |machine.world.book.rows| ==> machine.world.book.rows[j].state == Pending
      modifies machine`tick, machine`world, machine`trace, machine`actor, desk`anchor, desk`mode
      ensures Begun() && machine.tick >= old(machine.tick) && r in {Done, Killed}
      ensures Excused(machine.oracle, old(machine.tick), r)
      ensures machine.world.disk == old(machine.world.disk)
      ensures r == Done ==> forall j :: 0 <= j < |machine.world.book.rows| ==>
                machine.world.book.rows[j].state == PreflightOk
      ensures machine.world.book.run == old(machine.world.book.run)
      ensures forall j :: 0 <= j < |machine.world.book.rows| ==>
                machine.world.book.rows[j].state in {Pending, PreflightOk}
      ensures SameCall(old(desk.mode), desk.mode)
    {
      hide Desk.Valid, Inv, Fresh, Firm;
      for i := 0 to |desk.plan.items|
        invariant Begun() && machine.tick >= old(machine.tick) && SameCall(old(desk.mode), desk.mode) && AllFresh(i)
        invariant machine.world.disk == old(machine.world.disk) && machine.world.book.run == old(machine.world.book.run)
        invariant forall j :: 0 <= j < |machine.world.book.rows| ==>
                    machine.world.book.rows[j].state == if j < i then PreflightOk else Pending
      {
        :- MoveOne(i, PreflightOk);
      }
      return Done;
    }

    method ExecuteAll() returns (r: Outcome)
      requires Begun() && AllFirm(desk.plan, machine.world.disk, desk.mode.firm) && AllFresh(0)
      requires forall j :: 0 <= j < |machine.world.book.rows| ==> machine.world.book.rows[j].state == PreflightOk
      modifies machine`tick, machine`world, machine`trace, machine`actor, desk`anchor, desk`mode
      ensures Begun() && machine.tick >= old(machine.tick) && r in {Done, Killed}
      ensures Excused(machine.oracle, old(machine.tick), r)
      ensures r == Done ==> forall j :: 0 <= j < |machine.world.book.rows| ==>
                SettledState(machine.world.book.rows[j].state)
      ensures r == Done && Bright() ==> AllIn(machine.world.book, {Complete})
      ensures Bright() ==> forall j :: 0 <= j < |machine.world.book.rows| ==> Hoped(machine.world.book.rows[j].state)
      ensures SameCall(old(desk.mode), desk.mode)
    {
      hide Desk.Valid, Inv, Fresh, Firm, Undisturbed, Carries, Desk.Promised;
      for i := 0 to |desk.plan.items|
        invariant Begun() && machine.tick >= old(machine.tick) && SameCall(old(desk.mode), desk.mode) && AllFresh(i)
        invariant forall j :: 0 <= j < i ==> SettledState(machine.world.book.rows[j].state)
        invariant forall j :: 0 <= j < i && Bright() ==> machine.world.book.rows[j].state == Complete
        invariant forall j :: i <= j < |machine.world.book.rows| ==> machine.world.book.rows[j].state == PreflightOk
        invariant forall j :: i <= j < |machine.world.book.rows| && j in desk.mode.firm ==>
                  Firm(desk.plan, machine.world.disk, j)
      {
        :- ExecuteOne(i);
      }
      return Done;
    }

    method ExecuteOne(i: nat) returns (r: Outcome)
      requires Begun() && i < |desk.plan.items| && AllFresh(i) && desk.State(i) == PreflightOk
      requires i in desk.mode.firm ==> Firm(desk.plan, machine.world.disk, i)
      modifies machine`tick, machine`world, machine`trace, machine`actor, desk`anchor, desk`mode
      ensures Begun() && machine.tick >= old(machine.tick) && r in {Done, Killed}
      ensures Excused(machine.oracle, old(machine.tick), r)
      ensures r == Done ==> SettledState(desk.State(i)) && (Bright() ==> desk.State(i) == Complete)
      ensures Bright() ==> Hoped(desk.State(i))
      ensures |machine.world.book.rows| == |old(machine.world).book.rows|
      ensures machine.world.book.run == old(machine.world.book.run)
      ensures forall j :: 0 <= j < |machine.world.book.rows| && j != i ==>
                machine.world.book.rows[j] == old(machine.world).book.rows[j]
      ensures r == Done ==> forall j :: 0 <= j < |machine.world.book.rows| && j != i && j in desk.mode.firm ==>
                (old(Firm(desk.plan, machine.world.disk, j)) ==> Firm(desk.plan, machine.world.disk, j))
      ensures SameCall(old(desk.mode), desk.mode) && AllFresh(i + 1)
    {
      hide Desk.Valid, Inv, Fresh, Firm, Undisturbed, Carries, Desk.Promised;
      ghost var w := machine.world;
      desk.BeginTurn(i);
      r := items.ExecuteTurn(i);
      OthersAfterTurn(i, w);
      TurnTraced(i, w);
      StillHoped(i, w);
    }

    /** While nothing but kills can go wrong, the item of a turn is not given up. */
    lemma StillHoped(k: nat, w: World)
      requires desk.machine == machine && desk.Ready(k) && desk.anchor == w && k < |w.book.rows|
      ensures Bright() && Hoped(w.book.rows[k].state) ==> Hoped(desk.State(k))
    {
      hide Desk.Valid;
    }

    /** A finished turn left the other items alone. */
    lemma OthersAfterTurn(k: nat, w: World)
      requires desk.machine == machine && desk.Ready(k) && desk.anchor == w && w.book.begun
      requires |w.book.rows| == |desk.plan.items|
      ensures WellFormed(w.disk) && machine.world.book.begun && machine.world.book.run == w.book.run
      ensures |machine.world.book.rows| == |w.book.rows|
      ensures forall j :: 0 <= j < |w.book.rows| && j != k ==>
                && Undisturbed(desk.plan, w, machine.world, j)
                && machine.world.book.rows[j] == w.book.rows[j]
                && (machine.world.disk.loose <= w.disk.loose && Firm(desk.plan, w.disk, j) ==>
                  Firm(desk.plan, machine.world.disk, j))
    {
      forall j | 0 <= j < |w.book.rows| && j != k
        ensures Undisturbed(desk.plan, w, machine.world, j)
        ensures machine.world.disk.loose <= w.disk.loose && Firm(desk.plan, w.disk, j) ==>
                  Firm(desk.plan, machine.world.disk, j)
      {
        if machine.world.disk.loose <= w.disk.loose && Firm(desk.plan, w.disk, j) {
          UndisturbedFirm(desk.plan, w, machine.world, j);
        }
      }
    }

    /** A turn made steps of its own item only, so others' turns can follow. */
    lemma TurnTraced(k: nat, w: World)
      requires desk.machine == machine && desk.Ready(k) && desk.anchor == w
      ensures OneTurn(desk.mode.mark, machine.trace, k, w)
      ensures forall j: nat :: j != k && Fresh(desk.mode.mark, |desk.mode.before|, j) ==>
                Fresh(machine.trace, |desk.mode.before|, j)
    {
      hide OneTurn, Fresh, Run, Steady, Firm, Inv, TrueTurns, FirmFrom, EngineFrom;
      OwnIsOneTurn(w, k, machine.trace, machine.world, desk.mode);
      forall j: nat | j != k && Fresh(desk.mode.mark, |desk.mode.before|, j)
        ensures Fresh(machine.trace, |desk.mode.before|, j)
      {
        FreshAfter(desk.mode.mark, machine.trace, |desk.mode.before|, k, w, j);
      }
    }

    method Finalize() returns (r: Outcome)
      requires Begun()
      requires forall j :: 0 <= j < |machine.world.book.rows| ==> SettledState(machine.world.book.rows[j].state)
      modifies machine`tick, machine`world, machine`trace, desk`anchor, desk`mode
      ensures Begun() && machine.tick >= old(machine.tick) && r in {Done, Killed}
      ensures Excused(machine.oracle, old(machine.tick), r)
      ensures machine.world.disk == old(machine.world.disk) && machine.world.book.rows == old(machine.world.book.rows)
      ensures r == Killed ==> machine.world.book.run == old(machine.world.book.run)
      ensures r == Done ==> Verdict(machine.world.book)
      ensures old(machine.trace) <= machine.trace && SameCall(old(desk.mode), desk.mode)
      ensures forall m :: |old(machine.trace)| <= m < |machine.trace| ==>
                machine.trace[m].item == RunItself(desk.plan)
      ensures old(machine.world.book.run) != Preflighting ==> machine.world.book.run != Preflighting
    {
      hide Desk.Valid, Inv;
      var b := machine.world.book;
      if AllIn(b, {Complete}) {
        r := desk.SetRun(RunComplete);
      } else if AnyIn(b, {RecoveryRequired, Failed, Committing, Committed, CleanupPending}) {
        r := desk.SetRun(RunRecoveryRequired);
      } else {
        r := desk.SetRun(RunFailed);
      }
    }

    /** May the plan be applied or recovered at all? */
    method Admit() returns (ok: bool)
      requires Valid()
      modifies store.db
      ensures Valid() && ok == Admitted(old(store.db.ledger), planId)
      ensures Ledgered(old(store.db.ledger), store.db.ledger, planId)
      ensures (ok ==> store.db.ledger == old(store.db.ledger))
      ensures ok ==> store.db.ledger.plans[planId].document.schema == Ledgers.CURRENT_SCHEMA
    {
      ok := store.EligiblePlan(planId);
      ok := ok && store.db.ledger.plans[planId].document.schema == Ledgers.CURRENT_SCHEMA;
    }

    method Apply() returns (r: Outcome)
      requires Valid()
      modifies machine`tick, machine`world, machine`trace, machine`actor
      modifies desk`anchor, desk`mode, store.db
      ensures Valid() && machine.tick >= old(machine.tick) && Excused(machine.oracle, old(machine.tick), r)
      ensures Ledgered(old(store.db.ledger), store.db.ledger, planId)
      ensures Admitted(old(store.db.ledger), planId) ==> Admitted(store.db.ledger, planId)
      ensures !Admitted(old(store.db.ledger), planId) || old(machine.world.book.begun) ==>
                r == Raised(Invalid) && machine.world == old(machine.world) && machine.trace == old(machine.trace)
      ensures r == Done ==> machine.world.book.begun && Verdict(machine.world.book)
      ensures old(machine.trace) <= machine.trace && EngineFrom(machine.trace, old(|machine.trace|), true)
      ensures Reliable(machine.oracle) ==> FirmCall(old(|machine.trace|), old(FirmItems(desk.plan, machine.world.disk)))
      ensures TrueTurns(desk.plan, machine.trace, old(|machine.trace|))
      ensures r.Raised? ==> machine.world.disk == old(machine.world.disk)
      ensures r == Raised(StaleSource) ==>
                RefusedAsStale(desk.plan, machine.world.book, machine.world.disk) && Abandonable()
      ensures r == Done ==> AllClear(desk.plan, old(machine.world.disk))
      ensures r in {Done, Killed, Raised(Io), Raised(Invalid), Raised(StaleSource)}
      ensures old(Admitted(store.db.ledger, planId) && !machine.world.book.begun
                && Unfailing(machine.oracle, machine.tick) && !AllClear(desk.plan, machine.world.disk)) ==>
                r in {Killed, Raised(StaleSource)} &&
                (r == Raised(StaleSource) ==> ExactlyStale(desk.plan, machine.world.book, machine.world.disk))
      ensures old(Fit()) && machine.world.book.begun ==> Orderly(desk.plan, machine.world)
      ensures old(Ripe()) && machine.world.book.begun ==> Hopeful(desk.plan, machine.world, machine.oracle)
      ensures old(Ripe()) && r == Done ==>
                machine.world.book.run == RunComplete && AllFinished(desk.plan, machine.world)
      ensures old(Ripe() && Admitted(store.db.ledger, planId)) ==> r in {Done, Killed}
      ensures old(Ripe() && Uncut()) ==> r == Done
    {
      hide Desk.Valid, Inv, Run, Quiet, FirmFrom, EngineFrom, TrueTurns, Verdict, AllFinished, Ledgers.Eligible, Firm,
        Fresh, Hopeful, WellFormed, SoundWriters, Preflighted, Ledgered, Orderly, RefusedAsStale, NoFinding, AllClear,
        ApplyEngine.FirmCall, AllFirm, FirmItems, Unfailing, Reliable;
      ghost var ripe, since := Ripe(), |machine.trace|;
      StartApply();
      var ok := Admit();
      if !ok || machine.world.book.begun {
        CallTold(since, true);
        return Raised(Invalid);
      }
      r := ApplyAdmitted();
      CallTold(since, true);
      desk.Promises();
      if r == Raised(StaleSource) { RefusedIsClosable(desk.plan, machine.world.book, machine.world.disk); }
      if ripe && machine.world.book.begun { OnCourseHopeful(desk.plan, machine.world, machine.oracle); }
    }

    /** An apply begins. */
    ghost method StartApply()
      requires Valid()
      modifies desk`anchor, desk`mode
      ensures Valid() && machine.trace == desk.mode.before && desk.mode.accepting
      ensures desk.mode.firm == if Reliable(machine.oracle) then FirmItems(desk.plan, machine.world.disk) else {}
      ensures AllFirm(desk.plan, machine.world.disk, desk.mode.firm)
      ensures desk.mode.orderly == Fit() && desk.mode.sure == Unfailing(machine.oracle, machine.tick)
      ensures Ripe() ==> Bright() && Reliable(machine.oracle) && SoundWriters(desk.plan)
      ensures Smooth(machine.oracle, machine.tick) ==> desk.mode.sure
      ensures WellFormed(machine.world.disk)
    {
      hide Desk.Valid, Inv, SoundWriters, Firm, Preflighted, WellFormed;
      if Smooth(machine.oracle, machine.tick) { SmoothIsUnfailing(machine.oracle, machine.tick); }
      desk.BeginCall(true, if Reliable(machine.oracle) then FirmItems(desk.plan, machine.world.disk) else {}, Fit());
      desk.Promises();
    }

    /** Create the run and work it off. */
    method ApplyAdmitted() returns (r: Outcome)
      requires Valid() && !machine.world.book.begun && Admitted(store.db.ledger, planId)
      requires desk.mode.orderly ==> Preflighted(desk.plan, machine.world.disk)
      requires desk.mode.accepting && AllFirm(desk.plan, machine.world.disk, desk.mode.firm)
      modifies machine`tick, machine`world, machine`trace, machine`actor
      modifies desk`anchor, desk`mode, store.db
      ensures Valid() && machine.tick >= old(machine.tick) && Excused(machine.oracle, old(machine.tick), r)
      ensures Ledgered(old(store.db.ledger), store.db.ledger, planId) && Admitted(store.db.ledger, planId)
      ensures r == Done ==> machine.world.book.begun && Verdict(machine.world.book)
      ensures SameCall(old(desk.mode), desk.mode)
      ensures r in {Done, Killed, Raised(Io), Raised(StaleSource)} && (desk.mode.sure ==> r != Raised(Io))
      ensures r.Raised? ==> machine.world.disk == old(machine.world.disk)
      ensures r == Raised(StaleSource) ==> RefusedAsStale(desk.plan, machine.world.book, machine.world.disk)
      ensures r == Raised(StaleSource) && desk.mode.sure ==>
                ExactlyStale(desk.plan, machine.world.book, machine.world.disk)
      ensures r == Done ==> AllClear(desk.plan, old(machine.world.disk))
      ensures Bright() ==> r in {Done, Killed}
      ensures Bright() && machine.world.book.begun ==> OnCourse(machine.world.book)
      ensures Bright() && r == Done ==> machine.world.book.run == RunComplete && AllFinished(desk.plan, machine.world)
    {
      hide Desk.Valid, Inv, Quiet, Verdict, AllFinished, Ledgers.Eligible, PreflightOkFor, Firm, Fresh,
        SoundWriters, Preflighted, Orderly, RefusedAsStale, ExactlyStale, AllClear;
      :- desk.Prepare();
      :- desk.OpenRun();
      StillAdmitted(store.db.ledger, planId);
      store.db.ledger := Ledgers.RecordRun(store.db.ledger, planId);
      r := RunPlan();
    }

    /** Everything after the run was created. */
    method RunPlan() returns (r: Outcome)
      requires Begun() && desk.mode.accepting && machine.world.book.run == Preflighting && AllFresh(0)
      requires forall j :: 0 <= j < |machine.world.book.rows| ==> machine.world.book.rows[j].state == Pending
      requires AllFirm(desk.plan, machine.world.disk, desk.mode.firm)
      requires desk.mode.orderly ==> Preflighted(desk.plan, machine.world.disk)
      modifies machine`tick, machine`world, machine`trace, machine`actor, desk`anchor, desk`mode
      ensures Begun() && machine.tick >= old(machine.tick) && Excused(machine.oracle, old(machine.tick), r)
      ensures r == Done ==> Verdict(machine.world.book)
      ensures r in {Done, Killed, Raised(StaleSource)}
      ensures r.Raised? ==> machine.world.disk == old(machine.world.disk)
      ensures r == Raised(StaleSource) ==> RefusedAsStale(desk.plan, machine.world.book, machine.world.disk)
      ensures r == Raised(StaleSource) && desk.mode.sure ==>
                ExactlyStale(desk.plan, machine.world.book, machine.world.disk)
      ensures r == Done ==> AllClear(desk.plan, old(machine.world.disk))
      ensures Bright() ==> r in {Done, Killed} && OnCourse(machine.world.book)
      ensures Bright() && r == Done ==> machine.world.book.run == RunComplete && AllFinished(desk.plan, machine.world)
      ensures SameCall(old(desk.mode), desk.mode)
    {
      hide Desk.Valid, Inv, Verdict, AllFinished, AllFirm, Preflighted, WellFormed, Rooted, Shaped, ArchiveHolds,
        PreflightOkFor, OutputHeld, MayRemoveSource, MayDropStage, Evidence, RowInv, Run, InTurn, Orderly,
        RefusedAsStale;
      desk.Promises();
      var errors;
      r, errors := PreflightAll();
      if r != Done { return; }
      NoFindings(desk.plan, machine.world.disk, errors);
      if true in errors {
        :- RefuseStale(errors);
        Refusal(desk.plan, machine.world.book, machine.world.disk, errors);
        return Raised(StaleSource);
      }
      r := ExecutePlan();
    }

    method ExecutePlan() returns (r: Outcome)
      requires Begun() && desk.mode.accepting && Preflighted(desk.plan, machine.world.disk) && AllFresh(0)
      requires forall j :: 0 <= j < |machine.world.book.rows| ==> machine.world.book.rows[j].state == Pending
      requires AllFirm(desk.plan, machine.world.disk, desk.mode.firm) && machine.world.book.run == Preflighting
      modifies machine`tick, machine`world, machine`trace, machine`actor, desk`anchor, desk`mode
      ensures Begun() && machine.tick >= old(machine.tick) && r in {Done, Killed}
      ensures Excused(machine.oracle, old(machine.tick), r)
      ensures r == Done ==> Verdict(machine.world.book)
      ensures Bright() ==> OnCourse(machine.world.book)
      ensures Bright() && r == Done ==> machine.world.book.run == RunComplete && AllFinished(desk.plan, machine.world)
      ensures SameCall(old(desk.mode), desk.mode)
    {
      hide Desk.Valid, Inv, Preflighted, AllFinished, AllFirm, Orderly;
      :- AcceptAll();
      :- desk.SetRun(Running);
      :- ExecuteAll();
      r := Finalize();
      if Bright() && r == Done { desk.Promises(); CompleteFinished(desk.plan, machine.world); }
    }

    /** Nothing has begun and the first preflight would find nothing wrong. */
    ghost predicate Ripe()
      reads machine
    {
      && !machine.world.book.begun && Preflighted(desk.plan, machine.world.disk)
      && Reliable(machine.oracle) && SoundWriters(desk.plan)
    }

    /** The same, but system calls may fail. */
    ghost predicate Fit()
      reads machine
    {
      !machine.world.book.begun && Preflighted(desk.plan, machine.world.disk) && SoundWriters(desk.plan)
    }

    /** Under way without interference, whatever failed. */
    ghost predicate Tidy()
      reads machine
    {
      machine.world.book.begun && SoundWriters(desk.plan) && Orderly(desk.plan, machine.world)
    }

    // -------------------------------------------------------------- recover

    method Recover() returns (r: Outcome)
      requires Valid()
      modifies machine`tick, machine`world, machine`trace, machine`actor
      modifies desk`anchor, desk`mode, store.db
      ensures Valid() && machine.tick >= old(machine.tick) && Excused(machine.oracle, old(machine.tick), r)
      ensures Ledgered(old(store.db.ledger), store.db.ledger, planId)
      ensures Admitted(old(store.db.ledger), planId) ==> Admitted(store.db.ledger, planId)
      ensures !Admitted(old(store.db.ledger), planId) || !old(machine.world.book.begun)
                || old(AnyIn(machine.world.book, {Stale})) ==>
                && r in {Done, Raised(Invalid)}
                && machine.world == old(machine.world)
                && machine.trace == old(machine.trace)
      ensures !Admitted(old(store.db.ledger), planId) ==> r == Raised(Invalid)
      ensures r.Raised? ==> machine.world == old(machine.world) && machine.trace == old(machine.trace)
      ensures r == Done ==> Verdict(machine.world.book)
      ensures old(machine.trace) <= machine.trace && EngineFrom(machine.trace, old(|machine.trace|), false)
      ensures Reliable(machine.oracle) ==> FirmCall(old(|machine.trace|), old(FirmItems(desk.plan, machine.world.disk)))
      ensures TrueTurns(desk.plan, machine.trace, old(|machine.trace|))
      ensures old(Resumable()) ==> Resumable()
      ensures old(Tidy()) ==> Tidy()
      ensures old(Tidy() && Unfailing(machine.oracle, machine.tick)) && r == Done ==>
                HopesFulfilled(desk.plan, old(machine.world), machine.world)
      ensures old(Tidy() && Uncut() && !AnyIn(machine.world.book, {Stale})) ==> r == Done
      ensures r == Killed ==> machine.tick > old(machine.tick)
      ensures old(Resumable()) && r == Done ==>
                machine.world.book.run == RunComplete && AllFinished(desk.plan, machine.world)
      ensures old(Resumable() && Admitted(store.db.ledger, planId)) ==> r in {Done, Killed}
      ensures old(Resumable() && Uncut()) ==> r == Done
      ensures old(Promising() && Uncut()) ==>
                r == Done && (machine.world.book.run == RunComplete <==> old(NonePending(machine.world.book)))
      ensures old(machine.world.book.begun) ==> AllHeeded(desk.plan, old(machine.world), machine.world)
      ensures r == Done ==> HandedOver(old(machine.world).book, machine.world.book, |desk.plan.items|)
      ensures old(Resumable()) ==>
                NextFromThere(desk.plan, old(machine.world), machine.trace, old(|machine.trace|))
    {
      hide Desk.Valid, Inv, Quiet, SoundWriters, FirmFrom, EngineFrom, Verdict, AllFinished, Ledgers.Eligible, Firm,
        AllHeeded, HandedOver, AllIn, NextFromThere, TrueTurns, HopesFulfilled, Orderly, Ledgered, WellFormed, Run,
        Reliable, NonePending, Unfailing, ApplyEngine.Promising, ApplyEngine.Resumable, ApplyEngine.Tidy, FirmItems,
        AllFirm, ApplyEngine.FirmCall;
      StartRecovery();
      var ok := Admit();
      if !ok || !machine.world.book.begun {
        CallTold(|machine.trace|, false);
        return Raised(Invalid);
      }
      ghost var since := |machine.trace|;
      r := RecoverAdmitted();
      CallTold(since, false);
    }

    /** A recovery begins. */
    ghost method StartRecovery()
      requires Valid()
      modifies desk`anchor, desk`mode
      ensures Valid() && machine.trace == desk.mode.before && !desk.mode.accepting
      ensures desk.mode.firm == if Reliable(machine.oracle) then FirmItems(desk.plan, machine.world.disk) else {}
      ensures AllFirm(desk.plan, machine.world.disk, desk.mode.firm)
      ensures desk.mode.orderly == Tidy() && (Promising() ==> Bright())
      ensures desk.mode.sure == Unfailing(machine.oracle, machine.tick)
      ensures Smooth(machine.oracle, machine.tick) ==> desk.mode.sure
      ensures Resumable() <==> Promising() && NonePending(machine.world.book)
      ensures Promising() ==> Tidy() && machine.world.book.begun && !AnyIn(machine.world.book, {Stale})
      ensures Tidy() ==> machine.world.book.begun
      ensures machine.world.book.begun ==> AllHeeded(desk.plan, machine.world, machine.world)
      ensures NextFromThere(desk.plan, machine.world, machine.trace, |machine.trace|)
    {
      hide Desk.Valid, Inv, Quiet, SoundWriters, Firm, Orderly;
      ghost var firm := if Reliable(machine.oracle) then FirmItems(desk.plan, machine.world.disk) else {};
      desk.Promises();
      WhenPromising();
      if Smooth(machine.oracle, machine.tick) { SmoothIsUnfailing(machine.oracle, machine.tick); }
      desk.BeginCall(false, firm, Tidy());
      NoTurnsYet(desk.plan, machine.world, machine.trace, |desk.mode.before|);
      if machine.world.book.begun { NonePassed(desk.plan, machine.world, false); }
      if Promising() { QuietNotStale(desk.plan, machine.world); }
    }

    /** What is told of the steps of a call. */
    lemma CallTold(since: nat, accepting: bool)
      requires Valid() && |desk.mode.before| == since && desk.mode.accepting == accepting
      ensures since <= |machine.trace| && desk.mode.before <= machine.trace
      ensures EngineFrom(machine.trace, since, accepting) && FirmCall(since, desk.mode.firm)
      ensures TrueTurns(desk.plan, machine.trace, since)
    {
      desk.Promises();
    }

    /** Everything after the gate. */
    method RecoverAdmitted() returns (r: Outcome)
      requires Begun() && AllFirm(desk.plan, machine.world.disk, desk.mode.firm) && machine.trace == desk.mode.before
      requires desk.mode.orderly == Tidy() && (Promising() ==> Bright())
      modifies machine`tick, machine`world, machine`trace, machine`actor, desk`anchor, desk`mode
      ensures Begun() && machine.tick >= old(machine.tick) && Excused(machine.oracle, old(machine.tick), r)
      ensures SameCall(old(desk.mode), desk.mode) && (r == Killed ==> machine.tick > old(machine.tick))
      ensures old(AnyIn(machine.world.book, {Stale})) ==>
                && r in {Done, Raised(Invalid)}
                && machine.world == old(machine.world)
                && machine.trace == old(machine.trace)
      ensures r in {Done, Killed, Raised(Io), Raised(Invalid)} && (desk.mode.sure ==> r != Raised(Io))
      ensures r == Raised(Invalid) ==> old(AnyIn(machine.world.book, {Stale}))
      ensures r.Raised? ==> machine.world == old(machine.world) && machine.trace == old(machine.trace)
      ensures r == Done ==> Verdict(machine.world.book)
      ensures AllHeeded(desk.plan, old(machine.world), machine.world)
      ensures r == Done ==> HandedOver(old(machine.world).book, machine.world.book, |desk.plan.items|)
      ensures r == Done && machine.world.book.run == RunComplete ==> NonePending(old(machine.world).book)
      ensures old(Tidy()) ==> Tidy()
      ensures r == Done && Bright() ==> HopesFulfilled(desk.plan, old(machine.world), machine.world)
      ensures old(Resumable()) ==> Resumable()
      ensures old(Resumable()) && r == Done ==>
                machine.world.book.run == RunComplete && AllFinished(desk.plan, machine.world)
      ensures old(Promising()) && r == Done ==>
                (machine.world.book.run == RunComplete <==> old(NonePending(machine.world.book)))
      ensures old(Promising()) ==> r in {Done, Killed}
      ensures old(Resumable()) ==> NextFromThere(desk.plan, old(machine.world), machine.trace, |desk.mode.before|)
    {
      hide Desk.Valid, Inv, Quiet, SoundWriters, AllHeeded, HandedOver, AllFirm, Verdict, Orderly, Worked, NoneLost,
        HopesFulfilled, AllFinished, NonePending, NextFromThere, Reliable;
      ghost var w := machine.world;
      NoTurnsYet(desk.plan, w, machine.trace, |desk.mode.before|);
      NonePassed(desk.plan, w, false);
      if machine.world.book.run == RunComplete {
        CompleteVerdict();
        return Done;
      }
      if AnyIn(machine.world.book, {Stale}) {
        if Promising() { QuietNotStale(desk.plan, w); }
        return Raised(Invalid);
      }
      r := Resume();
      Recovered(w, r);
    }

    lemma WhenPromising()
      requires Valid() && (machine.world.book.begun ==> Inv(desk.plan, machine.world))
      ensures Resumable() ==> Promising()
      ensures Promising() ==> Tidy() && machine.world.book.begun && Unfailing(machine.oracle, machine.tick)
      ensures Tidy() ==> desk.Promised(machine.world)
      ensures Tidy() ==> machine.world.book.begun
      ensures Resumable() <==> Promising() && NonePending(machine.world.book)
    {
      hide Desk.Valid, Inv;
      if Promising() { PromisingIsTidy(); }
    }

    lemma PromisingIsTidy()
      requires Valid() && Promising() && Inv(desk.plan, machine.world)
      ensures Tidy() && Unfailing(machine.oracle, machine.tick)
    {
      QuietOrderly(desk.plan, machine.world);
    }

    /** What a recovery that began in world `w` comes to. */
    lemma Recovered(w: World, r: Outcome)
      requires Begun() && |w.book.rows| == |desk.plan.items| && |machine.world.book.rows| == |desk.plan.items|
      requires r == Done ==> Verdict(machine.world.book) && HandedOver(w.book, machine.world.book, |desk.plan.items|)
      requires r == Done ==> Worked(w, machine.world, |desk.plan.items|, Bright())
      requires Bright() ==> NoneLost(w, machine.world)
      ensures desk.mode.orderly ==> Tidy()
      ensures r == Done ==> (machine.world.book.run == RunComplete ==> NonePending(w.book))
      ensures r == Done && Bright() ==> HopesFulfilled(desk.plan, w, machine.world)
      ensures Bright() && Quiet(desk.plan, w) && NonePending(w.book) ==>
        && Quiet(desk.plan, machine.world) && NonePending(machine.world.book)
        && (r == Done ==> machine.world.book.run == RunComplete && AllFinished(desk.plan, machine.world))
    {
      hide Inv, Orderly, Quiet, SoundWriters, HopesFulfilled, AllFinished;
      desk.Promises();
      if r == Done { PendingLeft(w.book, machine.world.book); }
      if Bright() && r == Done { AllWorked(desk.plan, w, machine.world); }
      if Bright() && Quiet(desk.plan, w) && NonePending(w.book) { AllHoped(desk.plan, w, machine.world); }
    }

    /** Recovery proper: mark the run as running and go over its items. */
    method Resume() returns (r: Outcome)
      requires Begun() && AllFirm(desk.plan, machine.world.disk, desk.mode.firm)
      requires machine.trace == desk.mode.before
      modifies machine`tick, machine`world, machine`trace, machine`actor, desk`anchor, desk`mode
      ensures Begun() && machine.tick >= old(machine.tick) && Excused(machine.oracle, old(machine.tick), r)
      ensures r == Killed ==> machine.tick > old(machine.tick)
      ensures r.Raised? ==>
                machine.world == old(machine.world) && machine.trace == old(machine.trace) && r == Raised(Io)
      ensures desk.mode.sure ==> r != Raised(Io)
      ensures r == Done ==> Verdict(machine.world.book)
      ensures r == Done ==> Worked(old(machine.world), machine.world, |desk.plan.items|, Bright())
      ensures Bright() ==> NoneLost(old(machine.world), machine.world)
      ensures AllHeeded(desk.plan, old(machine.world), machine.world)
      ensures r == Done ==> HandedOver(old(machine.world).book, machine.world.book, |desk.plan.items|)
      ensures Bright() ==> NextFromThere(desk.plan, old(machine.world), machine.trace, |desk.mode.before|)
      ensures SameCall(old(desk.mode), desk.mode)
    {
      hide Desk.Valid, Inv, Quiet, SoundWriters, AllHeeded, HandedOver, AllFirm, Verdict, Orderly,
        NonePending, NextFromThere;
      ghost var w := machine.world;
      NonePassed(desk.plan, w, Bright());
      NoTurnsYet(desk.plan, w, machine.trace, |desk.mode.before|);
      :- desk.Prepare();
      r := desk.SetRun(Running);
      SameHands(desk.plan, w, w, machine.world);
      NoTurnsYet(desk.plan, w, machine.trace, |desk.mode.before|);
      if r != Done { return; }
      ghost var v := machine.world;
      r := RecoverAll();
      if Bright() { NextStill(desk.plan, v, w, machine.trace, machine.trace, |desk.mode.before|); }
      HandsFrom(desk.plan, w, v, machine.world);
    }

    /** So far the call has only made entries about the run itself. */
    ghost predicate NoTurnYet()
      reads machine, desk
    {
      |desk.mode.before| <= |machine.trace| && OnlyBefore(machine.trace, |desk.mode.before|, 0, |desk.plan.items|)
    }

    method RecoverAll() returns (r: Outcome)
      requires Begun() && AllFirm(desk.plan, machine.world.disk, desk.mode.firm) && NoTurnYet()
      modifies machine`tick, machine`world, machine`trace, machine`actor, desk`anchor, desk`mode
      ensures Begun() && machine.tick >= old(machine.tick) && r in {Done, Killed}
      ensures Excused(machine.oracle, old(machine.tick), r)
      ensures r == Done ==> Verdict(machine.world.book)
      ensures r == Done ==> Worked(old(machine.world), machine.world, |desk.plan.items|, Bright())
      ensures Bright() ==> NoneLost(old(machine.world), machine.world)
      ensures AllHeeded(desk.plan, old(machine.world), machine.world)
      ensures r == Done ==> HandedOver(old(machine.world).book, machine.world.book, |desk.plan.items|)
      ensures Bright() ==> NextFromThere(desk.plan, old(machine.world), machine.trace, |desk.mode.before|)
      ensures |desk.mode.before| <= |machine.trace|
      ensures SameCall(old(desk.mode), desk.mode)
    {
      hide Desk.Valid, Inv, AllHeeded, HandedOver, AllFinished, Quiet, SoundWriters, AllFirm, Verdict,
        FirmFrom, EngineFrom, NextFromThere, OnlyBefore, Orderly;
      ghost var w := machine.world;
      r := Sweep();
      if r != Done { return; }
      ghost var tr, v := machine.trace, machine.world;
      r := Finalize();
      SameHands(desk.plan, w, v, machine.world);
      if Bright() { NextStill(desk.plan, w, w, tr, machine.trace, |desk.mode.before|); }
    }

    /** The pass over the items. */
    method Sweep() returns (r: Outcome)
      requires Begun() && AllFirm(desk.plan, machine.world.disk, desk.mode.firm) && NoTurnYet()
      modifies machine`tick, machine`world, machine`trace, machine`actor, desk`anchor, desk`mode
      ensures Begun() && machine.tick >= old(machine.tick) && r in {Done, Killed}
      ensures Excused(machine.oracle, old(machine.tick), r)
      ensures machine.world.book.run == old(machine.world.book.run) && SameCall(old(desk.mode), desk.mode)
      ensures AllHeeded(desk.plan, old(machine.world), machine.world)
      ensures r == Done ==> Worked(old(machine.world), machine.world, |desk.plan.items|, Bright())
      ensures Bright() ==> NoneLost(old(machine.world), machine.world)
      ensures r == Done ==> HandedOver(old(machine.world).book, machine.world.book, |desk.plan.items|)
      ensures Bright() ==> NextFromThere(desk.plan, old(machine.world), machine.trace, |desk.mode.before|)
      ensures |desk.mode.before| <= |machine.trace|
    {
      hide Desk.Valid, Inv, AllHeeded, HandedOver, Quiet, SoundWriters, Undisturbed, AllFirm, Worked, NoneLost,
        FirmFrom, EngineFrom, Passed, Turning, OutputHeld, Exclusive, RowShape, Run, InTurn, Diagnosis, NextFromThere,
        OnlyBefore, Orderly, Hoped;
      ghost var w, since := machine.world, |desk.mode.before|;
      desk.Promises();
      NonePassed(desk.plan, w, Bright());
      NoTurnsYet(desk.plan, w, machine.trace, since);
      for i := 0 to |desk.plan.items|
        invariant Begun() && machine.tick >= old(machine.tick) && SameCall(old(desk.mode), desk.mode)
        invariant Worked(w, machine.world, i, Bright()) && (Bright() ==> NoneLost(w, machine.world))
        invariant machine.world.book.run == w.book.run
        invariant Passed(desk.plan, w, machine.world, i)
        invariant desk.mode.firm != {} ==> machine.world.disk.loose <= w.disk.loose
        invariant since <= |machine.trace| && OnlyBefore(machine.trace, since, i, |desk.plan.items|)
        invariant Bright() ==> NextFromThere(desk.plan, w, machine.trace, since)
        invariant forall k: nat :: Bright() && Turning(desk.plan, w, k) && i <= k ==> machine.world == w
      {
        ghost var tr, v := machine.trace, machine.world;
        OnlyBeforeFresh(tr, since, i, |desk.plan.items|, i);
        r := TurnOf(i, w);
        if Bright() { NextGoesOn(desk.plan, w, tr, machine.trace, since, i, v); }
        if r != Done { return; }
        OnlyBeforeNext(tr, machine.trace, since, i, |desk.plan.items|, v);
        forall k: nat | Bright() && Turning(desk.plan, w, k) && i < k ensures machine.world == w {
          TurningState(desk.plan, w, k, i);
        }
      }
      PassEnds(desk.plan, w, machine.world);
      r := Done;
    }

    /** The recovery of item `i`, in a pass over the items that began in world `w`. */
    method TurnOf(i: nat, ghost w: World) returns (r: Outcome)
      requires Begun() && i < |desk.plan.items| && |w.book.rows| == |desk.plan.items| && WellFormed(w.disk)
      requires Fresh(machine.trace, |desk.mode.before|, i)
      requires AllFirm(desk.plan, w.disk, desk.mode.firm)
      requires (desk.mode.firm != {} ==> machine.world.disk.loose <= w.disk.loose)
      requires Passed(desk.plan, w, machine.world, i)
      requires Worked(w, machine.world, i, Bright()) && (Bright() ==> NoneLost(w, machine.world))
      modifies machine`tick, machine`world, machine`trace, machine`actor, desk`anchor, desk`mode
      ensures Begun() && machine.tick >= old(machine.tick) && r in {Done, Killed}
      ensures Excused(machine.oracle, old(machine.tick), r)
      ensures machine.world.book.run == old(machine.world.book.run)
      ensures r == Done ==> Worked(w, machine.world, i + 1, Bright())
      ensures Bright() ==> NoneLost(w, machine.world)
      ensures AllHeeded(desk.plan, w, machine.world) && (r == Done ==> Passed(desk.plan, w, machine.world, i + 1))
      ensures r == Done && desk.mode.firm != {} ==> machine.world.disk.loose <= w.disk.loose
      ensures OneTurn(old(machine.trace), machine.trace, i, old(machine.world))
      ensures Bright() && old(desk.State(i)) == Complete ==> machine.world == old(machine.world)
      ensures SameCall(old(desk.mode), desk.mode) && old(machine.trace) <= machine.trace
    {
      hide Desk.Valid, Inv, Undisturbed, Firm, Diagnosis, OneTurn, AllHeeded, HandedOver, Worked, NoneLost, Steady,
        Quiet, Fresh, Carries, WellFormed, Passed, InTurn, Told, Run, Heeded, Orderly;
      ghost var v := machine.world;
      desk.Promises();
      StandsFirm(desk.plan, w, v, i, desk.mode.firm);
      desk.BeginTurn(i);
      r := items.RecoverTurn(i);
      StillHoped(i, v);
      TurnEnds(i, w, v, r);
    }

    /** What a turn since world `v` means for the pass that began in `w`. */
    lemma TurnEnds(i: nat, w: World, v: World, r: Outcome)
      requires desk.machine == machine && desk.Ready(i) && desk.anchor == v && v.book.begun
      requires Passed(desk.plan, w, v, i)
      requires WellFormed(w.disk) && i < |v.book.rows| && Heeded(desk.plan, v, machine.world, i)
      requires Worked(w, v, i, Bright()) && (Bright() ==> NoneLost(w, v))
      requires Bright() && Hoped(v.book.rows[i].state) ==> Hoped(desk.State(i))
      requires r == Done ==>
        && SettledState(desk.State(i))
        && (Bright() && Hoped(v.book.rows[i].state) ==> desk.State(i) == Complete)
        && (v.book.rows[i].state == Pending ==> desk.State(i) == RecoveryRequired)
      ensures AllHeeded(desk.plan, w, machine.world) && (r == Done ==> Passed(desk.plan, w, machine.world, i + 1))
      ensures r == Done ==> Worked(w, machine.world, i + 1, Bright())
      ensures Bright() ==> NoneLost(w, machine.world)
      ensures machine.world.book.begun && |machine.world.book.rows| == |v.book.rows|
      ensures machine.world.book.run == v.book.run && OneTurn(desk.mode.mark, machine.trace, i, v)
      ensures desk.mode.mark <= machine.trace
    {
      hide Desk.Valid, Inv, Firm, Diagnosis, Quiet, FilesKept, Heeded, Orderly, Same;
      OthersAfterTurn(i, v);
      TurnTraced(i, v);
      desk.Promises();
      assert Undisturbed(desk.plan, w, v, i);
      PassGoesOn(i, w, v, r);
    }

    lemma PassGoesOn(i: nat, w: World, v: World, r: Outcome)
      requires i < |desk.plan.items| && |w.book.rows| == |v.book.rows| == |machine.world.book.rows| == |desk.plan.items|
      requires desk.machine == machine && WellFormed(w.disk) && WellFormed(v.disk) && WellFormed(machine.world.disk)
      requires Passed(desk.plan, w, v, i)
      requires forall j :: 0 <= j < |desk.plan.items| && j != i ==>
                 Undisturbed(desk.plan, v, machine.world, j) && machine.world.book.rows[j] == v.book.rows[j]
      requires Heeded(desk.plan, v, machine.world, i)
      requires r == Done && v.book.rows[i].state == Pending ==> desk.State(i) == RecoveryRequired
      ensures AllHeeded(desk.plan, w, machine.world) && (r == Done ==> Passed(desk.plan, w, machine.world, i + 1))
    {
      hide Desk.Valid, Inv, FilesKept, Undisturbed, Firm, Diagnosis, Heeded;
      forall j | i < j < |desk.plan.items| ensures Undisturbed(desk.plan, w, machine.world, j) {
        UndisturbedTrans(desk.plan, w, v, machine.world, j);
      }
      forall j | 0 <= j < |desk.plan.items| ensures Heeded(desk.plan, w, machine.world, j) {
        if j == i {
          HeededFrom(desk.plan, w, v, machine.world, i);
        } else {
          HeededOn(desk.plan, w, v, machine.world, j);
        }
      }
      UndisturbedDiagnosis(desk.plan, w, v, i);
    }

    /** On track, with writers that do their job and calls that fail only by being killed. */
    ghost predicate Promising()
      reads machine
    {
      machine.world.book.begun && Hopeful(desk.plan, machine.world, machine.oracle)
    }

    /** On track and past the first preflight: what process kills can leave. */
    ghost predicate Resumable()
      reads machine
    {
      Promising() && NonePending(machine.world.book)
    }

    lemma CompleteVerdict()
      requires Begun() && machine.world.book.run == RunComplete
      ensures Verdict(machine.world.book) && AllIn(machine.world.book, {Complete}) && NonePending(machine.world.book)
      ensures HandedOver(machine.world.book, machine.world.book, |desk.plan.items|)
      ensures Tidy() ==> HopesFulfilled(desk.plan, machine.world, machine.world)
      ensures Tidy() ==> AllFinished(desk.plan, machine.world)
    {
      desk.Promises();
      forall k | 0 <= k < |machine.world.book.rows| ensures machine.world.book.rows[k].state in {Complete} {
      }
      if Tidy() { CompleteFinished(desk.plan, machine.world); }
    }

    // -------------------------------------------------------------- abandon and inspect

    /** Close a run that left nothing to reconcile. No file is touched. */
    method Abandon(reason: string) returns (r: Outcome)
      requires Valid()
      modifies machine`tick, machine`world, machine`trace
      modifies desk`anchor, desk`mode, store.db
      ensures Valid() && machine.tick >= old(machine.tick) && Excused(machine.oracle, old(machine.tick), r)
      ensures old(machine.trace) <= machine.trace && EngineFrom(machine.trace, old(|machine.trace|), false)
      ensures Reliable(machine.oracle) ==> FirmCall(old(|machine.trace|), old(FirmItems(desk.plan, machine.world.disk)))
      ensures TrueTurns(desk.plan, machine.trace, old(|machine.trace|))
      ensures machine.world.disk == old(machine.world.disk) && machine.world.book.rows == old(machine.world.book.rows)
      ensures store.db.ledger in {old(store.db.ledger), Ledgers.Invalidate(old(store.db.ledger), planId)}
      ensures r == Raised(Invalid) <==> Blank(reason) || !old(Abandonable())
      ensures r == Raised(Invalid) ==>
                && machine.world == old(machine.world)
                && machine.trace == old(machine.trace)
                && store.db.ledger == old(store.db.ledger)
      ensures r != Raised(Invalid) ==> r in {Done, Killed} && planId in store.db.ledger.invalidated && NothingAtStake()
      ensures r == Done ==> machine.world.book.run == RunFailed
    {
      hide Inv, Run, Steady, Quiet, FirmFrom;
      desk.BeginCall(false, if Reliable(machine.oracle) then FirmItems(desk.plan, machine.world.disk) else {}, false);
      if Blank(reason) || !machine.world.book.begun || machine.world.book.run == RunComplete { return Raised(Invalid); }
      if !AllIn(machine.world.book, ABANDONABLE) { return Raised(Invalid); }
      desk.Promises();
      store.db.ledger := Ledgers.Invalidate(store.db.ledger, planId);
      r := desk.SetRun(RunFailed);
      AbandonedSafely();
    }

    ghost predicate Abandonable()
      reads machine
    {
      && machine.world.book.begun && machine.world.book.run != RunComplete
      && forall k :: 0 <= k < |machine.world.book.rows| ==>
           machine.world.book.rows[k].state in {Pending, PreflightOk, Failed, Stale, Complete}
    }

    /** In the whole run so far, no engine step removed the source of an item that is not COMPLETE, and
        none linked the destination of an item that is PENDING, PREFLIGHT_OK or FAILED. */
    ghost predicate NothingAtStake()
      reads machine
    {
      && |machine.world.book.rows| == |desk.plan.items|
      && forall i, j :: 0 <= i < |machine.trace| && 0 <= j < |desk.plan.items| && ByEngine(machine.trace[i]) ==>
           && (machine.world.book.rows[j].state != Complete ==> !Removes(machine.trace[i], desk.plan.items[j].source))
           && (machine.world.book.rows[j].state in {Pending, PreflightOk, Failed} ==>
                !Links(machine.trace[i], desk.plan.items[j].destination))
    }

    lemma AbandonedSafely()
      requires Begun() && AllIn(machine.world.book, ABANDONABLE)
      ensures NothingAtStake()
    {
      desk.Promises();
      forall i, j | 0 <= i < |machine.trace| && 0 <= j < |desk.plan.items| && ByEngine(machine.trace[i])
        ensures machine.world.book.rows[j].state != Complete ==> !Removes(machine.trace[i], desk.plan.items[j].source)
        ensures machine.world.book.rows[j].state in {Pending, PreflightOk, Failed} ==>
                  !Links(machine.trace[i], desk.plan.items[j].destination)
      {
        var state := machine.world.book.rows[j].state;
        assert state in ABANDONABLE;
        if state != Complete { AbandonableStates(desk.plan, desk.origin, machine.trace, machine.world, j, i); }
      }
    }

    ghost function DiagnosisOf(k: nat): Proposal
      requires k < |desk.plan.items| && k < |machine.world.book.rows|
      reads machine
    {
      Diagnosis(machine.world.disk, desk.plan.items[k], machine.world.book.rows[k])
    }

    /** The recovery inspection: a proposal for each item, and whether a person has to decide. */
    method InspectRecovery() returns (proposals: seq<Proposal>, manual: seq<bool>)
      requires Valid()
      ensures |proposals| == |manual| == if machine.world.book.begun then |desk.plan.items| else 0
      ensures forall k :: 0 <= k < |manual| ==>
                (manual[k] <==> planId !in store.db.ledger.invalidated && ByHand(desk.plan, machine.world, k))
      ensures planId in store.db.ledger.invalidated ==> forall k :: 0 <= k < |proposals| ==> proposals[k] == NothingLeft
      ensures planId !in store.db.ledger.invalidated ==> forall k :: 0 <= k < |proposals| ==>
                proposals[k] == DiagnosisOf(k) && Fitting(desk.plan, machine.world, k, proposals[k])
    {
      hide Desk.Valid, Inv, Fitting, Diagnosis;
      desk.Promises();
      proposals, manual := [], [];
      if !machine.world.book.begun { return; }
      for k := 0 to |machine.world.book.rows|
        invariant |proposals| == |manual| == k
        invariant forall j :: 0 <= j < k ==>
                    && proposals[j] == Diagnosis(machine.world.disk, desk.plan.items[j], machine.world.book.rows[j])
                    && manual[j] == (proposals[j] == Manual)
                    && Fitting(desk.plan, machine.world, j, proposals[j])
      {
        var p := Diagnosis(machine.world.disk, desk.plan.items[k], machine.world.book.rows[k]);
        DiagnosisFits(desk.plan, machine.world, k);
        proposals, manual := proposals + [p], manual + [p == Manual];
      }
      if planId in store.db.ledger.invalidated {
        proposals := seq(|proposals|, _ => NothingLeft);
        manual := seq(|manual|, _ => false);
      }
    }
  }
}
