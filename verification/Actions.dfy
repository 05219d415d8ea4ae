/** What the engine asks of the filesystem and the journal on behalf of one item: each request is shown
    to be within the rules, so the run stays lawful and the other items stay undisturbed. */
module Actions {
  import opened Basics
  import opened Disks
  import opened Journals
  import opened Protocol
  import opened Invariant
  import opened Frames
  import opened Recoverable
  import opened Runs
  import opened Operations
  import opened Directories
  import opened Dangers
  import opened Filesystem
  import opened ApplyJournal
  import opened Legitimacy
  import opened Turns
  import opened Carrying

  /** Undisturbed so far, with writers that do their job and calls that fail only by being killed. */
  ghost predicate Hopeful(plan: Plan, w: World, oracle: nat -> Answer) {
    && Quiet(plan, w) && Reliable(oracle) && SoundWriters(plan)
    && (w.book.run != Preflighting ==> NonePending(w.book))
  }

  /** An item that recovery takes further. */
  predicate Hoped(s: ItemState) {
    s != Pending && !GivenUp(s)
  }

  lemma FreshOrderly(plan: Plan, w: World, v: World)
    requires w.book == EMPTY_BOOK && v.disk == w.disk && Preflighted(plan, w.disk)
    requires v.book == Edited(w.book, RunItself(plan), Edit.OpenRun(|plan.items|))
    ensures Orderly(plan, v)
  {
  }

  lemma WayOrderly(plan: Plan, w: World, v: World)
    requires Inv(plan, w) && WellFormed(v.disk) && v.book == w.book && Orderly(plan, w)
    requires w.disk.folders.Keys <= v.disk.folders.Keys && AllSame(w.disk, v.disk)
    ensures Orderly(plan, v)
  {
    hide Same, Orderly;
    SameOrderly(plan, w, v);
  }

  class Desk {
    const machine: Machine
    const fs: LinuxFilesystem
    const journal: JournalRepository
    const plan: Plan
    ghost const origin: World
    ghost var anchor: World
    ghost var mode: Mode

    /** For a plan whose run began in `origin`, perhaps in an earlier process. */
    constructor (machine: Machine, plan: Plan, ghost origin: World)
      requires Shaped(plan) && Inv(plan, origin) && Run(plan, origin, machine.trace, machine.world)
      ensures Valid() && this.machine == machine && this.plan == plan && this.origin == origin
      ensures mode == Mode(machine.trace, machine.trace, false, {}, false, false)
    {
      this.machine, this.plan, this.origin := machine, plan, origin;
      fs := new LinuxFilesystem(machine);
      journal := new JournalRepository(machine);
      anchor, mode := machine.world, Mode(machine.trace, machine.trace, false, {}, false, false);
      new;
      RunInv(plan, origin, machine.trace, machine.world);
      OnlyDisk(plan, machine.world);
      SteadyNow(plan, machine.world, machine.actor);
    }

    ghost predicate Valid()
      reads this, machine
    {
      && fs.machine == machine && journal.machine == machine && Shaped(plan)
      && Inv(plan, origin) && InTurn(plan, origin, anchor, machine.actor, machine.trace, machine.world, mode)
      && (mode.orderly ==> Promised(machine.world))
      && (mode.sure ==> Unfailing(machine.oracle, machine.tick))
      && (mode.firm != {} ==> Reliable(machine.oracle))
    }

    /** The writers do their job, and the run, if there is one, is orderly. */
    ghost predicate Promised(w: World)
      reads this
    {
      SoundWriters(plan) && (w.book.begun ==> Orderly(plan, w))
    }

    /** Nothing but a kill can keep the item's turn from finishing it. */
    ghost predicate Assured(k: nat)
      reads this
    {
      mode.orderly && mode.sure && k < |anchor.book.rows| && Hoped(anchor.book.rows[k].state)
    }

    /** It is item `k`'s turn. */
    ghost predicate Ready(k: nat)
      reads this, machine
    {
      && Valid() && Shaped(plan) && Inv(plan, machine.world)
      && machine.actor == k && k < |plan.items| && k < |machine.world.book.rows|
      && (k in mode.firm ==> Firm(plan, anchor.disk, k))
      && (Assured(k) ==> Hoped(State(k)))
    }

    /** The item is as exposed as it was when its turn began. */
    ghost predicate Poised(k: nat)
      requires k < |plan.items|
      reads this, machine
    {
      Carries(plan, anchor.disk, machine.world.disk, k)
    }

    /** The item's exposure was carried on. */
    twostate predicate Carried(k: nat)
      requires k < |plan.items|
      reads this, machine
    {
      old(Poised(k)) ==> Poised(k)
    }

    twostate predicate Turned(k: nat, r: Outcome)
      reads this, machine
    {
      && Ready(k) && machine.tick >= old(machine.tick) && Excused(machine.oracle, old(machine.tick), r)
      && (mode.firm != {} && r != Killed ==> machine.world.disk.loose <= old(machine.world.disk.loose))
      && (mode.sure ==> r != Raised(Io))
    }

    function State(k: nat): ItemState
      requires k < |machine.world.book.rows|
      reads this, machine
    {
      machine.world.book.rows[k].state
    }

    predicate StageThere(k: nat)
      requires k < |machine.world.book.rows|
      reads this, machine
    {
      machine.world.book.rows[k].staging.Some? && machine.world.book.rows[k].staging.value in machine.world.disk.names
    }

    // -------------------------------------------------------------- calls and turns

    /** A call begins, in which the unlinks of the items `firm` will be firm and, if the run is orderly, it
        will stay so. */
    ghost method BeginCall(accepting: bool, firm: set<nat>, orderly: bool)
      requires Valid() && (orderly ==> Promised(machine.world))
      requires (firm != {} ==> Reliable(machine.oracle))
      modifies this`mode, this`anchor
      ensures Valid() && anchor == machine.world
      ensures mode == Mode(machine.trace, machine.trace, accepting, firm, orderly,
                Unfailing(machine.oracle, machine.tick))
      ensures forall k :: Fresh(machine.trace, |mode.before|, k)
    {
      mode := Mode(machine.trace, machine.trace, accepting, firm, orderly, Unfailing(machine.oracle, machine.tick));
      anchor := machine.world;
      SteadyNow(plan, machine.world, machine.actor);
    }

    lemma Promises()
      requires Valid()
      ensures Shaped(plan) && Inv(plan, origin) && Inv(plan, machine.world) && WellFormed(machine.world.disk)
      ensures Run(plan, origin, machine.trace, machine.world)
      ensures mode.orderly ==> Promised(machine.world)
      ensures mode.before <= mode.mark <= machine.trace && EngineFrom(machine.trace, |mode.before|, mode.accepting)
      ensures forall j :: j in mode.firm ==> FirmFrom(plan, machine.trace, |mode.before|, j)
      ensures TrueTurns(plan, machine.trace, |mode.before|)
    {
    }

    /** Item `k`'s turn begins. */
    ghost method BeginTurn(k: nat)
      requires Valid() && k < |plan.items| && k < |machine.world.book.rows|
      requires Fresh(machine.trace, |mode.before|, k)
      requires k in mode.firm ==> Firm(plan, machine.world.disk, k)
      modifies machine`actor, this`anchor, this`mode
      ensures Ready(k) && Poised(k) && anchor == machine.world && mode == old(mode).(mark := machine.trace)
      ensures Assured(k) <==> mode.orderly && mode.sure && Hoped(State(k))
    {
      assert machine.trace[..|machine.trace|] == machine.trace;
      machine.actor, anchor, mode := k, machine.world, mode.(mark := machine.trace);
      SteadyNow(plan, machine.world, k);
      CarriesSame(plan, machine.world.disk, k);
    }

    /** Work between turns that only reads. */
    method Prepare() returns (r: Outcome)
      requires Valid()
      modifies machine`tick
      ensures Valid() && machine.tick > old(machine.tick) && Excused(machine.oracle, old(machine.tick), r)
      ensures r in {Done, Killed, Raised(Io)} && (mode.sure ==> r != Raised(Io))
    {
      r := machine.Probe();
    }

    /** Create the journal's run, with every item pending. */
    method OpenRun() returns (r: Outcome)
      requires Valid() && !machine.world.book.begun
      requires mode.orderly ==> Preflighted(plan, machine.world.disk)
      modifies machine`tick, machine`world, machine`trace, this`anchor, this`mode
      ensures Valid() && machine.tick > old(machine.tick) && Excused(machine.oracle, old(machine.tick), r)
      ensures r in {Done, Killed}
      ensures machine.world.disk == old(machine.world.disk)
      ensures r == Done ==>
        && machine.world.book.begun && machine.world.book.run == Preflighting
        && machine.world.book.rows == seq(|plan.items|, _ => FRESH_ROW)
      ensures r == Done ==> forall k: nat :: k < |plan.items| ==> Fresh(machine.trace, |mode.before|, k)
      ensures r == Killed ==> machine.world == old(machine.world) && machine.trace == old(machine.trace)
      ensures SameCall(old(mode), mode)
    {
      hide Told, Run;
      ghost var w, tr := machine.world, machine.trace;
      RunEdit(plan, origin, tr, w, Edit.OpenRun(|plan.items|));
      r := journal.CreateRun(|plan.items|);
      if mode.orderly && r == Done { FreshOrderly(plan, w, machine.world); }
      if r == Done { Noted(w, tr, Edit.OpenRun(|plan.items|)); }
    }

    method SetRun(status: RunState) returns (r: Outcome)
      requires Valid() && machine.world.book.begun && status != Preflighting
      requires status == RunComplete ==> forall k :: 0 <= k < |machine.world.book.rows| ==>
                machine.world.book.rows[k].state == Complete
      modifies machine`tick, machine`world, machine`trace, this`anchor, this`mode
      ensures Valid() && machine.tick > old(machine.tick) && Excused(machine.oracle, old(machine.tick), r)
      ensures r in {Done, Killed}
      ensures machine.world.disk == old(machine.world.disk) && machine.world.book.begun
      ensures machine.world.book.rows == old(machine.world.book.rows) && old(machine.trace) <= machine.trace
      ensures r == Done ==> machine.world.book.run == status
      ensures r == Done ==>
        var s := Step(old(machine.world), RunItself(plan), OnBook(MarkRun(status)), machine.world);
        machine.trace == old(machine.trace) + [s]
      ensures r == Done ==> forall k: nat :: k < |plan.items| ==> Fresh(machine.trace, |mode.before|, k)
      ensures r == Killed ==> machine.world == old(machine.world) && machine.trace == old(machine.trace)
      ensures SameCall(old(mode), mode)
    {
      hide Told, Run;
      ghost var w, tr := machine.world, machine.trace;
      RunEdit(plan, origin, tr, w, MarkRun(status));
      r := journal.SetRunState(status);
      if r == Done { Noted(w, tr, MarkRun(status)); }
    }

    /** The run's own entry was made in world `w`: no item's turn goes on. */
    ghost method Noted(w: World, tr: seq<Step>, edit: Edit)
      requires Told(plan, anchor, machine.actor, tr, w, mode) && (edit.OpenRun? || edit.MarkRun?)
      requires Feasible(w, RunItself(plan), OnBook(edit)) && WellFormed(machine.world.disk)
      requires machine.world == After(w, RunItself(plan), OnBook(edit))
      requires machine.trace == tr + [Step(w, RunItself(plan), OnBook(edit), machine.world)]
      modifies this`anchor, this`mode
      ensures anchor == machine.world && mode == old(mode).(mark := machine.trace)
      ensures Steady(plan, anchor, machine.world, machine.actor)
      ensures Told(plan, anchor, machine.actor, machine.trace, machine.world, mode)
      ensures forall k: nat :: k < |plan.items| ==> Fresh(machine.trace, |mode.before|, k)
    {
      hide Told, Fresh;
      ToldRunEdit(plan, anchor, machine.actor, tr, w, mode, Step(w, RunItself(plan), OnBook(edit), machine.world));
      anchor, mode := machine.world, mode.(mark := machine.trace);
      SteadyNow(plan, machine.world, machine.actor);
    }

    /** Other programs change files while no call is running. */
    method Disturb(after: Disk)
      requires Valid() && Outside(machine.world.disk, after)
      modifies machine`world, machine`trace, this`anchor, this`mode
      ensures Valid() && machine.world == old(machine.world).(disk := after) && !mode.orderly && mode.firm == {}
      ensures machine.trace == old(machine.trace) + [Step(old(machine.world), 0, Elsewhere(after), machine.world)]
    {
      Happen(Elsewhere(after), after);
    }

    method LosePower(after: Disk)
      requires Valid() && PowerLoss(machine.world.disk, after)
      modifies machine`world, machine`trace, this`anchor, this`mode
      ensures Valid() && machine.world == old(machine.world).(disk := after) && !mode.orderly && mode.firm == {}
      ensures machine.trace == old(machine.trace) + [Step(old(machine.world), 0, Outage(after), machine.world)]
    {
      Happen(Outage(after), after);
    }

    method Happen(ghost e: Effect, after: Disk)
      requires Valid() && e in {Elsewhere(after), Outage(after)} && Feasible(machine.world, 0, e)
      modifies machine`world, machine`trace, this`anchor, this`mode
      ensures Valid() && machine.world == old(machine.world).(disk := after) && !mode.orderly && mode.firm == {}
      ensures machine.trace == old(machine.trace) + [Step(old(machine.world), 0, e, machine.world)]
    {
      hide Run, Inv, Steady, Outside, PowerLoss;
      ghost var s := Step(machine.world, 0, e, After(machine.world, 0, e));
      RunExtends(plan, origin, machine.trace, machine.world, s);
      InvKept(plan, machine.world, 0, e);
      machine.world := machine.world.(disk := after);
      machine.trace := machine.trace + [s];
      anchor, mode := machine.world, Mode(machine.trace, machine.trace, false, {}, false, false);
      OnlyDisk(plan, machine.world);
      SteadyNow(plan, machine.world, machine.actor);
    }

    /** What the acting item may rely on. */
    lemma Facts(k: nat)
      requires Ready(k)
      ensures Shaped(plan) && WellFormed(machine.world.disk) && Inv(plan, machine.world)
      ensures RowInv(plan, machine.world, k)
      ensures mode.orderly ==> SoundWriters(plan) && (GivenUp(State(k)) || OnTrack(plan, machine.world, k))
      ensures Assured(k) ==> OnTrack(plan, machine.world, k)
    {
    }

    /** Work that only reads. */
    method Probe(k: nat) returns (r: Outcome)
      requires Ready(k)
      modifies machine`tick
      ensures Turned(k, r) && r in {Done, Killed, Raised(Io)}
    {
      r := machine.Probe();
    }

    // -------------------------------------------------------------- journal entries

    method Transition(k: nat, to: ItemState, fields: Fields) returns (r: Outcome)
      requires Ready(k) && BookRule(plan, machine.world, k, Move(to, fields)) && (to == PreflightOk ==> mode.accepting)
      requires mode.orderly ==> Proper(plan, machine.world, k, OnBook(Move(to, fields)))
      requires Assured(k) ==> !GivenUp(to)
      modifies machine`tick, machine`world, machine`trace
      ensures Turned(k, r) && r in {Done, Killed}
      ensures r == Done ==> machine.world == After(old(machine.world), k, OnBook(Move(to, fields)))
      ensures r == Killed ==> machine.world == old(machine.world)
    {
      hide InTurn, Inv, Orderly;
      Facts(k);
      TurnEdit(plan, origin, anchor, k, machine.trace, machine.world, mode, Move(to, fields));
      r := journal.Transition(k, to, fields);
    }

    method NoteError(k: nat) returns (r: Outcome)
      requires Ready(k) && State(k) in {Committing, Committed, CleanupPending}
      modifies machine`tick, machine`world, machine`trace
      ensures Turned(k, r) && r in {Done, Killed}
      ensures machine.world.disk == old(machine.world.disk) && machine.world.book.rows == old(machine.world.book.rows)
    {
      hide InTurn, Inv, Orderly;
      Facts(k);
      TurnEdit(plan, origin, anchor, k, machine.trace, machine.world, mode, Note);
      r := journal.NoteError(k);
    }

    // -------------------------------------------------------------- directories

    /** Sound operations at the paths `s` and `t` since the world was `w` continue the item's turn. */
    lemma Acted(k: nat, w: World, tr: seq<Step>, ops: seq<Op>, s: Path, t: Path)
      requires Shaped(plan) && k < |plan.items| && machine.actor == k
      requires InTurn(plan, origin, anchor, k, tr, w, mode) && (mode.orderly ==> Promised(w))
      requires Sound(plan, w, k, ops, anchor.disk) && Ran(machine, w, tr, ops) && OnlyAims(ops, s, t)
      requires k in mode.firm ==> Firm(plan, anchor.disk, k)
      ensures InTurn(plan, origin, anchor, k, machine.trace, machine.world, mode) && Inv(plan, machine.world)
      ensures machine.world.book == w.book && (mode.orderly ==> Promised(machine.world))
      ensures OnlyAt(w.disk, machine.world.disk, s, t)
    {
      hide InTurn, Inv, Orderly, OnlyAt, Firm;
      TurnFacts(plan, origin, anchor, k, tr, w, mode);
      TurnOps(plan, origin, anchor, k, tr, w, mode, ops);
      SparedAll(plan, w, k, ops, s, t);
    }

    /** Making the way to a directory from the world `w` to `v` continues the item's turn. */
    lemma WayMade(k: nat, g: Dir, w: World, tr: seq<Step>, ops: seq<Op>, v: World, mid: seq<Step>)
      requires Shaped(plan) && k < |plan.items| && k < |w.book.rows| && Needed(plan.items[k], StageDir(plan, k), g)
      requires InTurn(plan, origin, anchor, k, tr, w, mode) && (mode.orderly ==> Promised(w))
      requires (k in mode.firm ==> Firm(plan, anchor.disk, k)) && (Reliable(machine.oracle) ==> Gentle(ops))
      requires Ensuring(w.disk, g, plan.items[k].folderMode, ops)
      requires AllPossible(w, k, ops) && v == Do(w, k, ops) && mid == tr + Steps(w, k, ops)
      ensures InTurn(plan, origin, anchor, k, mid, v, mode) && Inv(plan, v) && WellFormed(v.disk)
      ensures v.book == w.book && (mode.orderly ==> Promised(v))
      ensures AllSame(w.disk, v.disk)
    {
      hide InTurn, Inv, Orderly, AllSame, Ensuring, Gentle, Needed;
      TurnFacts(plan, origin, anchor, k, tr, w, mode);
      EnsureSound(plan, w, k, g, plan.items[k].folderMode, ops, anchor.disk);
      TurnOps(plan, origin, anchor, k, tr, w, mode, ops);
      OnlyDisk(plan, v);
      forall op | op in ops ensures Target(op).None? { EnsuringTargets(w.disk, g, plan.items[k].folderMode, ops, op); }
      AllSpared(plan, w, k, ops);
      EnsuringGrows(w, k, g, plan.items[k].folderMode, ops);
      if mode.orderly && w.book.begun { WayOrderly(plan, w, v); }
    }

    /** Make a directory that the item needs, walking down from the library root. */
    method EnsureFolder(k: nat, g: Dir) returns (r: Outcome)
      requires Ready(k) && g in {StageDir(plan, k), plan.items[k].destination.dir}
      modifies machine`tick, machine`world, machine`trace
      ensures Turned(k, r) && r in {Done, Killed, Raised(Io), Raised(Invalid)} && (Assured(k) ==> r in {Done, Killed})
      ensures machine.world.book == old(machine.world.book) && AllSame(old(machine.world.disk), machine.world.disk)
      ensures r == Done ==> g in machine.world.disk.folders && machine.world.disk.loose <= old(machine.world.disk.loose)
      ensures r == Done && plan.items[k].destination !in old(machine.world.disk.names) ==> Carried(k)
    {
      hide InTurn, Inv, RowInv, Orderly, Above, Ensuring, Gentle, AllSame, Ensured, Shaped, Firm, Carries;
      Facts(k);
      ghost var w, tr := machine.world, machine.trace;
      RootAbove(plan, k);
      ghost var ops;
      r, ops := fs.EnsureDirectory(Folder(plan.items[k].root), g, plan.items[k].folderMode);
      WayMade(k, g, w, tr, ops, machine.world, machine.trace);
      if ops == [] { assert machine.world == w; }
      if r == Done {
        EnsuredFrame(w.disk, machine.world.disk, g, plan.items[k].folderMode);
        if plan.items[k].destination !in w.disk.names {
          WayCarries(plan, w, k, g, plan.items[k].folderMode);
          CarriesOn(plan, anchor.disk, w.disk, machine.world.disk, k);
        }
      }
    }

    // -------------------------------------------------------------- filesystem calls

    /** The format writer fills the new staging name; the file may be torn when it is cut short. */
    method WriteStage(k: nat, content: Bytes) returns (r: Outcome)
      requires Ready(k) && State(k) == Staging && machine.world.book.rows[k].staging.Some? && !StageThere(k)
      requires StageDir(plan, k) in machine.world.disk.folders
      modifies machine`tick, machine`world, machine`trace
      ensures Turned(k, r) && r in {Done, Killed, Raised(Io)}
      ensures machine.world.book == old(machine.world.book)
      ensures var s := machine.world.book.rows[k].staging.value;
              && OnlyAt(old(machine.world.disk), machine.world.disk, s, s)
              && (r == Done ==> Holds(machine.world.disk, s, content))
      ensures Carried(k)
    {
      hide InTurn, Inv, RowInv, Orderly, Sound, Do, Steps, AllPossible, Legit, Apart, Perform, Fast, OnlyAims, Firm,
        Carries, OnStage;
      Facts(k);
      ghost var w, tr := machine.world, machine.trace;
      var s := machine.world.book.rows[k].staging.value;
      var torn := machine.garbage(machine.tick);
      var ops := StageOps(s, torn, content);
      assert ops[..3] == ops;
      FillSound(plan, w, k, torn, content, 3, anchor.disk);
      ghost var n;
      r, n := fs.Sequence(ops);
      FillSound(plan, w, k, torn, content, n, anchor.disk);
      FillAims(s, torn, content, n);
      Acted(k, w, tr, ops[..n], s, s);
      StageName(plan, w, k);
      FillOnStage(s, torn, content, n);
      StageCarries(plan, w, k, ops[..n], s);
      CarriesOn(plan, anchor.disk, w.disk, machine.world.disk, k);
    }

    method SetStageMode(k: nat) returns (r: Outcome)
      requires Ready(k) && State(k) == Staged && StageThere(k)
      modifies machine`tick, machine`world, machine`trace
      ensures Turned(k, r) && r in {Done, Killed, Raised(Io)}
      ensures machine.world.book == old(machine.world.book)
      ensures var s := machine.world.book.rows[k].staging.value;
              && OnlyAt(old(machine.world.disk), machine.world.disk, s, s)
              && (r == Done ==> StageReady(old(machine.world.disk), machine.world.disk, s, plan.items[k].mode))
      ensures Carried(k)
    {
      hide InTurn, Inv, RowInv, Orderly, Sound, Legit, Apart, OnlyAims, Firm, Carries;
      Facts(k);
      ghost var w, tr := machine.world, machine.trace;
      var s := machine.world.book.rows[k].staging.value;
      var op := Chmod(s, plan.items[k].mode);
      ModeSound(plan, w, k, plan.items[k].mode, anchor.disk);
      OneStep(w, k, op);
      ChmodAims(s, plan.items[k].mode);
      r := machine.Attempt(op);
      if r == Done {
        Acted(k, w, tr, [op], s, s);
        StageName(plan, w, k);
        StageCarries(plan, w, k, [op], s);
        CarriesOn(plan, anchor.disk, w.disk, machine.world.disk, k);
      } else {
        NothingElse(w.disk, s);
      }
    }

    method MakeStageDurable(k: nat) returns (r: Outcome)
      requires Ready(k) && StageThere(k)
      modifies machine`tick, machine`world, machine`trace
      ensures Turned(k, r) && r in {Done, Killed, Raised(Io)}
      ensures machine.world.book == old(machine.world.book)
      ensures var s := machine.world.book.rows[k].staging.value;
              && OnlyAt(old(machine.world.disk), machine.world.disk, s, s)
              && (r == Done ==>
                   && StageReady(old(machine.world.disk), machine.world.disk, s, old(ModeOf(machine.world.disk, s)))
                   && Secured(machine.world.disk, s))
      ensures Carried(k)
    {
      hide InTurn, Inv, RowInv, Orderly, Sound, Do, Steps, AllPossible, Legit, Apart, Perform, Fast, OnlyAims, Firm,
        Carries, OnStage;
      Facts(k);
      ghost var w, tr := machine.world, machine.trace;
      var s := machine.world.book.rows[k].staging.value;
      ghost var n;
      r, n := fs.MakeFileDurable(s);
      SealSound(plan, w, k, n, anchor.disk);
      SealAims(s, n);
      Acted(k, w, tr, DurableOps(s)[..n], s, s);
      StageName(plan, w, k);
      SealOnStage(s, n);
      StageCarries(plan, w, k, DurableOps(s)[..n], s);
      CarriesOn(plan, anchor.disk, w.disk, machine.world.disk, k);
    }

    /** Publish the staged inode under the destination name. */
    method Publish(k: nat) returns (r: Outcome)
      requires Ready(k) && State(k) == Committing && StageThere(k)
      requires Poised(k)
      modifies machine`tick, machine`world, machine`trace
      ensures Turned(k, r)
      ensures machine.world.book == old(machine.world.book)
      ensures r == Raised(DestinationExists) ==>
                plan.items[k].destination in old(machine.world.disk.names) &&
                plan.items[k].destination in machine.world.disk.names
      ensures r != Raised(StaleSource)
      ensures Publishable(old(machine.world.disk), plan.items[k]) ==> r in {Done, Killed, Raised(Io)}
      ensures var s, t := machine.world.book.rows[k].staging.value, plan.items[k].destination;
              && OnlyAt(old(machine.world.disk), machine.world.disk, s, t)
              && (r == Done ==> Landed(old(machine.world.disk), machine.world.disk, s, t) && !StageThere(k))
      ensures r == Done ==> Carried(k)
    {
      hide InTurn, Inv, RowInv, Orderly, Sound, Do, Steps, AllPossible, Legit, Apart, Perform, Fast, OnlyAims, Firm,
        Carries, OnStage;
      Facts(k);
      ghost var w, tr := machine.world, machine.trace;
      var s, t := machine.world.book.rows[k].staging.value, plan.items[k].destination;
      ghost var n;
      r, n := fs.Commit(s, t);
      if Firm(plan, anchor.disk, k) { CarriedFirm(plan, anchor.disk, w.disk, k); }
      CommitSound(plan, w, k, n, anchor.disk);
      CommitAims(s, t, n);
      Acted(k, w, tr, CommitOps(s, t)[..n], s, t);
      if n == 6 {
        assert CommitOps(s, t)[..6] == CommitOps(s, t);
        CommitLands(w, k, s, t);
        StageName(plan, w, k);
        PublishCarries(plan, w, k, s);
        CarriesOn(plan, anchor.disk, w.disk, machine.world.disk, k);
      }
    }

    /** Take the staging name of a published output away. */
    method DropStage(k: nat) returns (r: Outcome)
      requires Ready(k) && StageThere(k)
      requires MayDropStage(plan, machine.world, k, machine.world.book.rows[k].staging.value)
      requires Poised(k)
      modifies machine`tick, machine`world, machine`trace
      ensures Turned(k, r) && r in {Done, Killed, Raised(Io)}
      ensures machine.world.book == old(machine.world.book)
      ensures var s := machine.world.book.rows[k].staging.value;
              && OnlyAt(old(machine.world.disk), machine.world.disk, s, s)
              && (r == Done ==> s !in machine.world.disk.names)
      ensures Carried(k)
    {
      hide InTurn, Inv, RowInv, Orderly, Sound, Do, Steps, AllPossible, Legit, Apart, Perform, Fast, OnlyAims, Firm,
        Carries, OnStage;
      Facts(k);
      ghost var w, tr := machine.world, machine.trace;
      var s := machine.world.book.rows[k].staging.value;
      ghost var n;
      r, n := fs.DurableUnlink(s);
      if Firm(plan, anchor.disk, k) { CarriedFirm(plan, anchor.disk, w.disk, k); }
      DropSound(plan, w, k, n, anchor.disk);
      UnlinkAims(s, n);
      Acted(k, w, tr, UnlinkOps(s)[..n], s, s);
      StageName(plan, w, k);
      DropOnStage(s, n);
      StageCarries(plan, w, k, UnlinkOps(s)[..n], s);
      CarriesOn(plan, anchor.disk, w.disk, machine.world.disk, k);
    }

    method RemoveSource(k: nat) returns (r: Outcome)
      requires Ready(k) && MayRemoveSource(plan, machine.world, k) && Poised(k)
      modifies machine`tick, machine`world, machine`trace
      ensures Turned(k, r) && r in {Done, Killed, Raised(Io)}
      ensures machine.world.book == old(machine.world.book)
      ensures var s := plan.items[k].source;
              && OnlyAt(old(machine.world.disk), machine.world.disk, s, s)
              && (r == Done ==> s !in machine.world.disk.names)
    {
      hide InTurn, Inv, RowInv, Orderly, Sound, Do, Steps, AllPossible, Legit, Apart, Perform, Fast, OnlyAims, Firm,
        Carries, OnStage;
      Facts(k);
      ghost var w, tr := machine.world, machine.trace;
      var s := plan.items[k].source;
      ghost var n;
      r, n := fs.DurableUnlink(s);
      RemovalSound(plan, w, k, n, anchor.disk);
      UnlinkAims(s, n);
      Acted(k, w, tr, UnlinkOps(s)[..n], s, s);
    }

    /** Copy the source to its archive name, making the archive's directory first. */
    method CopyArchive(k: nat) returns (r: Outcome)
      requires Ready(k) && State(k) == CleanupPending && plan.items[k].lifecycle.ArchiveAfterVerify?
      modifies machine`tick, machine`world, machine`trace
      ensures Turned(k, r)
      ensures machine.world.book == old(machine.world.book)
      ensures var it := plan.items[k];
              && Apart(old(machine.world.disk), machine.world.disk,
                CopyTemp(old(machine.world), it.lifecycle.archive), it.lifecycle.archive)
              && (SourceHere(old(machine.world.disk), it) && it.lifecycle.archive !in old(machine.world.disk.names) ==>
                    r in {Done, Killed, Raised(Io)})
              && (r == Done ==> ArchiveHolds(machine.world.disk, it))
              && (r == Done ==> Secured(machine.world.disk, it.lifecycle.archive))
              && (r == Raised(DestinationExists) ==> it.lifecycle.archive in machine.world.disk.names)
      ensures r != Raised(StaleSource)
      ensures r == Done ==> machine.world.disk.loose <= old(machine.world.disk.loose)
      ensures r == Done && plan.items[k].destination in old(machine.world.disk.names) ==> Carried(k)
    {
      hide InTurn, Inv, RowInv, Orderly, Ensuring, Gentle, AllSame, Ensured, Do, Steps, AllPossible, Apart, CopyLog,
        Firm, Carries, EnsureOps;
      Facts(k);
      ghost var w, tr := machine.world, machine.trace;
      var it := plan.items[k];
      var archive := it.lifecycle.archive;
      ghost var temp := CopyTemp(w, archive);
      ArchiveTempFresh(plan, w, k, temp, archive);
      ghost var made, v, mid, content, torn, n, cleaned;
      r, made, v, mid, content, torn, n, cleaned := fs.CopyForArchive(it.source, archive, it.fingerprint,
        it.folderMode);
      WayMade(k, archive.dir, w, tr, made, v, mid);
      if n > 0 || r == Done || (r.Raised? && Reliable(machine.oracle)) {
        EnsuredFrame(w.disk, v.disk, archive.dir, it.folderMode);
      }
      CopyTurn(k, w, v, mid, torn, content, n, cleaned);
      if r == Done {
        CopyArchives(v, k, temp, archive, torn, content);
        if it.destination in w.disk.names {
          ArchiveCarries(plan, w, k, it.folderMode, v, temp, torn, content);
          CarriesOn(plan, anchor.disk, w.disk, machine.world.disk, k);
        }
      }
    }

    /** The archive copy proper, since the world was `v`. */
    lemma CopyTurn(k: nat, w: World, v: World, mid: seq<Step>, torn: Bytes, content: Bytes, n: nat, cleaned: bool)
      requires Shaped(plan) && fs.machine == machine && k < |plan.items| && k < |v.book.rows| && n <= 10
      requires k in mode.firm ==> Firm(plan, anchor.disk, k)
      requires (cleaned ==> n >= 1)
      requires machine.actor == k && InTurn(plan, origin, anchor, k, mid, v, mode) && v.book == w.book
      requires WellFormed(w.disk)
      requires mode.orderly ==> Promised(v)
      requires v.book.rows[k].state == CleanupPending && plan.items[k].lifecycle.ArchiveAfterVerify?
      requires var it := plan.items[k];
               && AllSame(w.disk, v.disk)
               && (n > 0 ==> it.lifecycle.archive.dir in v.disk.folders && v.supply == w.supply)
               && (n > 4 ==> content == it.fingerprint.of) && (it.lifecycle.archive in w.disk.names ==> n <= 5)
               && Ran(machine, v, mid,
                 CopyLog(CopyTemp(w, it.lifecycle.archive), it.lifecycle.archive, torn, content, n, cleaned))
      ensures InTurn(plan, origin, anchor, k, machine.trace, machine.world, mode) && Inv(plan, machine.world)
      ensures machine.world.book == w.book && (mode.orderly ==> Promised(machine.world))
      ensures Apart(w.disk, machine.world.disk,
                CopyTemp(w, plan.items[k].lifecycle.archive), plan.items[k].lifecycle.archive)
      ensures OnlyAt(v.disk, machine.world.disk, CopyTemp(w, plan.items[k].lifecycle.archive),
                plan.items[k].lifecycle.archive)
    {
      hide InTurn, Inv, Orderly, Firm;
      var archive := plan.items[k].lifecycle.archive;
      var temp := CopyTemp(w, archive);
      var log := CopyLog(temp, archive, torn, content, n, cleaned);
      assert Inv(plan, v) by { TurnFacts(plan, origin, anchor, k, mid, v, mode); }
      CopyKinds(temp, archive, torn, content, n, cleaned);
      if n == 0 {
        assert log == [];
        SoundNothing(plan, v, k, anchor.disk);
      } else {
        assert Same(w.disk, v.disk, archive);
        CopySound(plan, v, k, temp, archive, torn, content, n, cleaned, anchor.disk);
      }
      TurnOps(plan, origin, anchor, k, mid, v, mode, log);
      SparedAll(plan, v, k, log, temp, archive);
      assert Apart(w.disk, v.disk, temp, archive);
      ApartTrans(w.disk, v.disk, machine.world.disk, temp, archive);
    }
  }

  /** The operations are on the files `s` and `t` only. */
  predicate OnlyAims(ops: seq<Op>, s: Path, t: Path) {
    && OnFiles(ops) && Gentle(ops)
    && forall op :: op in ops ==> Target(op).None? || Target(op) == Some(s) || Target(op) == Some(t)
  }

  lemma AimsCut(ops: seq<Op>, n: nat, s: Path, t: Path)
    requires OnlyAims(ops, s, t) && n <= |ops|
    ensures OnlyAims(ops[..n], s, t)
  {
  }

  lemma FillAims(s: Path, torn: Bytes, content: Bytes, n: nat)
    requires n <= 3
    ensures OnlyAims(StageOps(s, torn, content)[..n], s, s)
  {
    AimsCut(StageOps(s, torn, content), n, s, s);
  }

  lemma ChmodAims(s: Path, mode: nat)
    ensures OnlyAims([Chmod(s, mode)], s, s)
  {
  }

  lemma SealAims(s: Path, n: nat)
    requires n <= 2
    ensures OnlyAims(DurableOps(s)[..n], s, s)
  {
    AimsCut(DurableOps(s), n, s, s);
  }

  lemma CommitAims(s: Path, t: Path, n: nat)
    requires n <= 6
    ensures OnlyAims(CommitOps(s, t)[..n], s, t)
  {
    AimsCut(CommitOps(s, t), n, s, t);
  }

  lemma UnlinkAims(s: Path, n: nat)
    requires n <= 2
    ensures OnlyAims(UnlinkOps(s)[..n], s, s)
  {
    AimsCut(UnlinkOps(s), n, s, s);
  }

  lemma NothingElse(d: Disk, s: Path)
    ensures OnlyAt(d, d, s, s)
  {
  }

  lemma StageName(plan: Plan, w: World, k: nat)
    requires Inv(plan, w) && k < |plan.items| && k < |w.book.rows| && w.book.rows[k].staging.Some?
    ensures var s := w.book.rows[k].staging.value; s.name.Random? && s.dir == StageDir(plan, k) && !s.dir.Folder?
  {
    assert RowInv(plan, w, k);
  }

  lemma TurnFacts(plan: Plan, origin: World, a: World, k: nat, tr: seq<Step>, w: World, mode: Mode)
    requires InTurn(plan, origin, a, k, tr, w, mode)
    ensures Inv(plan, w)
  {
  }

  lemma ArchiveTempFresh(plan: Plan, w: World, k: nat, temp: Path, archive: Path)
    requires Shaped(plan) && Inv(plan, w) && k < |plan.items| && plan.items[k].lifecycle == ArchiveAfterVerify(archive)
    requires temp == CopyTemp(w, archive)
    ensures temp !in w.disk.names && archive != temp && WellFormed(w.disk)
  {
    FreshUnused(plan, w, temp);
  }

  /** A staged inode can be published: the destination's name is free and its directory there. */
  predicate Publishable(d: Disk, it: Item) {
    it.destination !in d.names && it.destination.dir in d.folders
  }

  /** The directories that an item needs lie below its library root. */
  lemma RootAbove(plan: Plan, k: nat)
    requires Shaped(plan) && k < |plan.items|
    ensures Above(Folder(plan.items[k].root), StageDir(plan, k))
    ensures Above(Folder(plan.items[k].root), plan.items[k].destination.dir)
  {
    var root := plan.items[k].root;
    assert Parent(Parent(Parent(StageDir(plan, k)))) == Folder(root);
    assert Above(Folder(root), StageTop(root)) && Above(Folder(root), StageRun(root));
    PrefixAbove(root, plan.items[k].destination.dir.path);
  }

  function ModeOf(d: Disk, p: Path): nat
    requires WellFormed(d) && p in d.names
  {
    d.files[d.names[p]].mode
  }

  /** `s` still names the same bytes, with the given mode. */
  ghost predicate StageReady(d: Disk, e: Disk, s: Path, mode: nat)
    requires WellFormed(d) && s in d.names
  {
    Holds(e, s, Content(d, s)) && e.files[e.names[s]].mode == mode
  }

  lemma OneStep(w: World, k: nat, op: Op)
    requires Possible(w.disk, op)
    ensures AllPossible(w, k, [op]) && Do(w, k, [op]) == After(w, k, OnDisk(op))
    ensures Steps(w, k, [op]) == [Step(w, k, OnDisk(op), After(w, k, OnDisk(op)))]
  {
    var one := [op];
    assert one[..0] == [] && Do(w, k, []) == w;
  }

  lemma CopyKinds(temp: Path, archive: Path, torn: Bytes, content: Bytes, n: nat, cleaned: bool)
    requires n <= 10
    ensures var log := CopyLog(temp, archive, torn, content, n, cleaned);
            && OnFiles(log) && Gentle(log)
            && forall op :: op in log ==> Target(op).None? || Target(op) == Some(temp) || Target(op) == Some(archive)
  {
    forall op | op in CopyLog(temp, archive, torn, content, n, cleaned)
      ensures Target(op).None? || Target(op) == Some(temp) || Target(op) == Some(archive)
      ensures OnFile(op) || op.SyncDir?
    {
      CopyAims(temp, archive, torn, content, op);
    }
  }

  lemma CopyAims(temp: Path, archive: Path, torn: Bytes, content: Bytes, op: Op)
    requires op in CopyOps(temp, archive, torn, content) || op == Unlink(temp)
    ensures Target(op).None? || Target(op) == Some(temp) || Target(op) == Some(archive)
    ensures OnFile(op) || op.SyncDir?
  {
    if op in CopyOps(temp, archive, torn, content) {
      assert op in PrepareOps(temp, torn, content) || op in CommitOps(temp, archive);
    }
  }
}
