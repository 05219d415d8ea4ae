/** The machine a process runs on, and the filesystem calls it makes there, one effect at a time.
    Before any effect the process may be killed, or the call may fail. */
module Filesystem {
  import opened Basics
  import opened Disks
  import opened Journals
  import opened Protocol
  import opened Operations
  import opened Durability
  import opened Directories

  datatype Answer = Go | Kill | Fail

  /** `Io` is a failure of the surroundings, `Invalid` a refusal of the program's own checks. */
  datatype Error = Io | Invalid | StaleSource | DestinationExists

  datatype Outcome = Done | Killed | Raised(error: Error) {
    predicate IsFailure() {
      !Done?
    }

    function PropagateFailure(): Outcome
      requires IsFailure()
    {
      this
    }
  }

  /** Calls may be cut short, but none fails for an outside reason. */
  ghost predicate Reliable(oracle: nat -> Answer) {
    forall t: nat :: oracle(t) != Fail
  }

  /** Nothing goes wrong from moment `from` on. */
  ghost predicate Smooth(oracle: nat -> Answer, from: nat) {
    forall t: nat :: from <= t ==> oracle(t) == Go
  }

  /** From moment `from` on calls may be cut short, but none fails for an outside reason. */
  ghost predicate Unfailing(oracle: nat -> Answer, from: nat) {
    forall t: nat :: from <= t ==> oracle(t) != Fail
  }

  /** Being killed or failing needs a cause. */
  ghost predicate Excused(oracle: nat -> Answer, from: nat, r: Outcome) {
    && (r == Killed ==> !Smooth(oracle, from))
    && (r == Raised(Io) ==> !Reliable(oracle) && !Smooth(oracle, from) && !Unfailing(oracle, from))
  }

  class Machine {
    const oracle: nat -> Answer
    const garbage: nat -> Bytes
    var world: World
    var tick: nat
    ghost var actor: nat
    ghost var trace: seq<Step>

    constructor (disk: Disk, oracle: nat -> Answer, garbage: nat -> Bytes)
      ensures world == World(disk, EMPTY_BOOK, 0) && tick == 0 && trace == [] && this.oracle == oracle
    {
      world := World(disk, EMPTY_BOOK, 0);
      this.oracle, this.garbage := oracle, garbage;
      tick, actor, trace := 0, 0, [];
    }

    /** A new process over what earlier ones left behind. */
    constructor Resumed(world: World, oracle: nat -> Answer, garbage: nat -> Bytes, ghost trace: seq<Step>)
      ensures this.world == world && tick == 0 && this.trace == trace && this.oracle == oracle
    {
      this.world, this.oracle, this.garbage := world, oracle, garbage;
      tick, actor, this.trace := 0, 0, trace;
    }

    /** Any work that has no effect of its own: reading, hashing, checking capabilities. */
    method Probe() returns (r: Outcome)
      modifies this`tick
      ensures tick > old(tick) && Excused(oracle, old(tick), r)
      ensures r in {Done, Killed, Raised(Io)}
    {
      var a := oracle(tick);
      tick := tick + 1;
      match a {
        case Go => return Done;
        case Kill => return Killed;
        case Fail => return Raised(Io);
      }
    }

    /** One system call. */
    method Attempt(op: Op) returns (r: Outcome)
      modifies this`tick, this`world, this`trace
      ensures tick > old(tick) && Excused(oracle, old(tick), r)
      ensures r == Done ==>
        && Possible(old(world).disk, op)
        && world == After(old(world), actor, OnDisk(op))
        && trace == old(trace) + [Step(old(world), actor, OnDisk(op), world)]
      ensures r != Done ==> world == old(world) && trace == old(trace)
      ensures Possible(old(world).disk, op) ==> r in {Done, Killed, Raised(Io)}
      ensures r == Raised(DestinationExists) ==> op.Link? && op.path in old(world).disk.names
      ensures r != Raised(StaleSource)
    {
      r := Probe();
      if r == Done {
        var d := world.disk;
        if op.Link? && op.from in d.names && op.path in d.names { return Raised(DestinationExists); }
        if !Possible(d, op) { return Raised(Invalid); }
        ghost var before := world;
        world := World(Perform(d, op), world.book, Supply(world.supply, OnDisk(op)));
        trace := trace + [Step(before, actor, OnDisk(op), world)];
      }
    }
  }

  /** The world and trace after the operations `ops` since `w` and `tr`. */
  ghost predicate Ran(m: Machine, w: World, tr: seq<Step>, ops: seq<Op>)
    reads m
  {
    AllPossible(w, m.actor, ops) && m.world == Do(w, m.actor, ops) && m.trace == tr + Steps(w, m.actor, ops)
  }

  /** The way down to `current` is made, and nothing else was done since `w` and `tr`. */
  ghost predicate Standing(m: Machine, w: World, tr: seq<Step>, current: Dir, g: Dir, mode: nat, ops: seq<Op>)
    reads m
  {
    && WellFormed(w.disk) && Above(current, g) && ops == EnsureOps(w.disk, current, mode) && Ran(m, w, tr, ops)
    && current in m.world.disk.folders && WellFormed(m.world.disk)
  }

  lemma StandsStill(m: Machine, current: Dir, g: Dir, mode: nat)
    requires WellFormed(m.world.disk) && Above(current, g) && current in m.world.disk.folders
    ensures Standing(m, m.world, m.trace, current, g, mode, [])
  {
    RanNothing(m);
  }

  lemma StandsAtEnd(m: Machine, w: World, tr: seq<Step>, g: Dir, mode: nat, ops: seq<Op>)
    requires Standing(m, w, tr, g, g, mode, ops)
    ensures Ran(m, w, tr, ops) && ops == EnsureOps(w.disk, g, mode) && Ensured(w.disk, m.world.disk, g, mode)
    ensures Ensuring(w.disk, g, mode, ops) && Gentle(ops)
  {
    EnsurePoint(w, m.actor, g, mode);
    EnsureGentle(w.disk, g, mode);
  }

  class LinuxFilesystem {
    const machine: Machine

    constructor (machine: Machine)
      ensures this.machine == machine
    {
      this.machine := machine;
    }

    /** Perform `ops` in order until one does not succeed. */
    method Sequence(ops: seq<Op>) returns (r: Outcome, ghost n: nat)
      modifies machine`tick, machine`world, machine`trace
      ensures machine.tick >= old(machine.tick) && Excused(machine.oracle, old(machine.tick), r)
      ensures n <= |ops| && Ran(machine, old(machine.world), old(machine.trace), ops[..n])
      ensures r == Done <==> n == |ops|
      ensures AllPossible(old(machine.world), machine.actor, ops) ==> r in {Done, Killed, Raised(Io)}
      ensures r == Raised(DestinationExists) ==>
        n < |ops| && ops[n].Link? && ops[n].path in machine.world.disk.names
      ensures r != Raised(StaleSource)
    {
      hide AllPossible, Do, Steps, Perform, Possible;
      r, n := Done, 0;
      var i := 0;
      RanNothing(machine);
      assert ops[..0] == [];
      while i < |ops|
        invariant i <= |ops| && n == i && r == Done
        invariant machine.tick >= old(machine.tick)
        invariant Ran(machine, old(machine.world), old(machine.trace), ops[..i])
      {
        ghost var w, tr := machine.world, machine.trace;
        if AllPossible(old(machine.world), machine.actor, ops) {
          NextPossible(old(machine.world), machine.actor, ops, i);
        }
        r := machine.Attempt(ops[i]);
        if r != Done { return; }
        RanOne(machine, old(machine.world), old(machine.trace), ops[..i], w, tr, ops[i]);
        assert ops[..i + 1] == ops[..i] + [ops[i]];
        i, n := i + 1, n + 1;
      }
      assert ops[..n] == ops;
    }

    /** Publish a staged inode under a name that must not exist yet, with every barrier in place before
        the staging name goes. */
    method Commit(staged: Path, destination: Path) returns (r: Outcome, ghost n: nat)
      modifies machine`tick, machine`world, machine`trace
      ensures machine.tick >= old(machine.tick) && Excused(machine.oracle, old(machine.tick), r)
      ensures n <= 6 && Ran(machine, old(machine.world), old(machine.trace), CommitOps(staged, destination)[..n])
      ensures r == Done <==> n == 6
      ensures destination in old(machine.world).disk.names ==> n <= 1
      ensures destination.dir !in old(machine.world).disk.folders ==> n == 0
      ensures r == Raised(DestinationExists) ==>
                destination in old(machine.world).disk.names && destination in machine.world.disk.names
      ensures r != Raised(StaleSource)
      ensures Linkable(old(machine.world).disk, staged, destination) ==> r in {Done, Killed, Raised(Io)}
    {
      ghost var w := machine.world;
      if destination.dir !in machine.world.disk.folders {
        assert Ran(machine, w, machine.trace, CommitOps(staged, destination)[..0]);
        return Raised(Invalid), 0;
      }
      if Linkable(w.disk, staged, destination) {
        CommitResult(w, machine.actor, staged, destination);
      }
      r, n := Sequence(CommitOps(staged, destination));
      if destination in w.disk.names { FirstTwo(w, machine.actor, staged, destination, n); }
      if n == 1 { FirstOnly(w, machine.actor, staged, destination); }
    }

    method MakeFileDurable(p: Path) returns (r: Outcome, ghost n: nat)
      modifies machine`tick, machine`world, machine`trace
      ensures machine.tick >= old(machine.tick) && Excused(machine.oracle, old(machine.tick), r)
      ensures n <= 2 && Ran(machine, old(machine.world), old(machine.trace), DurableOps(p)[..n])
      ensures r == Done <==> n == 2
      ensures r !in {Raised(DestinationExists), Raised(StaleSource)}
      ensures Possible(old(machine.world).disk, SyncFile(p)) ==> r in {Done, Killed, Raised(Io)}
    {
      ghost var w := machine.world;
      if Possible(w.disk, SyncFile(p)) { TwoPossible(w, machine.actor, SyncFile(p), p.dir); }
      r, n := Sequence(DurableOps(p));
    }

    method DurableUnlink(p: Path) returns (r: Outcome, ghost n: nat)
      modifies machine`tick, machine`world, machine`trace
      ensures machine.tick >= old(machine.tick) && Excused(machine.oracle, old(machine.tick), r)
      ensures n <= 2 && Ran(machine, old(machine.world), old(machine.trace), UnlinkOps(p)[..n])
      ensures r == Done <==> n == 2
      ensures r !in {Raised(DestinationExists), Raised(StaleSource)}
      ensures p in old(machine.world).disk.names ==> r in {Done, Killed, Raised(Io)}
    {
      ghost var w := machine.world;
      if p in w.disk.names { TwoPossible(w, machine.actor, Unlink(p), p.dir); }
      r, n := Sequence(UnlinkOps(p));
    }

    // -------------------------------------------------------------- directories

    /** Make the missing directories from `root` down to `g`. */
    method EnsureDirectory(root: Dir, g: Dir, mode: nat) returns (r: Outcome, ghost ops: seq<Op>)
      requires WellFormed(machine.world.disk)
      modifies machine`tick, machine`world, machine`trace
      ensures machine.tick >= old(machine.tick) && Excused(machine.oracle, old(machine.tick), r)
      ensures Ran(machine, old(machine.world), old(machine.trace), ops)
      ensures Ensuring(old(machine.world).disk, g, mode, ops)
      ensures r == Done ==> ops == EnsureOps(old(machine.world).disk, g, mode)
      ensures r == Done ==> Ensured(old(machine.world).disk, machine.world.disk, g, mode)
      ensures Reliable(machine.oracle) ==> Gentle(ops)
      ensures r == Raised(Invalid) ==> ops == []
      ensures r in {Done, Killed, Raised(Io), Raised(Invalid)}
      ensures r == Raised(Invalid) <==> root !in old(machine.world).disk.folders || !Above(root, g)
    {
      hide Standing, Ran, Ensured, WellFormed, Ensuring, Below, Above, Gentle, EnsureOps;
      ghost var w, tr := machine.world, machine.trace;
      if root !in machine.world.disk.folders || !Above(root, g) {
        RanNothing(machine);
        NothingEnsured(w.disk, g, mode);
        return Raised(Invalid), [];
      }
      var parts, i, current := Below(root, g), 0, root;
      r, ops := Done, [];
      StandsStill(machine, root, g, mode);
      while i < |parts|
        invariant i <= |parts| && r == Done && machine.tick >= old(machine.tick)
        invariant current == if i == 0 then root else parts[i - 1]
        invariant Standing(machine, w, tr, current, g, mode, ops)
      {
        ChildOnWay(root, g, i);
        r, ops := MakeNext(w, tr, ops, parts[i], g, mode);
        if r != Done { return; }
        current, i := parts[i], i + 1;
      }
      BelowEnds(root, g);
      StandsAtEnd(machine, w, tr, g, mode, ops);
    }

    /** Walk up from `g` to the nearest directory that exists. */
    method MissingAbove(g: Dir) returns (missing: seq<Dir>, current: Dir)
      requires WellFormed(machine.world.disk)
      ensures MissingFrom(machine.world.disk, g, current, missing) && Above(current, g)
      ensures current in machine.world.disk.folders
    {
      missing, current := [], g;
      while current !in machine.world.disk.folders
        invariant Above(current, g) && MissingFrom(machine.world.disk, g, current, missing)
        decreases Depth(current)
      {
        MissingMore(machine.world.disk, g, current, missing);
        missing, current := missing + [current], Parent(current);
      }
    }

    /** Make the missing directories above `g`, found from below, and `g`. */
    method EnsureFromExistingAncestor(g: Dir, mode: nat) returns (r: Outcome, ghost ops: seq<Op>)
      requires WellFormed(machine.world.disk)
      modifies machine`tick, machine`world, machine`trace
      ensures machine.tick >= old(machine.tick) && Excused(machine.oracle, old(machine.tick), r)
      ensures Ran(machine, old(machine.world), old(machine.trace), ops)
      ensures Ensuring(old(machine.world).disk, g, mode, ops)
      ensures r == Done ==> ops == EnsureOps(old(machine.world).disk, g, mode)
      ensures r == Done ==> Ensured(old(machine.world).disk, machine.world.disk, g, mode)
      ensures Reliable(machine.oracle) ==> Gentle(ops)
      ensures r in {Done, Killed, Raised(Io)}
    {
      hide Standing, Ran, Ensured, WellFormed, Ensuring, Above, Gentle, EnsureOps, MissingFrom;
      ghost var w, tr := machine.world, machine.trace;
      var missing, current := MissingAbove(g);
      var i := |missing|;
      assert missing[..i] == missing;
      r, ops := Done, [];
      StandsStill(machine, current, g, mode);
      MissingAll(w.disk, g, current, missing);
      while i > 0
        invariant 0 <= i <= |missing| && r == Done && machine.tick >= old(machine.tick)
        invariant MissingFrom(w.disk, g, current, missing[..i])
        invariant Standing(machine, w, tr, current, g, mode, ops)
      {
        var child := missing[i - 1];
        assert missing[..i][..i - 1] == missing[..i - 1] && missing[..i][i - 1] == child;
        MissingLess(w.disk, g, current, missing[..i]);
        r, ops := MakeNext(w, tr, ops, child, g, mode);
        if r != Done { return; }
        current, i := child, i - 1;
      }
      assert missing[..0] == [];
      MissingAll(w.disk, g, current, []);
      StandsAtEnd(machine, w, tr, g, mode, ops);
    }

    /** One step down the way, making the directory if it is missing. */
    method MakeNext(ghost w: World, ghost tr: seq<Step>, ghost before: seq<Op>, child: Dir, ghost g: Dir, mode: nat)
      returns (r: Outcome, ghost ops: seq<Op>)
      requires child != TOP && Above(child, g) && Standing(machine, w, tr, Parent(child), g, mode, before)
      modifies machine`tick, machine`world, machine`trace
      ensures machine.tick >= old(machine.tick) && Excused(machine.oracle, old(machine.tick), r)
      ensures Ran(machine, w, tr, ops) && Ensuring(w.disk, g, mode, ops) && (Reliable(machine.oracle) ==> Gentle(ops))
      ensures r == Done ==> Standing(machine, w, tr, child, g, mode, ops)
      ensures r in {Done, Killed, Raised(Io)}
    {
      ghost var v, mid := machine.world, machine.trace;
      hide WellFormed, AllPossible, Do, Steps, CutOps, Ensuring, Gentle;
      if child in machine.world.disk.folders {
        AlreadyThere(w, machine.actor, Parent(child), child, mode);
        EnsureGentle(w.disk, child, mode);
        EnsuringAbove(w.disk, child, g, mode);
        return Done, before;
      }
      MissingStill(w, machine.actor, Parent(child), child, mode);
      hide EnsureOps;
      ghost var n, m;
      r, n, m := MakeOne(child, mode);
      ThenRan(machine, w, tr, before, v, mid, MakeOps(child, mode)[..n] + UndoOps(child)[..m]);
      ops := CutOps(w.disk, child, mode, n, m);
      CutIsEnsuring(w.disk, g, child, mode, n, m);
      PossibleWellFormed(w, machine.actor, ops);
    }

    /** mkdir, chmod and the two barriers; if the mode cannot be set, rmdir and a barrier. */
    method MakeOne(child: Dir, mode: nat) returns (r: Outcome, ghost n: nat, ghost m: nat)
      requires WellFormed(machine.world.disk) && child !in machine.world.disk.folders
      requires Parent(child) in machine.world.disk.folders
      modifies machine`tick, machine`world, machine`trace
      ensures machine.tick >= old(machine.tick) && Excused(machine.oracle, old(machine.tick), r)
      ensures n <= 4 && m <= 2 && (m > 0 ==> n == 1 && !Reliable(machine.oracle))
      ensures Ran(machine, old(machine.world), old(machine.trace), MakeOps(child, mode)[..n] + UndoOps(child)[..m])
      ensures r in {Done, Killed, Raised(Io)} && (r == Done <==> n == 4)
      ensures r == Done ==> child in machine.world.disk.folders
    {
      ghost var w, tr, k := machine.world, machine.trace, machine.actor;
      var ops := MakeOps(child, mode);
      m := 0;
      MakePoint(w, k, child, mode, 4);
      MakePoint(w, k, child, mode, 2);
      MakePoint(w, k, child, mode, 1);
      assert ops[..4] == ops;
      hide WellFormed, AllPossible, Do, Steps;
      NothingMissing(w, k, Parent(child), mode);
      r, n := Sequence(ops[..2]);
      assert ops[..2][..n] == ops[..n] && ops[..n] + UndoOps(child)[..0] == ops[..n];
      if r == Done {
        r, n := MakeBarriers(w, tr, child, mode);
      } else if r.Raised? && child in machine.world.disk.folders {
        assert n == 1;
        r, m := Undo(w, tr, r, child, mode);
      }
      if m == 0 { assert ops[..n] + UndoOps(child)[..m] == ops[..n]; }
    }

    method MakeBarriers(ghost w: World, ghost tr: seq<Step>, child: Dir, mode: nat) returns (r: Outcome, ghost n: nat)
      requires Ran(machine, w, tr, MakeOps(child, mode)[..2])
      modifies machine`tick, machine`world, machine`trace
      ensures machine.tick >= old(machine.tick) && Excused(machine.oracle, old(machine.tick), r)
      ensures 2 <= n <= 4 && Ran(machine, w, tr, MakeOps(child, mode)[..n])
      ensures r in {Done, Killed, Raised(Io)} && (r == Done <==> n == 4)
    {
      ghost var v, mid, ops := machine.world, machine.trace, MakeOps(child, mode);
      hide AllPossible, Do, Steps;
      TwoPossible(v, machine.actor, SyncDir(child), Parent(child));
      ghost var m;
      r, m := Sequence([SyncDir(child), SyncDir(Parent(child))]);
      n := 2 + m;
      ThenRan(machine, w, tr, ops[..2], v, mid, [SyncDir(child), SyncDir(Parent(child))][..m]);
      assert ops[..2] + [SyncDir(child), SyncDir(Parent(child))][..m] == ops[..n];
    }

    method Undo(ghost w: World, ghost tr: seq<Step>, raised: Outcome, child: Dir, mode: nat) returns (r: Outcome,
                ghost m: nat)
      requires WellFormed(w.disk) && child !in w.disk.folders && Parent(child) in w.disk.folders
      requires raised.Raised? && Ran(machine, w, tr, MakeOps(child, mode)[..1])
      modifies machine`tick, machine`world, machine`trace
      ensures machine.tick >= old(machine.tick) && m <= 2
      ensures Ran(machine, w, tr, MakeOps(child, mode)[..1] + UndoOps(child)[..m])
      ensures r == raised || (r in {Killed, Raised(Io)} && Excused(machine.oracle, old(machine.tick), r))
    {
      ghost var v, mid := machine.world, machine.trace;
      MakePoint(w, machine.actor, child, mode, 1);
      UndoPossible(w.disk, v.disk, child, mode);
      hide Making, AllPossible, Do, Steps;
      TwoPossible(v, machine.actor, RemoveDir(child), Parent(child));
      var last;
      last, m := Sequence(UndoOps(child));
      ThenRan(machine, w, tr, MakeOps(child, mode)[..1], v, mid, UndoOps(child)[..m]);
      r := if last == Done then raised else last;
    }

    // -------------------------------------------------------------- archive copies

    /** Copy the source to its archive name, making the archive's directory first. The copy proper begins
        in world `v`, after the steps `mid`. */
    method CopyForArchive(source: Path, archive: Path, expected: Digest, mode: nat)
      returns (r: Outcome, ghost made: seq<Op>, ghost v: World, ghost mid: seq<Step>,
               ghost content: Bytes, ghost torn: Bytes, ghost n: nat, ghost cleaned: bool)
      requires WellFormed(machine.world.disk)
      requires CopyTemp(machine.world, archive) !in machine.world.disk.names
      requires archive != CopyTemp(machine.world, archive)
      modifies machine`tick, machine`world, machine`trace
      ensures machine.tick >= old(machine.tick) && Excused(machine.oracle, old(machine.tick), r)
      ensures Ensuring(old(machine.world).disk, archive.dir, mode, made) && (Reliable(machine.oracle) ==> Gentle(made))
      ensures MidCopy(machine, old(machine.world), old(machine.trace), made, v, mid) && n <= 10
      ensures (cleaned ==> 1 <= n <= 8)
      ensures Ran(machine, v, mid, CopyLog(CopyTemp(old(machine.world), archive), archive, torn, content, n, cleaned))
      ensures n > 0 || r == Done || (r.Raised? && Reliable(machine.oracle)) ==>
                Ensured(old(machine.world).disk, v.disk, archive.dir, mode) && v.supply == old(machine.world).supply
      ensures r == Done <==> n == 10
      ensures r == Done ==> !cleaned && made == EnsureOps(old(machine.world).disk, archive.dir, mode)
      ensures n > 4 ==> content == expected.of && Holds(old(machine.world).disk, source, content)
      ensures archive in old(machine.world).disk.names ==> n <= 5
      ensures r == Raised(DestinationExists) ==>
                archive in old(machine.world).disk.names && archive in machine.world.disk.names
      ensures r != Raised(StaleSource)
      ensures Holds(old(machine.world).disk, source, expected.of) && archive !in old(machine.world).disk.names ==>
                r in {Done, Killed, Raised(Io)}
    {
      ghost var w, tr := machine.world, machine.trace;
      r, made := EnsureFromExistingAncestor(archive.dir, mode);
      v, mid, content, torn, n, cleaned := machine.world, machine.trace, [], [], 0, false;
      assert CopyLog(CopyTemp(w, archive), archive, torn, content, 0, false) == [];
      RanNothing(machine);
      PossibleWellFormed(w, machine.actor, made);
      hide AllPossible, Do, Steps, Ensuring, Perform;
      if r == Done {
        EnsuredFrame(w.disk, v.disk, archive.dir, mode);
        EnsurePoint(w, machine.actor, archive.dir, mode);
        r, content, torn, n, cleaned := CopyBeside(source, archive, expected);
      }
    }

    /** Copy to a fresh temporary beside the archive name, check the digest, publish without clobber;
        unless killed, take the temporary away again on the way out. */
    method CopyBeside(source: Path, archive: Path, expected: Digest)
      returns (r: Outcome, ghost content: Bytes, ghost torn: Bytes, ghost n: nat, ghost cleaned: bool)
      requires WellFormed(machine.world.disk)
      requires archive.dir in machine.world.disk.folders
      requires CopyTemp(machine.world, archive) !in machine.world.disk.names
      requires archive != CopyTemp(machine.world, archive)
      modifies machine`tick, machine`world, machine`trace
      ensures machine.tick >= old(machine.tick) && Excused(machine.oracle, old(machine.tick), r)
      ensures n <= 10 && (cleaned ==> 1 <= n <= 8)
      ensures Ran(machine, old(machine.world), old(machine.trace),
                CopyLog(CopyTemp(old(machine.world), archive), archive, torn, content, n, cleaned))
      ensures r == Done <==> n == 10
      ensures r == Done ==> !cleaned
      ensures n > 4 ==> content == expected.of && Holds(old(machine.world).disk, source, content)
      ensures archive in old(machine.world).disk.names ==> n <= 5
      ensures r == Raised(DestinationExists) ==>
                archive in old(machine.world).disk.names && archive in machine.world.disk.names
      ensures r != Raised(StaleSource)
      ensures Copyable(old(machine.world).disk, source, archive, expected) ==> r in {Done, Killed, Raised(Io)}
    {
      ghost var w, tr := machine.world, machine.trace;
      var temp := Entry(archive.dir, Random(machine.world.supply));
      cleaned := false;
      if source !in machine.world.disk.names {
        content, torn := [], [];
        r, n := CopyNothing(temp, archive);
      } else {
        content := Content(machine.world.disk, source);
        r, torn, n := CopyBytes(Content(machine.world.disk, source), temp, archive, expected);
      }
      if r.Raised? && temp in machine.world.disk.names {
        r, cleaned := RemoveTemp(r, temp, archive, w, tr, content, torn, n);
      }
    }

    /** The source cannot be opened: only the temporary has been made. */
    method CopyNothing(temp: Path, archive: Path) returns (r: Outcome, ghost n: nat)
      requires temp !in machine.world.disk.names && temp.dir in machine.world.disk.folders
      modifies machine`tick, machine`world, machine`trace
      ensures machine.tick >= old(machine.tick) && Excused(machine.oracle, old(machine.tick), r)
      ensures n <= 1 && Ran(machine, old(machine.world), old(machine.trace), CopyLog(temp, archive, [], [], n, false))
      ensures r in {Killed, Raised(Io), Raised(Invalid)}
    {
      OnePossible(machine.world, machine.actor, Create(temp));
      r, n := Sequence([Create(temp)]);
      assert [Create(temp)][..n] == CopyLog(temp, archive, [], [], n, false);
      if r == Done { r := Raised(Invalid); }
    }

    /** Write, flush, check and publish `bytes`. */
    method CopyBytes(bytes: Bytes, temp: Path, archive: Path, expected: Digest)
      returns (r: Outcome, ghost torn: Bytes, ghost n: nat)
      requires temp !in machine.world.disk.names && archive != temp
      requires temp.dir == archive.dir && temp.dir in machine.world.disk.folders
      modifies machine`tick, machine`world, machine`trace
      ensures machine.tick >= old(machine.tick) && Excused(machine.oracle, old(machine.tick), r)
      ensures n <= 10
      ensures Ran(machine, old(machine.world), old(machine.trace), CopyLog(temp, archive, torn, bytes, n, false))
      ensures r == Done <==> n == 10
      ensures n > 4 ==> bytes == expected.of
      ensures archive in old(machine.world).disk.names ==> n <= 5
      ensures r == Raised(DestinationExists) ==>
                archive in old(machine.world).disk.names && archive in machine.world.disk.names
      ensures r != Raised(StaleSource)
      ensures bytes == expected.of && archive !in old(machine.world).disk.names ==> r in {Done, Killed, Raised(Io)}
    {
      ghost var w, tr, k := machine.world, machine.trace, machine.actor;
      var junk := machine.garbage(machine.tick);
      torn := junk;
      CopyPoint(w, k, temp, junk, bytes);
      r, n := Sequence(PrepareOps(temp, junk, bytes));
      LogPrepare(temp, archive, junk, bytes, n);
      if r == Done {
        assert PrepareOps(temp, junk, bytes)[..4] == PrepareOps(temp, junk, bytes);
        if Hash(bytes) != expected {
          r := Raised(Invalid);
        } else {
          r, n := PublishCopy(temp, archive, w, tr, junk, bytes);
        }
      }
    }

    method PublishCopy(temp: Path, archive: Path, ghost w: World, ghost tr: seq<Step>, ghost torn: Bytes,
                       ghost bytes: Bytes)
      returns (r: Outcome, ghost n: nat)
      requires Ran(machine, w, tr, PrepareOps(temp, torn, bytes))
      requires Preparing(w.disk, machine.world.disk, temp, torn, bytes, 4) && archive != temp
      requires archive.dir in w.disk.folders
      modifies machine`tick, machine`world, machine`trace
      ensures machine.tick >= old(machine.tick) && Excused(machine.oracle, old(machine.tick), r)
      ensures 4 <= n <= 10 && Ran(machine, w, tr, CopyLog(temp, archive, torn, bytes, n, false))
      ensures r == Done <==> n == 10
      ensures archive in w.disk.names ==> n <= 5
      ensures r == Raised(DestinationExists) ==> archive in w.disk.names && archive in machine.world.disk.names
      ensures r != Raised(StaleSource)
      ensures archive !in w.disk.names ==> r in {Done, Killed, Raised(Io)}
    {
      ghost var v, mid := machine.world, machine.trace;
      ghost var m;
      hide AllPossible, Do, Steps;
      r, m := Commit(temp, archive);
      n := 4 + m;
      ThenRan(machine, w, tr, PrepareOps(temp, torn, bytes), v, mid, CommitOps(temp, archive)[..m]);
      LogCommit(temp, archive, torn, bytes, m);
    }

    /** The copy's `finally` clause. */
    method RemoveTemp(raised: Outcome, temp: Path, archive: Path, ghost w: World, ghost tr: seq<Step>,
                      ghost content: Bytes, ghost torn: Bytes, ghost n: nat)
      returns (r: Outcome, ghost cleaned: bool)
      requires raised.Raised? && temp in machine.world.disk.names && n < 10
      requires temp !in w.disk.names && temp.dir == archive.dir && temp.dir in w.disk.folders
      requires Ran(machine, w, tr, CopyLog(temp, archive, torn, content, n, false))
      modifies machine`tick, machine`world, machine`trace
      ensures machine.tick >= old(machine.tick)
      ensures Ran(machine, w, tr, CopyLog(temp, archive, torn, content, n, cleaned))
      ensures cleaned ==> 1 <= n <= 8
      ensures archive != temp && archive in old(machine.world).disk.names ==> archive in machine.world.disk.names
      ensures r == raised || (r in {Killed, Raised(Io)} && Excused(machine.oracle, old(machine.tick), r))
    {
      ghost var k := machine.actor;
      ghost var log := CopyLog(temp, archive, torn, content, n, false);
      CopyTempThere(w, k, temp, archive, torn, content, n);
      var last := machine.Attempt(Unlink(temp));
      r, cleaned := raised, last == Done;
      if last == Done {
        Extend(w, k, log, Unlink(temp));
        assert log + [Unlink(temp)] == CopyLog(temp, archive, torn, content, n, true);
      } else {
        r := last;
      }
    }
  }

  /** One more operation. */
  lemma RanOne(m: Machine, w: World, tr: seq<Step>, ops: seq<Op>, v: World, mid: seq<Step>, op: Op)
    requires AllPossible(w, m.actor, ops) && v == Do(w, m.actor, ops) && mid == tr + Steps(w, m.actor, ops)
    requires Possible(v.disk, op) && m.world == After(v, m.actor, OnDisk(op))
    requires m.trace == mid + [Step(v, m.actor, OnDisk(op), m.world)]
    ensures Ran(m, w, tr, ops + [op])
  {
    hide AllPossible, Do, Steps, Perform, Possible;
    Extend(w, m.actor, ops, op);
  }

  lemma NextPossible(w: World, k: nat, ops: seq<Op>, i: nat)
    requires AllPossible(w, k, ops) && i < |ops|
    ensures AllPossible(w, k, ops[..i]) && Possible(Do(w, k, ops[..i]).disk, ops[i])
  {
    hide Do, Possible;
    PrefixPossible(w, k, ops, i + 1);
    assert ops[..i + 1][..i] == ops[..i];
  }

  lemma RanNothing(m: Machine)
    ensures Ran(m, m.world, m.trace, [])
  {
    assert m.trace + [] == m.trace;
  }

  /** The world `v` and the steps `mid` come after the operations `made`. */
  ghost predicate MidCopy(m: Machine, w: World, tr: seq<Step>, made: seq<Op>, v: World, mid: seq<Step>)
    reads m
  {
    AllPossible(w, m.actor, made) && v == Do(w, m.actor, made) && mid == tr + Steps(w, m.actor, made)
  }

  predicate Linkable(d: Disk, staged: Path, destination: Path) {
    && staged in d.names && d.names[staged] < |d.files|
    && destination !in d.names && destination.dir in d.folders
  }

  predicate Copyable(d: Disk, source: Path, archive: Path, expected: Digest) {
    Holds(d, source, expected.of) && archive !in d.names
  }

  function CopyTemp(w: World, archive: Path): Path {
    Entry(archive.dir, Random(w.supply))
  }

  /** What a copy did before it stopped after `n` operations, and whether it cleaned up. */
  function CopyLog(temp: Path, archive: Path, torn: Bytes, content: Bytes, n: nat, cleaned: bool): seq<Op>
    requires n <= 10
  {
    CopyOps(temp, archive, torn, content)[..n] + if cleaned then [Unlink(temp)] else []
  }

  lemma LogPrepare(temp: Path, archive: Path, torn: Bytes, content: Bytes, n: nat)
    requires n <= 4
    ensures CopyLog(temp, archive, torn, content, n, false) == PrepareOps(temp, torn, content)[..n]
  {
  }

  lemma LogCommit(temp: Path, archive: Path, torn: Bytes, content: Bytes, m: nat)
    requires m <= 6
    ensures CopyLog(temp, archive, torn, content, 4 + m, false)
         == PrepareOps(temp, torn, content) + CommitOps(temp, archive)[..m]
  {
  }

  lemma ThenRan(m: Machine, w: World, tr: seq<Step>, a: seq<Op>, v: World, mid: seq<Step>, b: seq<Op>)
    requires AllPossible(w, m.actor, a) && v == Do(w, m.actor, a) && mid == tr + Steps(w, m.actor, a)
    requires Ran(m, v, mid, b)
    ensures Ran(m, w, tr, a + b)
  {
    hide AllPossible, Do, Steps;
    Compose(w, m.actor, a, b);
    assert tr + (Steps(w, m.actor, a) + Steps(v, m.actor, b)) == mid + Steps(v, m.actor, b);
  }

  lemma FirstTwo(w: World, k: nat, staged: Path, destination: Path, n: nat)
    requires n <= 6 && AllPossible(w, k, CommitOps(staged, destination)[..n]) && destination in w.disk.names
    ensures n <= 1
  {
    if n >= 2 {
      var ops := CommitOps(staged, destination);
      PrefixPossible(w, k, ops[..n], 2);
      assert ops[..n][..2] == [ops[0], ops[1]];
      SecondPossible(w, k, ops[0], ops[1]);
    }
  }

  /** A possible copy log of more than four operations continues with a commit of the temporary. */
  lemma CopySplit(w: World, k: nat, temp: Path, archive: Path, torn: Bytes, content: Bytes, n: nat)
    requires temp !in w.disk.names && temp.dir in w.disk.folders && 4 <= n <= 10
    requires AllPossible(w, k, CopyLog(temp, archive, torn, content, n, false))
    ensures AllPossible(w, k, PrepareOps(temp, torn, content))
    ensures var v := Do(w, k, PrepareOps(temp, torn, content));
            && Preparing(w.disk, v.disk, temp, torn, content, 4)
            && AllPossible(v, k, CommitOps(temp, archive)[..n - 4])
            && Do(w, k, CopyLog(temp, archive, torn, content, n, false)) == Do(v, k, CommitOps(temp, archive)[..n - 4])
    decreases n
  {
    hide Preparing, Perform, Possible, AllPossible, Do, Steps;
    var log, pre := CopyLog(temp, archive, torn, content, n, false), PrepareOps(temp, torn, content);
    CopyPoint(w, k, temp, torn, content);
    assert pre[..4] == pre;
    var v := Do(w, k, pre);
    if n == 4 {
      Nothing(v, k);
      assert log == pre && CommitOps(temp, archive)[..0] == [];
    } else {
      assert log[..n - 1] == CopyLog(temp, archive, torn, content, n - 1, false);
      assert log[n - 1] == CommitOps(temp, archive)[n - 5];
      Peel(w, k, log);
      CopySplit(w, k, temp, archive, torn, content, n - 1);
      Extend(v, k, CommitOps(temp, archive)[..n - 5], CommitOps(temp, archive)[n - 5]);
      assert CommitOps(temp, archive)[..n - 5] + [CommitOps(temp, archive)[n - 5]] == CommitOps(temp, archive)[..n - 4];
    }
  }

  lemma CopyTempThere(w: World, k: nat, temp: Path, archive: Path, torn: Bytes, content: Bytes, n: nat)
    requires temp !in w.disk.names && temp.dir == archive.dir && temp.dir in w.disk.folders && n < 10
    requires AllPossible(w, k, CopyLog(temp, archive, torn, content, n, false))
    requires temp in Do(w, k, CopyLog(temp, archive, torn, content, n, false)).disk.names
    ensures 1 <= n <= 8
  {
    if n == 9 {
      CopyTempGone(w, k, temp, archive, torn, content);
    }
  }

  lemma CopyTempGone(w: World, k: nat, temp: Path, archive: Path, torn: Bytes, content: Bytes)
    requires temp !in w.disk.names && temp.dir == archive.dir && temp.dir in w.disk.folders
    requires AllPossible(w, k, CopyLog(temp, archive, torn, content, 9, false))
    ensures temp !in Do(w, k, CopyLog(temp, archive, torn, content, 9, false)).disk.names
  {
    CopySplit(w, k, temp, archive, torn, content, 9);
    var v := Do(w, k, PrepareOps(temp, torn, content));
    if archive in v.disk.names { FirstTwo(v, k, temp, archive, 5); }
    CommitPoint(v, k, temp, archive, 5);
  }

  lemma TwoPossible(w: World, k: nat, op: Op, dir: Dir)
    requires Possible(w.disk, op)
    ensures AllPossible(w, k, [op, SyncDir(dir)])
  {
    OnePossible(w, k, op);
    assert [op, SyncDir(dir)][..1] == [op];
  }

  lemma FirstOnly(w: World, k: nat, staged: Path, destination: Path)
    requires AllPossible(w, k, CommitOps(staged, destination)[..1])
    ensures Do(w, k, CommitOps(staged, destination)[..1]).disk.names == w.disk.names
  {
    var one := [SyncDir(destination.dir)];
    assert CommitOps(staged, destination)[..1] == one && one[..0] == [];
    assert Do(w, k, []) == w;
    Extend(w, k, [], SyncDir(destination.dir));
    assert [] + one == one;
  }

  lemma SecondPossible(w: World, k: nat, a: Op, b: Op)
    requires AllPossible(w, k, [a, b])
    ensures Possible(w.disk, a) && Possible(After(w, k, OnDisk(a)).disk, b)
  {
    var one := [a];
    assert [a, b][..1] == one && one[..0] == [];
    assert AllPossible(w, k, one);
    assert Do(w, k, []) == w;
    assert Possible(w.disk, a);
    Extend(w, k, [], a);
    assert [] + [a] == one;
  }

  lemma OnePossible(w: World, k: nat, op: Op)
    requires Possible(w.disk, op)
    ensures AllPossible(w, k, [op])
  {
    assert [op][..0] == [];
  }

  lemma {:induction false} PrefixPossible(w: World, k: nat, ops: seq<Op>, n: nat)
    requires AllPossible(w, k, ops) && n <= |ops|
    ensures AllPossible(w, k, ops[..n])
    decreases |ops|
  {
    if n == |ops| {
      assert ops[..n] == ops;
    } else {
      assert ops[..|ops| - 1][..n] == ops[..n];
      PrefixPossible(w, k, ops[..|ops| - 1], n);
    }
  }
}
