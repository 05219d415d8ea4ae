/** Sequences of disk operations: what each filesystem call amounts to if it is not cut short, and
    what its prefixes leave behind. */
module Operations {
  import opened Basics
  import opened Disks
  import opened Protocol
  import opened Invariant
  import opened Recoverable
  import opened Runs

  ghost predicate AllPossible(w: World, k: nat, ops: seq<Op>)
    decreases |ops|, 0
  {
    ops == [] || (AllPossible(w, k, ops[..|ops| - 1]) && Possible(Do(w, k, ops[..|ops| - 1]).disk, ops[|ops| - 1]))
  }

  ghost function Do(w: World, k: nat, ops: seq<Op>): World
    requires AllPossible(w, k, ops)
    decreases |ops|, 1
  {
    if ops == [] then w else After(Do(w, k, ops[..|ops| - 1]), k, OnDisk(ops[|ops| - 1]))
  }

  ghost function Steps(w: World, k: nat, ops: seq<Op>): seq<Step>
    requires AllPossible(w, k, ops)
    decreases |ops|
  {
    if ops == [] then []
    else
      var rest := ops[..|ops| - 1];
      Steps(w, k, rest) + [Step(Do(w, k, rest), k, OnDisk(ops[|ops| - 1]), Do(w, k, ops))]
  }

  /** Every operation is one the rules permit when its turn comes. */
  ghost predicate Legit(plan: Plan, w: World, k: nat, ops: seq<Op>)
    ensures Legit(plan, w, k, ops) ==> AllPossible(w, k, ops)
    decreases |ops|
  {
    ops == [] || (Legit(plan, w, k, ops[..|ops| - 1]) && DiskRule(plan, Do(w, k, ops[..|ops| - 1]), k, ops[|ops| - 1]))
  }

  /** No directory is taken away. */
  predicate Gentle(ops: seq<Op>) {
    forall op :: op in ops ==> !op.RemoveDir?
  }

  lemma Extend(w: World, k: nat, ops: seq<Op>, op: Op)
    requires AllPossible(w, k, ops) && Possible(Do(w, k, ops).disk, op)
    ensures AllPossible(w, k, ops + [op])
    ensures Do(w, k, ops + [op]) == After(Do(w, k, ops), k, OnDisk(op))
    ensures Steps(w, k, ops + [op]) == Steps(w, k, ops) + [Step(Do(w, k, ops), k, OnDisk(op), Do(w, k, ops + [op]))]
  {
    assert (ops + [op])[..|ops|] == ops;
  }

  lemma {:induction false} PossibleWellFormed(w: World, k: nat, ops: seq<Op>)
    requires WellFormed(w.disk) && AllPossible(w, k, ops)
    ensures WellFormed(Do(w, k, ops).disk)
    decreases |ops|
  {
    hide WellFormed, Possible, Perform;
    if ops != [] {
      PossibleWellFormed(w, k, ops[..|ops| - 1]);
      DiskWellFormed(Do(w, k, ops[..|ops| - 1]).disk, ops[|ops| - 1]);
    }
  }

  lemma ExtendLegit(plan: Plan, w: World, k: nat, ops: seq<Op>, op: Op)
    requires Legit(plan, w, k, ops) && DiskRule(plan, Do(w, k, ops), k, op)
    ensures Legit(plan, w, k, ops + [op])
    ensures Do(w, k, ops + [op]) == After(Do(w, k, ops), k, OnDisk(op))
    ensures Steps(w, k, ops + [op]) == Steps(w, k, ops) + [Step(Do(w, k, ops), k, OnDisk(op), Do(w, k, ops + [op]))]
  {
    assert (ops + [op])[..|ops|] == ops;
  }

  lemma Nothing(w: World, k: nat)
    ensures AllPossible(w, k, []) && Do(w, k, []) == w && Steps(w, k, []) == []
  {
  }

  /** The last of some operations. */
  lemma Peel(w: World, k: nat, ops: seq<Op>)
    requires AllPossible(w, k, ops) && ops != []
    ensures var rest, op := ops[..|ops| - 1], ops[|ops| - 1];
            && AllPossible(w, k, rest) && Possible(Do(w, k, rest).disk, op)
            && Do(w, k, ops) == After(Do(w, k, rest), k, OnDisk(op))
            && Steps(w, k, ops) == Steps(w, k, rest) + [Step(Do(w, k, rest), k, OnDisk(op), Do(w, k, ops))]
  {
  }

  lemma {:induction false} Compose(w: World, k: nat, a: seq<Op>, b: seq<Op>)
    requires AllPossible(w, k, a) && AllPossible(Do(w, k, a), k, b)
    ensures AllPossible(w, k, a + b) && Do(w, k, a + b) == Do(Do(w, k, a), k, b)
    ensures Steps(w, k, a + b) == Steps(w, k, a) + Steps(Do(w, k, a), k, b)
    decreases |b|
  {
    hide AllPossible, Do, Steps, Possible, Feasible, After;
    if b == [] {
      Nothing(Do(w, k, a), k);
      assert a + b == a;
      assert Steps(w, k, a) + [] == Steps(w, k, a);
    } else {
      var rest, op := b[..|b| - 1], b[|b| - 1];
      var v := Do(w, k, a);
      Peel(v, k, b);
      Compose(w, k, a, rest);
      Extend(w, k, a + rest, op);
      assert a + b == (a + rest) + [op];
      var s := Step(Do(v, k, rest), k, OnDisk(op), Do(v, k, b));
      assert Steps(w, k, a) + (Steps(v, k, rest) + [s]) == (Steps(w, k, a) + Steps(v, k, rest)) + [s];
    }
  }

  lemma {:induction false} ComposeLegit(plan: Plan, w: World, k: nat, a: seq<Op>, b: seq<Op>)
    requires Legit(plan, w, k, a) && Legit(plan, Do(w, k, a), k, b)
    ensures Legit(plan, w, k, a + b)
    decreases |b|
  {
    if b == [] {
      assert a + b == a;
    } else {
      var rest, op := b[..|b| - 1], b[|b| - 1];
      assert a + b == (a + rest) + [op];
      hide DiskRule, Possible, Perform;
      ComposeLegit(plan, w, k, a, rest);
      assert DiskRule(plan, Do(w, k, a + rest), k, op) by {
        Compose(w, k, a, rest);
      }
      ExtendLegit(plan, w, k, a + rest, op);
    }
  }

  lemma RunExtends(plan: Plan, first: World, tr: seq<Step>, w: World, s: Step)
    requires Run(plan, first, tr, w) && Lawful(plan, s) && s.before == w
    ensures Run(plan, first, tr + [s], s.after)
  {
    assert (tr + [s])[..|tr|] == tr;
  }

  /** Legitimate operations extend a run. */
  lemma {:induction false} LegitRuns(plan: Plan, first: World, tr: seq<Step>, w: World, k: nat, ops: seq<Op>)
    requires Run(plan, first, tr, w) && Legit(plan, w, k, ops)
    ensures Run(plan, first, tr + Steps(w, k, ops), Do(w, k, ops))
    decreases |ops|
  {
    if ops == [] {
      assert tr + [] == tr;
    } else {
      var rest, op := ops[..|ops| - 1], ops[|ops| - 1];
      LegitRuns(plan, first, tr, w, k, rest);
      var s := Step(Do(w, k, rest), k, OnDisk(op), Do(w, k, ops));
      RunExtends(plan, first, tr + Steps(w, k, rest), Do(w, k, rest), s);
      assert tr + Steps(w, k, ops) == tr + Steps(w, k, rest) + [s];
    }
  }

  /** They keep the invariant and, if nothing disturbed the run so far and no directory goes, every item on track. */
  lemma {:induction false} LegitKeeps(plan: Plan, w: World, k: nat, ops: seq<Op>)
    requires Shaped(plan) && Inv(plan, w) && Legit(plan, w, k, ops)
    ensures Inv(plan, Do(w, k, ops)) && Do(w, k, ops).book == w.book
    ensures Quiet(plan, w) && Gentle(ops) ==> Quiet(plan, Do(w, k, ops))
    ensures Orderly(plan, w) && Gentle(ops) ==> Orderly(plan, Do(w, k, ops))
    decreases |ops|
  {
    if ops != [] {
      var rest, op := ops[..|ops| - 1], ops[|ops| - 1];
      LegitKeeps(plan, w, k, rest);
      InvKept(plan, Do(w, k, rest), k, OnDisk(op));
      if Quiet(plan, w) && Gentle(ops) { QuietKept(plan, Do(w, k, rest), k, OnDisk(op)); }
      if Orderly(plan, w) && Gentle(ops) { OrderlyKept(plan, Do(w, k, rest), k, OnDisk(op)); }
      hide Quiet, Orderly, Inv;
    }
  }

  // ---------------------------------------------------------------- the calls

  function CommitOps(staged: Path, destination: Path): seq<Op> {
    [SyncDir(destination.dir), Link(staged, destination), SyncFile(destination), SyncDir(destination.dir),
     Unlink(staged), SyncDir(staged.dir)]
  }

  function DurableOps(p: Path): seq<Op> {
    [SyncFile(p), SyncDir(p.dir)]
  }

  function UnlinkOps(p: Path): seq<Op> {
    [Unlink(p), SyncDir(p.dir)]
  }

  function StageOps(p: Path, torn: Bytes, content: Bytes): seq<Op> {
    [Create(p), Write(p, torn), Write(p, content)]
  }

  function PrepareOps(temp: Path, torn: Bytes, content: Bytes): seq<Op> {
    [Create(temp), Write(temp, torn), Write(temp, content), SyncFile(temp)]
  }

  function CopyOps(temp: Path, archive: Path, torn: Bytes, content: Bytes): seq<Op> {
    PrepareOps(temp, torn, content) + CommitOps(temp, archive)
  }
}
