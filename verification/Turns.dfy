/** One item's turn within a call: the run goes on lawfully while every other item's row and files stay
    as they were when the turn began. */
module Turns {
  import opened Basics
  import opened Disks
  import opened Journals
  import opened Protocol
  import opened Invariant
  import opened Frames
  import opened Recoverable
  import opened Runs
  import opened Conservation
  import opened Operations
  import opened Durability
  import opened Dangers
  import opened Filesystem
  import opened Legitimacy

  /** Nothing item `j` depends on differs between `a` and `w`. */
  ghost predicate Undisturbed(plan: Plan, a: World, w: World, j: nat)
    requires j < |plan.items| && j < |a.book.rows|
  {
    && j < |w.book.rows| && w.book.rows[j] == a.book.rows[j]
    && forall p :: Concerns(plan, j, p) ==> Same(a.disk, w.disk, p)
  }

  ghost predicate Steady(plan: Plan, a: World, w: World, k: nat) {
    && WellFormed(a.disk)
    && w.book.begun == a.book.begun && w.book.run == a.book.run && |w.book.rows| == |a.book.rows|
    && forall j :: 0 <= j < |a.book.rows| && j < |plan.items| && j != k ==> Undisturbed(plan, a, w, j)
  }

  predicate NonePending(b: Book) {
    forall k :: 0 <= k < |b.rows| ==> b.rows[k].state != Pending
  }

  /** Every unlink of item `j` from `since` on is firm. */
  ghost predicate FirmFrom(plan: Plan, tr: seq<Step>, since: nat, j: nat) {
    forall i :: since <= i < |tr| && tr[i].item == j ==> FirmStep(plan, tr[i])
  }

  predicate Accepts(s: Step) {
    s.effect.OnBook? && s.effect.edit.Move? && s.effect.edit.to == PreflightOk
  }

  /** Engine steps, which take an item past the first preflight only if that was meant. */
  ghost predicate EngineFrom(tr: seq<Step>, since: nat, accepting: bool) {
    forall i :: since <= i < |tr| ==> ByEngine(tr[i]) && (Accepts(tr[i]) ==> accepting)
  }

  /** The steps from `s` to `i` are of one item and of one turn: an item's turn begins where its first step
      follows the beginning of the call or a step that is not its own. */
  predicate SameTurn(tr: seq<Step>, since: nat, s: nat, i: nat) {
    && since <= s <= i < |tr|
    && (s == since || tr[s - 1].item != tr[s].item)
    && forall m :: s <= m <= i ==> tr[m].item == tr[s].item
  }

  /** In every turn since `since`: if its item was firm when it began, its unlinks are firm, and its source
      goes with the exposure it had when it began. */
  ghost predicate TrueTurns(plan: Plan, tr: seq<Step>, since: nat) {
    forall s: nat, i: nat :: SameTurn(tr, since, s, i) ==> Kept(plan, tr[s].before.disk, tr[i])
  }

  /** What is meant to hold of a call that began after the steps `before`: that it may accept items, that
      the unlinks of the items `firm` are firm, that the run is orderly, and that no call fails from now on
      for an outside reason. The present turn began after the steps `mark`. */
  datatype Mode = Mode(before: seq<Step>, mark: seq<Step>, accepting: bool, firm: set<nat>, orderly: bool, sure: bool)

  /** The call has made no step yet, or the last one was not of item `k`. */
  predicate Fresh(tr: seq<Step>, since: nat, k: nat) {
    since <= |tr| && (|tr| == since || tr[|tr| - 1].item != k)
  }

  /** The steps after `mark` are item `k`'s turn, which began in world `a`. */
  predicate OwnTurn(a: World, k: nat, tr: seq<Step>, w: World, mode: Mode) {
    && |mode.before| <= |mode.mark| <= |tr| && Fresh(tr[..|mode.mark|], |mode.before|, k)
    && (forall i :: |mode.mark| <= i < |tr| ==> tr[i].item == k)
    && a == if |mode.mark| < |tr| then tr[|mode.mark|].before else w
  }

  ghost predicate Told(plan: Plan, a: World, k: nat, tr: seq<Step>, w: World, mode: Mode) {
    && mode.before <= mode.mark <= tr && EngineFrom(tr, |mode.before|, mode.accepting)
    && (forall j :: j in mode.firm ==> FirmFrom(plan, tr, |mode.before|, j))
    && TrueTurns(plan, tr, |mode.before|)
    && (k < |plan.items| ==> OwnTurn(a, k, tr, w, mode))
  }

  /** Item `k` has been acting since the world was `a`. */
  ghost predicate InTurn(plan: Plan, origin: World, a: World, k: nat, tr: seq<Step>, w: World, mode: Mode) {
    Run(plan, origin, tr, w) && Inv(plan, w) && Steady(plan, a, w, k) && Told(plan, a, k, tr, w, mode)
  }

  /** Both belong to the same call. */
  predicate SameCall(m: Mode, n: Mode) {
    && m.before == n.before && m.accepting == n.accepting && m.firm == n.firm
    && m.orderly == n.orderly && m.sure == n.sure
  }

  lemma SameTrans(d: Disk, e: Disk, f: Disk, p: Path)
    requires WellFormed(d) && Same(d, e, p) && Same(e, f, p)
    ensures Same(d, f, p)
  {
  }

  lemma SteadyNow(plan: Plan, w: World, k: nat)
    requires WellFormed(w.disk)
    ensures Steady(plan, w, w, k)
  {
  }

  lemma UndisturbedTrans(plan: Plan, a: World, b: World, c: World, j: nat)
    requires j < |plan.items| && j < |a.book.rows| && WellFormed(a.disk)
    requires Undisturbed(plan, a, b, j) && Undisturbed(plan, b, c, j)
    ensures Undisturbed(plan, a, c, j)
  {
    forall p | Concerns(plan, j, p) ensures Same(a.disk, c.disk, p) {
      assert Concerns(plan, j, p);
      SameTrans(a.disk, b.disk, c.disk, p);
    }
  }

  /** Facts that carry over from one world to another in which an item is undisturbed and no directory
      has become loose. */
  lemma UndisturbedFirm(plan: Plan, a: World, w: World, j: nat)
    requires j < |plan.items| && j < |a.book.rows| && WellFormed(a.disk)
    requires Undisturbed(plan, a, w, j) && w.disk.loose <= a.disk.loose && Firm(plan, a.disk, j)
    ensures Firm(plan, w.disk, j)
  {
    var it := plan.items[j];
    assert Concerns(plan, j, it.destination);
    if it.lifecycle.ArchiveAfterVerify? { assert Concerns(plan, j, it.lifecycle.archive); }
  }

  lemma SteadyOp(plan: Plan, a: World, w: World, k: nat, op: Op)
    requires Shaped(plan) && Inv(plan, w) && DiskRule(plan, w, k, op) && Steady(plan, a, w, k)
    ensures Steady(plan, a, After(w, k, OnDisk(op)), k)
  {
    var v := After(w, k, OnDisk(op));
    forall j | 0 <= j < |a.book.rows| && j < |plan.items| && j != k ensures Undisturbed(plan, a, v, j) {
      assert Undisturbed(plan, a, w, j);
      forall p | Concerns(plan, j, p) ensures Same(a.disk, v.disk, p) {
        TargetsOwn(plan, w, k, op, j, p);
        Untouched(plan, w, k, op, p);
        SameTrans(a.disk, w.disk, v.disk, p);
      }
    }
  }

  lemma {:induction false} SteadyOps(plan: Plan, a: World, w: World, k: nat, ops: seq<Op>)
    requires Shaped(plan) && Inv(plan, w) && Legit(plan, w, k, ops) && Steady(plan, a, w, k)
    ensures Steady(plan, a, Do(w, k, ops), k)
    decreases |ops|
  {
    if ops != [] {
      SteadyOps(plan, a, w, k, ops[..|ops| - 1]);
      LegitKeeps(plan, w, k, ops[..|ops| - 1]);
      SteadyOp(plan, a, Do(w, k, ops[..|ops| - 1]), k, ops[|ops| - 1]);
    }
  }

  lemma {:induction false} ByEngineSteps(w: World, k: nat, ops: seq<Op>)
    requires AllPossible(w, k, ops)
    ensures forall s :: s in Steps(w, k, ops) ==> ByEngine(s)
    decreases |ops|
  {
    if ops != [] { ByEngineSteps(w, k, ops[..|ops| - 1]); }
  }

  /** The turn that a further step of item `k` belongs to began with the present turn. */
  lemma TurnStart(a: World, k: nat, tr: seq<Step>, w: World, mode: Mode, more: seq<Step>, s: nat, i: nat)
    requires OwnTurn(a, k, tr, w, mode) && SameTurn(tr + more, |mode.before|, s, i) && |tr| <= i
    requires (forall m :: 0 <= m < |more| ==> more[m].item == k) && more != [] && more[0].before == w
    ensures s == |mode.mark| && (tr + more)[s].before == a
  {
    var all, mark := tr + more, |mode.mark|;
    assert all[i].item == k;
    assert mark > 0 ==> tr[..mark][mark - 1] == all[mark - 1];
    assert forall m :: mark <= m < |all| ==> all[m].item == k;
  }

  lemma OwnTurnGoesOn(a: World, k: nat, tr: seq<Step>, w: World, mode: Mode, more: seq<Step>, v: World)
    requires OwnTurn(a, k, tr, w, mode) && (forall m :: 0 <= m < |more| ==> more[m].item == k)
    requires if more == [] then v == w else more[0].before == w
    ensures OwnTurn(a, k, tr + more, v, mode)
  {
    assert (tr + more)[..|mode.mark|] == tr[..|mode.mark|];
  }

  /** What was told of the run stays true over further steps of the turn that keep to what is asked of them. */
  lemma ToldMore(plan: Plan, a: World, k: nat, tr: seq<Step>, w: World, mode: Mode, more: seq<Step>, v: World)
    requires Told(plan, a, k, tr, w, mode) && k < |plan.items| && (k in mode.firm ==> Firm(plan, a.disk, k))
    requires forall m :: 0 <= m < |more| ==>
      && more[m].item == k && ByEngine(more[m]) && (Accepts(more[m]) ==> mode.accepting)
      && Kept(plan, a.disk, more[m])
    requires if more == [] then v == w else more[0].before == w
    ensures Told(plan, a, k, tr + more, v, mode)
  {
    hide FirmStep, ByEngine, Accepts, Carries, Firm, SameTurn, OwnTurn, UnlinksSource;
    var all, since := tr + more, |mode.before|;
    forall i | since <= i < |all| ensures ByEngine(all[i]) && (Accepts(all[i]) ==> mode.accepting) {
      if i >= |tr| { assert all[i] == more[i - |tr|]; }
    }
    forall j, i | j in mode.firm && since <= i < |all| && all[i].item == j ensures FirmStep(plan, all[i]) {
      if i >= |tr| { assert all[i] == more[i - |tr|]; } else { assert all[i] == tr[i]; }
    }
    MoreTurnsTrue(plan, a, k, tr, w, mode, more);
    OwnTurnGoesOn(a, k, tr, w, mode, more, v);
  }

  lemma MoreTurnsTrue(plan: Plan, a: World, k: nat, tr: seq<Step>, w: World, mode: Mode, more: seq<Step>)
    requires TrueTurns(plan, tr, |mode.before|) && OwnTurn(a, k, tr, w, mode)
    requires forall m :: 0 <= m < |more| ==> more[m].item == k && Kept(plan, a.disk, more[m])
    requires more != [] ==> more[0].before == w
    ensures TrueTurns(plan, tr + more, |mode.before|)
  {
    hide Kept, OwnTurn;
    var all, since := tr + more, |mode.before|;
    forall s: nat, i: nat | SameTurn(all, since, s, i) ensures Kept(plan, all[s].before.disk, all[i]) {
      if i >= |tr| {
        TurnStart(a, k, tr, w, mode, more, s, i);
        assert all[i] == more[i - |tr|];
      } else {
        TurnOfPrefix(tr, more, since, s, i);
      }
    }
  }

  /** Every step is of a turn that has begun. */
  lemma {:induction false} StartOf(tr: seq<Step>, since: nat, i: nat) returns (s: nat)
    requires since <= i < |tr|
    ensures SameTurn(tr, since, s, i) && TurnBegins(tr, since, s, tr[i].item)
    decreases i
  {
    if i == since || tr[i - 1].item != tr[i].item { s := i; } else { s := StartOf(tr, since, i - 1); }
  }

  lemma TurnOfPrefix(tr: seq<Step>, more: seq<Step>, since: nat, s: nat, i: nat)
    requires SameTurn(tr + more, since, s, i) && i < |tr|
    ensures SameTurn(tr, since, s, i) && (tr + more)[s] == tr[s] && (tr + more)[i] == tr[i]
  {
    forall m | s <= m <= i ensures tr[m].item == tr[s].item { assert (tr + more)[m] == tr[m]; }
    if s > since { assert (tr + more)[s - 1] == tr[s - 1]; }
  }

  lemma ToldOps(plan: Plan, a: World, k: nat, tr: seq<Step>, w: World, mode: Mode, ops: seq<Op>)
    requires Told(plan, a, k, tr, w, mode) && k < |plan.items| && (k in mode.firm ==> Firm(plan, a.disk, k))
    requires Sound(plan, w, k, ops, a.disk)
    ensures Told(plan, a, k, tr + Steps(w, k, ops), Do(w, k, ops), mode)
  {
    hide Told, Kept, Firm;
    EngineSteps(w, k, ops);
    StepsBegin(w, k, ops);
    var more := Steps(w, k, ops);
    forall m | 0 <= m < |more|
      ensures more[m].item == k && ByEngine(more[m]) && !Accepts(more[m]) && Kept(plan, a.disk, more[m])
    {
      assert more[m] in more;
    }
    ToldMore(plan, a, k, tr, w, mode, more, Do(w, k, ops));
  }

  lemma {:induction false} StepsBegin(w: World, k: nat, ops: seq<Op>)
    requires AllPossible(w, k, ops)
    ensures |Steps(w, k, ops)| == |ops|
    ensures if ops == [] then Do(w, k, ops) == w else Steps(w, k, ops)[0].before == w
    decreases |ops|
  {
    hide Possible, Perform;
    if ops != [] { StepsBegin(w, k, ops[..|ops| - 1]); }
  }

  lemma {:induction false} EngineSteps(w: World, k: nat, ops: seq<Op>)
    requires AllPossible(w, k, ops)
    ensures forall s :: s in Steps(w, k, ops) ==> ByEngine(s) && !Accepts(s) && s.item == k
    decreases |ops|
  {
    if ops != [] { EngineSteps(w, k, ops[..|ops| - 1]); }
  }

  /** A sound sequence of operations of the acting item continues its turn. */
  lemma TurnOps(plan: Plan, origin: World, a: World, k: nat, tr: seq<Step>, w: World, mode: Mode, ops: seq<Op>)
    requires Shaped(plan) && InTurn(plan, origin, a, k, tr, w, mode) && k < |plan.items|
    requires Sound(plan, w, k, ops, a.disk) && (k in mode.firm ==> Firm(plan, a.disk, k))
    ensures InTurn(plan, origin, a, k, tr + Steps(w, k, ops), Do(w, k, ops), mode) && Inv(plan, Do(w, k, ops))
    ensures Do(w, k, ops).book == w.book
    ensures Orderly(plan, w) && Gentle(ops) ==> Orderly(plan, Do(w, k, ops))
  {
    assert Legit(plan, w, k, ops);
    hide Told, Steady, Run, Gentle, Quiet, Orderly, Sound, Legit, Do, Steps, AllPossible, Firm;
    assert WellFormed(w.disk);
    hide Inv;
    LegitRuns(plan, origin, tr, w, k, ops);
    LegitKeeps(plan, w, k, ops);
    SteadyOps(plan, a, w, k, ops);
    ToldOps(plan, a, k, tr, w, mode, ops);
  }

  lemma ToldEdit(plan: Plan, a: World, k: nat, tr: seq<Step>, w: World, mode: Mode, s: Step)
    requires Told(plan, a, k, tr, w, mode) && k < |plan.items| && (k in mode.firm ==> Firm(plan, a.disk, k))
    requires s.effect.OnBook? && s.item == k && s.before == w && (Accepts(s) ==> mode.accepting)
    ensures Told(plan, a, k, tr + [s], s.after, mode)
  {
    hide Told, Firm, Carries;
    ToldMore(plan, a, k, tr, w, mode, [s], s.after);
  }

  /** So does a journal entry about the acting item. */
  lemma TurnEdit(plan: Plan, origin: World, a: World, k: nat, tr: seq<Step>, w: World, mode: Mode, edit: Edit)
    requires Shaped(plan) && InTurn(plan, origin, a, k, tr, w, mode) && BookRule(plan, w, k, edit)
    requires edit.Move? || edit.Note?
    requires edit.Move? && edit.to == PreflightOk ==> mode.accepting
    requires k < |plan.items| && (k in mode.firm ==> Firm(plan, a.disk, k))
    ensures var v := After(w, k, OnBook(edit));
            InTurn(plan, origin, a, k, tr + [Step(w, k, OnBook(edit), v)], v, mode) && Inv(plan, v)
    ensures Orderly(plan, w) && Proper(plan, w, k, OnBook(edit)) ==> Orderly(plan, After(w, k, OnBook(edit)))
    ensures NonePending(w.book) ==> NonePending(After(w, k, OnBook(edit)).book)
  {
    var s := Step(w, k, OnBook(edit), After(w, k, OnBook(edit)));
    RunExtends(plan, origin, tr, w, s);
    InvKept(plan, w, k, OnBook(edit));
    if Orderly(plan, w) && Proper(plan, w, k, OnBook(edit)) { OrderlyKept(plan, w, k, OnBook(edit)); }
    SteadyEdit(plan, a, w, k, edit);
    ToldEdit(plan, a, k, tr, w, mode, s);
    hide Inv, Run, Told, Steady, Orderly, Proper, BookRule;
  }

  lemma SteadyEdit(plan: Plan, a: World, w: World, k: nat, edit: Edit)
    requires Steady(plan, a, w, k) && Editable(w.book, k, edit) && (edit.Move? || edit.Note?)
    ensures Steady(plan, a, After(w, k, OnBook(edit)), k)
  {
    var v := After(w, k, OnBook(edit));
    forall j | 0 <= j < |a.book.rows| && j < |plan.items| && j != k ensures Undisturbed(plan, a, v, j) {
      assert Undisturbed(plan, a, w, j);
    }
  }

  /** The number under which the run's own journal entries are made: that of no item. */
  function RunItself(plan: Plan): nat {
    |plan.items|
  }

  /** After a journal entry about the run itself any item's turn may begin. */
  lemma ToldRunEdit(plan: Plan, a: World, k: nat, tr: seq<Step>, w: World, mode: Mode, s: Step)
    requires Told(plan, a, k, tr, w, mode) && s.effect.OnBook? && !Accepts(s) && s.item == RunItself(plan)
    ensures Told(plan, s.after, k, tr + [s], s.after, mode.(mark := tr + [s]))
    ensures forall j: nat :: j < |plan.items| ==> Fresh(tr + [s], |mode.before|, j)
  {
    hide FirmStep, Carries, Firm;
    var all, since := tr + [s], |mode.before|;
    forall j, i | j in mode.firm && since <= i < |all| && all[i].item == j ensures FirmStep(plan, all[i]) {
      if i < |tr| { assert all[i] == tr[i]; } else { assert FirmStep(plan, s) by { NotADiskStep(plan, s); } }
    }
    forall b: nat, i: nat | b <= i < |all| && SameTurn(all, since, b, i)
      ensures Kept(plan, all[b].before.disk, all[i])
    {
      if i < |tr| { TurnOfPrefix(tr, [s], since, b, i); }
    }
    assert all[..|all|] == all;
  }

  lemma NotADiskStep(plan: Plan, s: Step)
    requires !s.effect.OnDisk?
    ensures FirmStep(plan, s)
  {
  }

  /** The steps after `tr` are one turn of item `k`, or a part of one, that began in world `a`. */
  predicate OneTurn(tr: seq<Step>, all: seq<Step>, k: nat, a: World) {
    && tr <= all
    && (forall m :: |tr| <= m < |all| ==> all[m].item == k)
    && (|tr| < |all| ==> all[|tr|].before == a)
  }

  lemma OwnIsOneTurn(a: World, k: nat, tr: seq<Step>, w: World, mode: Mode)
    requires OwnTurn(a, k, tr, w, mode) && mode.mark <= tr
    ensures OneTurn(mode.mark, tr, k, a)
  {
  }

  /** A turn of item `k` begins with step `s`. */
  predicate TurnBegins(tr: seq<Step>, since: nat, s: nat, k: nat) {
    since <= s < |tr| && tr[s].item == k && (s == since || tr[s - 1].item != k)
  }

  /** All turns of item `k` since `since` began on the disk `d`. */
  ghost predicate BeganOn(tr: seq<Step>, since: nat, d: Disk, k: nat) {
    forall s: nat :: TurnBegins(tr, since, s, k) ==> tr[s].before.disk == d
  }

  /** Only items before `i` of `n` have had a turn since `since`. */
  predicate OnlyBefore(tr: seq<Step>, since: nat, i: nat, n: nat) {
    forall m :: since <= m < |tr| ==> tr[m].item < i || n <= tr[m].item
  }

  lemma OnlyBeforeFresh(tr: seq<Step>, since: nat, i: nat, n: nat, j: nat)
    requires OnlyBefore(tr, since, i, n) && i <= j < n && since <= |tr|
    ensures Fresh(tr, since, j)
  {
  }

  lemma OnlyBeforeNext(tr: seq<Step>, all: seq<Step>, since: nat, i: nat, n: nat, a: World)
    requires OnlyBefore(tr, since, i, n) && i < n && OneTurn(tr, all, i, a)
    ensures OnlyBefore(all, since, i + 1, n)
  {
    forall m | since <= m < |all| ensures all[m].item < i + 1 || n <= all[m].item {
      if m < |tr| { assert all[m] == tr[m]; }
    }
  }

  lemma BeganOnNext(tr: seq<Step>, all: seq<Step>, since: nat, d: Disk, k: nat, i: nat, n: nat, a: World)
    requires since <= |tr| && OnlyBefore(tr, since, i, n) && i < n && OneTurn(tr, all, i, a)
    requires BeganOn(tr, since, d, k) && (k == i ==> a.disk == d)
    ensures BeganOn(all, since, d, k)
  {
    forall s: nat | TurnBegins(all, since, s, k) ensures all[s].before.disk == d {
      if s < |tr| {
        assert all[s] == tr[s] && (s > since ==> all[s - 1] == tr[s - 1]);
        assert TurnBegins(tr, since, s, k);
      } else {
        assert forall m :: |tr| <= m < |all| ==> all[m].item == i;
      }
    }
  }

  /** A journal entry about the run itself, or about nothing, is no turn of an item. */
  lemma BeganOnStill(tr: seq<Step>, all: seq<Step>, since: nat, d: Disk, k: nat)
    requires since <= |tr| && tr <= all && BeganOn(tr, since, d, k)
    requires forall m :: |tr| <= m < |all| ==> all[m].item != k
    ensures BeganOn(all, since, d, k)
  {
    forall s: nat | TurnBegins(all, since, s, k) ensures all[s].before.disk == d {
      assert all[s] == tr[s] && (s > since ==> all[s - 1] == tr[s - 1]);
      assert TurnBegins(tr, since, s, k);
    }
  }

  lemma FreshAfter(tr: seq<Step>, all: seq<Step>, since: nat, k: nat, a: World, j: nat)
    requires OneTurn(tr, all, k, a) && Fresh(tr, since, j) && j != k
    ensures Fresh(all, since, j)
  {
    if |all| == |tr| { assert all == tr; }
  }

  /** A journal entry about the run itself. */
  lemma RunEdit(plan: Plan, origin: World, tr: seq<Step>, w: World, edit: Edit)
    requires Shaped(plan) && Run(plan, origin, tr, w) && Inv(plan, w) && BookRule(plan, w, RunItself(plan), edit)
    requires edit.OpenRun? || edit.MarkRun?
    ensures var v := After(w, RunItself(plan), OnBook(edit));
            Run(plan, origin, tr + [Step(w, RunItself(plan), OnBook(edit), v)], v) && Inv(plan, v)
    ensures Orderly(plan, w) && edit.MarkRun? ==> Orderly(plan, After(w, RunItself(plan), OnBook(edit)))
  {
    var k := RunItself(plan);
    RunExtends(plan, origin, tr, w, Step(w, k, OnBook(edit), After(w, k, OnBook(edit))));
    InvKept(plan, w, k, OnBook(edit));
    if Orderly(plan, w) && edit.MarkRun? { OrderlyKept(plan, w, k, OnBook(edit)); }
  }

  // ---------------------------------------------------------------- what calls leave of the own files

  ghost predicate Spares(ops: seq<Op>, p: Path) {
    forall op :: op in ops ==> Target(op) != Some(p)
  }

  /** Operations that do not aim at a path leave it alone, also if its inode has other names. */
  lemma {:induction false} SparedOps(plan: Plan, w: World, k: nat, ops: seq<Op>, p: Path)
    requires Shaped(plan) && Inv(plan, w) && Legit(plan, w, k, ops) && Spares(ops, p)
    ensures Same(w.disk, Do(w, k, ops).disk, p)
    decreases |ops|
  {
    if ops != [] {
      var rest, op := ops[..|ops| - 1], ops[|ops| - 1];
      SparedOps(plan, w, k, rest, p);
      LegitKeeps(plan, w, k, rest);
      Untouched(plan, Do(w, k, rest), k, op, p);
      SameTrans(w.disk, Do(w, k, rest).disk, Do(w, k, ops).disk, p);
    }
  }

  /** All paths but `s` and `t` are as before. */
  ghost predicate Apart(d: Disk, e: Disk, s: Path, t: Path) {
    forall p :: p != s && p != t ==> Same(d, e, p)
  }

  /** And so are the directories. */
  ghost predicate OnlyAt(d: Disk, e: Disk, s: Path, t: Path) {
    Apart(d, e, s, t) && e.folders == d.folders && e.loose <= d.loose
  }

  lemma ApartTrans(d: Disk, e: Disk, f: Disk, s: Path, t: Path)
    requires WellFormed(d) && Apart(d, e, s, t) && Apart(e, f, s, t)
    ensures Apart(d, f, s, t)
  {
    forall p | p != s && p != t ensures Same(d, f, p) { SameTrans(d, e, f, p); }
  }

  /** Every path is as before. */
  ghost predicate AllSame(d: Disk, e: Disk) {
    forall p :: Same(d, e, p)
  }

  /** Making directories touches no file. */
  lemma AllSpared(plan: Plan, w: World, k: nat, ops: seq<Op>)
    requires Shaped(plan) && Inv(plan, w) && Legit(plan, w, k, ops)
    requires forall op :: op in ops ==> Target(op).None?
    ensures AllSame(w.disk, Do(w, k, ops).disk)
  {
    forall p ensures Same(w.disk, Do(w, k, ops).disk, p) {
      SparedOps(plan, w, k, ops, p);
    }
  }

  /** No operation makes, changes or removes a directory. */
  predicate OnFiles(ops: seq<Op>) {
    forall op :: op in ops ==> OnFile(op) || op.SyncDir?
  }

  lemma {:induction false} FoldersSpared(w: World, k: nat, ops: seq<Op>)
    requires AllPossible(w, k, ops) && OnFiles(ops)
    ensures Do(w, k, ops).disk.folders == w.disk.folders && Do(w, k, ops).disk.loose <= w.disk.loose
    decreases |ops|
  {
    if ops != [] { FoldersSpared(w, k, ops[..|ops| - 1]); }
  }

  lemma SparedAll(plan: Plan, w: World, k: nat, ops: seq<Op>, s: Path, t: Path)
    requires Shaped(plan) && Inv(plan, w) && Legit(plan, w, k, ops) && OnFiles(ops)
    requires forall op :: op in ops ==> Target(op).None? || Target(op) == Some(s) || Target(op) == Some(t)
    ensures OnlyAt(w.disk, Do(w, k, ops).disk, s, t)
  {
    forall p | p != s && p != t ensures Same(w.disk, Do(w, k, ops).disk, p) {
      SparedOps(plan, w, k, ops, p);
    }
    FoldersSpared(w, k, ops);
  }

  /** Publication of `s` as `t` went through. */
  ghost predicate Landed(d: Disk, e: Disk, s: Path, t: Path) {
    && s in d.names && d.names[s] < |d.files| && t !in d.names
    && e.names == d.names[t := d.names[s]] - {s}
    && e.files == d.files[d.names[s] := d.files[d.names[s]].(synced := true)]
    && Secured(e, t) && e.folders == d.folders && e.loose <= d.loose
  }

  lemma CommitLands(w: World, k: nat, s: Path, t: Path)
    requires s in w.disk.names && w.disk.names[s] < |w.disk.files| && t !in w.disk.names && s != t
    requires t.dir in w.disk.folders
    ensures AllPossible(w, k, CommitOps(s, t))
    ensures Landed(w.disk, Do(w, k, CommitOps(s, t)).disk, s, t)
  {
    assert CommitOps(s, t)[..6] == CommitOps(s, t);
    CommitPoint(w, k, s, t, 6);
  }

  /** After a complete archive copy the archive name durably holds the copied bytes. */
  lemma CopyArchives(w: World, k: nat, temp: Path, archive: Path, torn: Bytes, content: Bytes)
    requires WellFormed(w.disk) && temp !in w.disk.names && archive !in w.disk.names && temp != archive
    requires temp.dir == archive.dir && archive.dir in w.disk.folders
    ensures AllPossible(w, k, CopyLog(temp, archive, torn, content, 10, false))
    ensures var e := Do(w, k, CopyLog(temp, archive, torn, content, 10, false)).disk;
            Holds(e, archive, content) && Secured(e, archive) && e.loose <= w.disk.loose
  {
    var pre := PrepareOps(temp, torn, content);
    assert pre[..4] == pre;
    CopyPoint(w, k, temp, torn, content);
    CommitLands(Do(w, k, pre), k, temp, archive);
    LogCommit(temp, archive, torn, content, 6);
    assert CommitOps(temp, archive)[..6] == CommitOps(temp, archive);
    Compose(w, k, pre, CommitOps(temp, archive));
  }
}
