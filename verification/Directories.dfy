/** Making directories on the way to a planned file, operation by operation. */
module Directories {
  import opened Disks
  import opened Protocol
  import opened Frames
  import opened Operations

  /** mkdir, chmod, then the two barriers. */
  function MakeOps(g: Dir, mode: nat): seq<Op> {
    [MakeDir(g), ChmodDir(g, mode), SyncDir(g), SyncDir(Parent(g))]
  }

  /** Everything missing on the way to `g`, from the top down. */
  function EnsureOps(d: Disk, g: Dir, mode: nat): seq<Op>
    decreases Depth(g)
  {
    if g in d.folders || g == TOP then [] else EnsureOps(d, Parent(g), mode) + MakeOps(g, mode)
  }

  /** A directory whose mode cannot be set is taken away again. */
  function UndoOps(g: Dir): seq<Op> {
    [RemoveDir(g), SyncDir(Parent(g))]
  }

  /** What was done when making `h` was cut short. */
  function CutOps(d: Disk, h: Dir, mode: nat, n: nat, m: nat): seq<Op>
    requires n <= 4 && m <= 2
  {
    EnsureOps(d, Parent(h), mode) + MakeOps(h, mode)[..n] + UndoOps(h)[..m]
  }

  ghost predicate CutAt(d: Disk, g: Dir, h: Dir, n: nat, m: nat) {
    h !in d.folders && Above(h, g) && n <= 4 && m <= 2 && (m > 0 ==> n == 1)
  }

  /** `ops` is what making the way to `g` can have done when it ends. */
  ghost predicate Ensuring(d: Disk, g: Dir, mode: nat, ops: seq<Op>) {
    || ops == EnsureOps(d, g, mode) || ops == []
    || exists h, n: nat, m: nat :: CutAt(d, g, h, n, m) && ops == CutOps(d, h, mode, n, m)
  }

  /** The disk `e` is `d` with exactly the missing directories on the way to `g` made, with the given mode;
      none of them is loose, and those that were stay so. */
  ghost predicate Ensured(d: Disk, e: Disk, g: Dir, mode: nat) {
    && e.names == d.names && e.files == d.files && (forall p :: Lingering(e, p) <= Lingering(d, p))
    && (forall x :: x in e.folders <==> x in d.folders || Above(x, g))
    && (forall x :: x in e.folders ==> e.folders[x] == if x in d.folders then d.folders[x] else mode)
    && e.loose <= d.loose && HeldLoose(d, e, g)
  }

  /** What was loose on the way to `g` is loose still. */
  ghost predicate HeldLoose(d: Disk, e: Disk, g: Dir) {
    forall x :: x in d.loose && Above(x, g) ==> x in e.loose
  }

  lemma {:induction false} AboveTrans(x: Dir, y: Dir, g: Dir)
    requires Above(x, y) && Above(y, g)
    ensures Above(x, g)
    decreases Depth(g)
  {
    if y != g { AboveTrans(x, y, Parent(g)); }
  }

  lemma {:induction false} AboveDepth(x: Dir, g: Dir)
    requires Above(x, g)
    ensures Depth(x) <= Depth(g) && (Depth(x) == Depth(g) ==> x == g)
    decreases Depth(g)
  {
    if x != g { AboveDepth(x, Parent(g)); }
  }

  /** Of two directories on one way, one lies in the other. */
  lemma {:induction false} AboveOrder(x: Dir, y: Dir, g: Dir)
    requires Above(x, g) && Above(y, g)
    ensures Above(x, y) || Above(y, x)
    decreases Depth(g)
  {
    if x != g && y != g { AboveOrder(x, y, Parent(g)); }
  }

  /** The disk `e` stands `n` operations into making `h`. */
  ghost predicate Making(d: Disk, e: Disk, h: Dir, mode: nat, n: nat) {
    && e.names == d.names && e.files == d.files && (forall p :: Lingering(e, p) <= Lingering(d, p))
    && e.folders == (if n == 0 then d.folders else d.folders[h := if n == 1 then NEW_FOLDER_MODE else mode])
    && (n == 0 ==> e.loose == d.loose) && (n in {1, 2, 3} ==> e.loose == d.loose + {h})
    && (n >= 4 ==> e.loose == set x | x in d.loose && Parent(x) != Parent(h))
  }

  lemma MakeStep(d: Disk, e: Disk, h: Dir, mode: nat, n: nat)
    requires TreeFormed(d) && h !in d.folders && Parent(h) in d.folders && n < 4 && Making(d, e, h, mode, n)
    ensures Possible(e, MakeOps(h, mode)[n])
    ensures Making(d, Perform(e, MakeOps(h, mode)[n]), h, mode, n + 1)
  {
    if n == 2 {
      assert forall x :: x in e.loose ==> Parent(x) != h;
      assert Perform(e, SyncDir(h)).loose == e.loose;
    }
    if n == 3 { assert h !in d.loose; }
  }

  lemma MakePoint(w: World, k: nat, h: Dir, mode: nat, n: nat)
    requires TreeFormed(w.disk) && h !in w.disk.folders && Parent(h) in w.disk.folders && n <= 4
    ensures AllPossible(w, k, MakeOps(h, mode)[..n])
    ensures Making(w.disk, Do(w, k, MakeOps(h, mode)[..n]).disk, h, mode, n)
    ensures Do(w, k, MakeOps(h, mode)[..n]).book == w.book && Do(w, k, MakeOps(h, mode)[..n]).supply == w.supply
    decreases n
  {
    var ops := MakeOps(h, mode);
    if n > 0 {
      hide Making, Possible, Perform, TreeFormed;
      MakePoint(w, k, h, mode, n - 1);
      assert ops[..n] == ops[..n - 1] + [ops[n - 1]];
      MakeStep(w.disk, Do(w, k, ops[..n - 1]).disk, h, mode, n - 1);
      Extend(w, k, ops[..n - 1], ops[n - 1]);
    }
  }

  lemma EnsuredNext(d: Disk, e: Disk, f: Disk, h: Dir, mode: nat)
    requires TreeFormed(d) && h !in d.folders && h != TOP
    requires Ensured(d, e, Parent(h), mode) && Making(e, f, h, mode, 4) && TreeFormed(e)
    ensures Ensured(d, f, h, mode)
  {
    forall x | x in d.loose && Above(x, h) ensures x in f.loose {
      AboveDepth(x, Parent(h));
      assert Depth(Parent(x)) < Depth(x);
    }
  }

  lemma EnsuredNothing(d: Disk, g: Dir, mode: nat)
    requires TreeFormed(d) && g in d.folders
    ensures Ensured(d, d, g, mode)
  {
    forall x | Above(x, g) ensures x in d.folders {
      AboveExists(d, x, g);
    }
  }

  lemma {:induction false} EnsurePoint(w: World, k: nat, g: Dir, mode: nat)
    requires WellFormed(w.disk)
    ensures AllPossible(w, k, EnsureOps(w.disk, g, mode))
    ensures Ensured(w.disk, Do(w, k, EnsureOps(w.disk, g, mode)).disk, g, mode)
    ensures Do(w, k, EnsureOps(w.disk, g, mode)).book == w.book
    ensures Do(w, k, EnsureOps(w.disk, g, mode)).supply == w.supply
    decreases Depth(g)
  {
    hide Ensured, Making, Possible, Perform;
    if g in w.disk.folders || g == TOP {
      EnsuredNothing(w.disk, g, mode);
    } else {
      EnsurePoint(w, k, Parent(g), mode);
      var above := EnsureOps(w.disk, Parent(g), mode);
      var v := Do(w, k, above);
      PossibleWellFormed(w, k, above);
      EnsuredHas(w.disk, v.disk, g, mode);
      MakePoint(v, k, g, mode, 4);
      assert MakeOps(g, mode)[..4] == MakeOps(g, mode);
      Compose(w, k, above, MakeOps(g, mode));
      EnsuredNext(w.disk, v.disk, Do(v, k, MakeOps(g, mode)).disk, g, mode);
    }
  }

  /** Once the way to the parent of a missing directory is made, the directory can be. */
  lemma EnsuredHas(d: Disk, e: Disk, h: Dir, mode: nat)
    requires TreeFormed(d) && h !in d.folders && h != TOP && Ensured(d, e, Parent(h), mode)
    ensures h !in e.folders && Parent(h) in e.folders
  {
    if Above(h, Parent(h)) { AboveDepth(h, Parent(h)); }
  }

  /** Ensuring a directory makes the new part of the way durable, and only that: the way to it is safe
      from a power loss afterwards exactly if its old part was before. */
  lemma EnsuredRooted(d: Disk, e: Disk, g: Dir, mode: nat)
    requires Ensured(d, e, g, mode)
    ensures Rooted(e, g) <==> Rooted(d, g)
    ensures forall x :: Rooted(d, x) ==> Rooted(e, x)
  {
  }

  /** Directories side by side are not both on the way to `g`. */
  lemma OneChild(x: Dir, h: Dir, g: Dir)
    requires Above(x, g) && Above(h, g) && x != TOP && h != TOP && Parent(x) == Parent(h)
    ensures x == h
  {
    AboveOrder(x, h, g);
    if Above(x, h) { AboveDepth(x, h); } else { AboveDepth(h, x); }
    assert Depth(x) == Depth(Parent(x)) + 1 && Depth(h) == Depth(Parent(h)) + 1;
  }

  /** The operations leave the existing directory `x` alone, and whether it is loose. */
  predicate Spared(op: Op, x: Dir) {
    match op
    case SyncDir(g) => g != Parent(x)
    case MakeDir(g) => g != x
    case ChmodDir(g, _) => g != x
    case RemoveDir(g) => g != x
    case _ => false
  }

  lemma OneSpares(d: Disk, h: Dir, mode: nat, op: Op, x: Dir)
    requires TreeFormed(d) && h !in d.folders && op in MakeOps(h, mode) + UndoOps(h)
    requires x in d.folders && x != TOP && Above(x, h)
    ensures Spared(op, x)
  {
    if Parent(x) == Parent(h) { OneChild(x, h, h); }
    assert Parent(x) in d.folders && TOP in d.folders;
  }

  lemma {:induction false} EnsureSpares(d: Disk, g: Dir, mode: nat, op: Op, x: Dir)
    requires TreeFormed(d) && op in EnsureOps(d, g, mode)
    requires x in d.folders && x != TOP && Above(x, g)
    ensures Spared(op, x)
    decreases Depth(g)
  {
    if op in EnsureOps(d, Parent(g), mode) {
      EnsureSpares(d, Parent(g), mode, op, x);
    } else {
      OneSpares(d, g, mode, op, x);
    }
  }

  /** Wherever it stops, making the way to `g` leaves the existing part of the way alone. */
  lemma EnsuringSpares(d: Disk, g: Dir, mode: nat, ops: seq<Op>, op: Op, x: Dir)
    requires TreeFormed(d) && Ensuring(d, g, mode, ops) && op in ops
    requires x in d.folders && x != TOP && Above(x, g)
    ensures Spared(op, x)
  {
    if ops == EnsureOps(d, g, mode) {
      EnsureSpares(d, g, mode, op, x);
    } else {
      var h, n: nat, m: nat :| CutAt(d, g, h, n, m) && ops == CutOps(d, h, mode, n, m);
      AboveOrder(x, h, g);
      if Above(h, x) { AboveExists(d, h, x); }
      if op in EnsureOps(d, Parent(h), mode) {
        EnsureSpares(d, Parent(h), mode, op, x);
      } else {
        assert op in MakeOps(h, mode) || op in UndoOps(h);
        OneSpares(d, h, mode, op, x);
      }
    }
  }

  /** Only a directory that was missing is taken away again. */
  lemma OnlyNewRemoved(d: Disk, g: Dir, mode: nat, ops: seq<Op>)
    requires Ensuring(d, g, mode, ops)
    ensures forall op :: op in ops && op.RemoveDir? ==> op.folder !in d.folders
  {
    if ops == EnsureOps(d, g, mode) {
      NothingRemoved(d, g, mode);
    } else if ops != [] {
      var h, n: nat, m: nat :| CutAt(d, g, h, n, m) && ops == CutOps(d, h, mode, n, m);
      NothingRemoved(d, Parent(h), mode);
      assert forall op :: op in MakeOps(h, mode)[..n] ==> op in MakeOps(h, mode);
      assert forall op :: op in UndoOps(h)[..m] ==> op in UndoOps(h);
    }
  }

  lemma {:induction false} NothingRemoved(d: Disk, g: Dir, mode: nat)
    ensures forall op :: op in EnsureOps(d, g, mode) ==> !op.RemoveDir?
    decreases Depth(g)
  {
    if g !in d.folders && g != TOP { NothingRemoved(d, Parent(g), mode); }
  }

  lemma {:induction false} FoldersStay(w: World, k: nat, ops: seq<Op>, there: set<Dir>)
    requires AllPossible(w, k, ops) && there <= w.disk.folders.Keys
    requires forall op :: op in ops && op.RemoveDir? ==> op.folder !in there
    ensures there <= Do(w, k, ops).disk.folders.Keys
    decreases |ops|
  {
    if ops != [] {
      var rest, op := ops[..|ops| - 1], ops[|ops| - 1];
      assert op in ops && forall x :: x in rest ==> x in ops;
      FoldersStay(w, k, rest, there);
    }
  }

  /** Wherever it stops, making the way to `g` takes no directory away that was there. */
  lemma EnsuringGrows(w: World, k: nat, g: Dir, mode: nat, ops: seq<Op>)
    requires Ensuring(w.disk, g, mode, ops) && AllPossible(w, k, ops)
    ensures w.disk.folders.Keys <= Do(w, k, ops).disk.folders.Keys
  {
    OnlyNewRemoved(w.disk, g, mode, ops);
    FoldersStay(w, k, ops, w.disk.folders.Keys);
  }

  // ---------------------------------------------------------------- which directory is fsynced

  /** Where the missing part of the way to `g` begins: the nearest directory that is there. */
  function Nearest(d: Disk, g: Dir): Dir
    decreases Depth(g)
  {
    if g in d.folders || g == TOP then g else Nearest(d, Parent(g))
  }

  lemma {:induction false} NearestThere(d: Disk, g: Dir)
    requires TreeFormed(d)
    ensures Nearest(d, g) in d.folders && Above(Nearest(d, g), g)
    decreases Depth(g)
  {
    if g !in d.folders { NearestThere(d, Parent(g)); }
  }

  /** Of the directories that are there, making the way to `g` fsyncs the nearest one, and no other. */
  lemma {:induction false} EnsureSyncs(d: Disk, g: Dir, mode: nat, y: Dir)
    requires TreeFormed(d) && y in d.folders
    ensures SyncDir(y) in EnsureOps(d, g, mode) <==> g !in d.folders && y == Nearest(d, g)
    decreases Depth(g)
  {
    if g !in d.folders {
      EnsureSyncs(d, Parent(g), mode, y);
      assert SyncDir(y) in MakeOps(g, mode) <==> y == Parent(g);
    }
  }

  /** Two ways that share a missing directory begin at the same place. */
  lemma {:induction false} NearestShared(d: Disk, h: Dir, g: Dir)
    requires TreeFormed(d) && Above(h, g) && h !in d.folders
    ensures g !in d.folders && Nearest(d, g) == Nearest(d, h)
    decreases Depth(g)
  {
    if g in d.folders { AboveExists(d, h, g); }
    if h != g { NearestShared(d, h, Parent(g)); }
  }

  /** Once the way to `g` is made, another way begins where it did, or at a new directory if both began
      at the same one. */
  lemma {:induction false} NearestAfter(d: Disk, e: Disk, g: Dir, mode: nat, other: Dir)
    requires TreeFormed(d) && Ensured(d, e, g, mode)
    ensures Nearest(e, other) in d.folders ==> Nearest(e, other) == Nearest(d, other)
    ensures Nearest(e, other) !in d.folders ==> g !in d.folders && Nearest(d, other) == Nearest(d, g)
    decreases Depth(other)
  {
    hide HeldLoose;
    if other in d.folders {
    } else if other in e.folders {
      NearestShared(d, other, g);
    } else {
      NearestAfter(d, e, g, mode, Parent(other));
    }
  }

  // ---------------------------------------------------------------- the two walks

  /** The way from `root` down to `g`. */
  function Below(root: Dir, g: Dir): seq<Dir>
    requires Above(root, g)
    decreases Depth(g)
  {
    if root == g then [] else Below(root, Parent(g)) + [g]
  }

  /** Each directory on the way lies in the one before it. */
  lemma {:induction false} ChildOnWay(root: Dir, g: Dir, i: nat)
    requires Above(root, g) && i < |Below(root, g)|
    ensures Parent(Below(root, g)[i]) == if i == 0 then root else Below(root, g)[i - 1]
    ensures Above(Below(root, g)[i], g) && Below(root, g)[i] != TOP
    decreases Depth(g)
  {
    BelowEnds(root, Parent(g));
    if i < |Below(root, Parent(g))| { ChildOnWay(root, Parent(g), i); }
  }

  lemma BelowEnds(root: Dir, g: Dir)
    requires Above(root, g)
    ensures g == if Below(root, g) == [] then root else Below(root, g)[|Below(root, g)| - 1]
  {
  }

  lemma NothingMissing(w: World, k: nat, g: Dir, mode: nat)
    requires g in w.disk.folders
    ensures EnsureOps(w.disk, g, mode) == [] && AllPossible(w, k, []) && Do(w, k, []) == w && Steps(w, k, []) == []
  {
  }

  /** Nothing is missing at `child` if it is there once its parent is. */
  lemma AlreadyThere(w: World, k: nat, current: Dir, child: Dir, mode: nat)
    requires WellFormed(w.disk) && Parent(child) == current && child != TOP
    requires AllPossible(w, k, EnsureOps(w.disk, current, mode))
    requires child in Do(w, k, EnsureOps(w.disk, current, mode)).disk.folders
    ensures EnsureOps(w.disk, child, mode) == EnsureOps(w.disk, current, mode)
    ensures child in w.disk.folders
  {
    EnsurePoint(w, k, current, mode);
    if child !in w.disk.folders { EnsuredHas(w.disk, Do(w, k, EnsureOps(w.disk, current, mode)).disk, child, mode); }
  }

  /** `missing` leads from `g` up to just below `current`. */
  ghost predicate MissingFrom(d: Disk, g: Dir, current: Dir, missing: seq<Dir>) {
    && (missing == [] ==> current == g)
    && (missing != [] ==> missing[0] == g && Parent(missing[|missing| - 1]) == current)
    && (forall i :: 0 <= i < |missing| ==> missing[i] !in d.folders && missing[i] != TOP && Above(missing[i], g))
    && (forall i :: 0 < i < |missing| ==> missing[i] == Parent(missing[i - 1]))
  }

  lemma MissingMore(d: Disk, g: Dir, current: Dir, missing: seq<Dir>)
    requires WellFormed(d) && MissingFrom(d, g, current, missing) && current !in d.folders && Above(current, g)
    ensures MissingFrom(d, g, Parent(current), missing + [current]) && Above(Parent(current), g)
    ensures Depth(Parent(current)) < Depth(current)
  {
    AboveTrans(Parent(current), current, g);
  }

  lemma MissingLess(d: Disk, g: Dir, current: Dir, missing: seq<Dir>)
    requires MissingFrom(d, g, current, missing) && missing != []
    ensures var child := missing[|missing| - 1];
            && MissingFrom(d, g, child, missing[..|missing| - 1]) && Above(child, g)
            && child !in d.folders && child != TOP && Parent(child) == current
  {
  }

  /** The files are as they were. */
  lemma EnsuredFrame(d: Disk, e: Disk, g: Dir, mode: nat)
    requires Ensured(d, e, g, mode)
    ensures g in e.folders && e.names == d.names && e.files == d.files && e.loose <= d.loose
  {
  }

  lemma NothingEnsured(d: Disk, g: Dir, mode: nat)
    ensures Ensuring(d, g, mode, []) && Gentle([])
  {
  }

  lemma MissingAll(d: Disk, g: Dir, current: Dir, missing: seq<Dir>)
    requires MissingFrom(d, g, current, missing)
    ensures missing == [] ==> current == g
  {
  }

  /** What is missing now was missing before the way to its parent was made. */
  lemma MissingStill(w: World, k: nat, current: Dir, child: Dir, mode: nat)
    requires WellFormed(w.disk) && Parent(child) == current && child != TOP
    requires AllPossible(w, k, EnsureOps(w.disk, current, mode))
    requires child !in Do(w, k, EnsureOps(w.disk, current, mode)).disk.folders
    ensures child !in w.disk.folders
  {
    EnsurePoint(w, k, current, mode);
  }

  /** If nothing is missing at `h`, what was done so far may be all that is done. */
  lemma EnsuringAbove(d: Disk, h: Dir, g: Dir, mode: nat)
    requires h in d.folders
    ensures Ensuring(d, g, mode, EnsureOps(d, h, mode))
  {
  }

  lemma EnsureGentle(d: Disk, g: Dir, mode: nat)
    ensures Ensuring(d, g, mode, EnsureOps(d, g, mode)) && Gentle(EnsureOps(d, g, mode))
  {
    hide EnsureOps, CutOps;
    forall op | op in EnsureOps(d, g, mode) ensures !op.RemoveDir? { EnsureTargets(d, g, mode, op); }
  }

  lemma CutIsEnsuring(d: Disk, g: Dir, h: Dir, mode: nat, n: nat, m: nat)
    requires CutAt(d, g, h, n, m) && h != TOP
    ensures CutOps(d, h, mode, n, m) == EnsureOps(d, Parent(h), mode) + (MakeOps(h, mode)[..n] + UndoOps(h)[..m])
    ensures Ensuring(d, g, mode, CutOps(d, h, mode, n, m)) && (m == 0 ==> Gentle(CutOps(d, h, mode, n, m)))
    ensures n == 4 ==> CutOps(d, h, mode, n, m) == EnsureOps(d, h, mode)
  {
    hide Gentle;
    CutGentle(d, h, mode, n, m);
    assert MakeOps(h, mode)[..4] == MakeOps(h, mode);
  }

  lemma CutGentle(d: Disk, h: Dir, mode: nat, n: nat, m: nat)
    requires n <= 4 && m <= 2
    ensures m == 0 ==> Gentle(CutOps(d, h, mode, n, m))
  {
    hide EnsureOps;
    forall op | op in CutOps(d, h, mode, n, m) && m == 0 ensures !op.RemoveDir? {
      if op in EnsureOps(d, Parent(h), mode) { EnsureTargets(d, Parent(h), mode, op); } else {
        assert op in MakeOps(h, mode);
      }
    }
  }

  lemma UndoPossible(d: Disk, e: Disk, h: Dir, mode: nat)
    requires WellFormed(d) && h !in d.folders && Making(d, e, h, mode, 1)
    ensures Possible(e, RemoveDir(h))
    ensures var f := Perform(e, RemoveDir(h)); f.folders == d.folders && f.loose == d.loose
  {
    assert (d.folders[h := NEW_FOLDER_MODE]) - {h} == d.folders;
  }

  /** Making directories is done by operations on directories. */
  predicate OnDirs(op: Op) {
    op.MakeDir? || op.ChmodDir? || op.SyncDir? || op.RemoveDir?
  }

  lemma {:induction false} EnsureTargets(d: Disk, g: Dir, mode: nat, op: Op)
    requires op in EnsureOps(d, g, mode)
    ensures OnDirs(op) && !op.RemoveDir?
    decreases Depth(g)
  {
    if op in EnsureOps(d, Parent(g), mode) { EnsureTargets(d, Parent(g), mode, op); }
  }

  lemma EnsuringTargets(d: Disk, g: Dir, mode: nat, ops: seq<Op>, op: Op)
    requires Ensuring(d, g, mode, ops) && op in ops
    ensures OnDirs(op)
  {
    if ops == EnsureOps(d, g, mode) {
      EnsureTargets(d, g, mode, op);
    } else {
      var h, n: nat, m: nat :| CutAt(d, g, h, n, m) && ops == CutOps(d, h, mode, n, m);
      if op in EnsureOps(d, Parent(h), mode) {
        EnsureTargets(d, Parent(h), mode, op);
      } else {
        assert op in MakeOps(h, mode) || op in UndoOps(h);
      }
    }
  }

  /** A directory lies in those that its path begins with. */
  lemma {:induction false} PrefixAbove(root: seq<string>, path: seq<string>)
    requires root <= path
    ensures Above(Folder(root), Folder(path))
    decreases |path|
  {
    if root != path { PrefixAbove(root, path[..|path| - 1]); }
  }
}
