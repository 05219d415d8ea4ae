/** How a run comes to the point where its first item is published: from every world in which a plan passes
    preflight, step by step, with nothing going wrong. */
module Reaching {
  import opened Basics
  import opened Disks
  import opened Journals
  import opened Protocol
  import opened Invariant
  import opened Frames
  import opened Recoverable
  import opened Runs
  import opened Conservation
  import opened Operations
  import opened Directories
  import opened Dangers
  import opened Legitimacy
  import opened Turns
  import opened ApplyEngine

  /** A world before the first call in which the plan passes preflight; a power loss can take nothing of the
      sources, and nothing is left of files that once had the names to be published. */
  ghost predicate Ready(plan: Plan, w: World) {
    && Shaped(plan) && SoundWriters(plan) && plan.items != []
    && Initial(w) && Preflighted(plan, w.disk) && Unpublished(plan, w.disk)
  }

  ghost predicate Unpublished(plan: Plan, d: Disk) {
    forall j :: 0 <= j < |plan.items| ==> Pristine(plan.items[j], d)
  }

  ghost predicate Pristine(it: Item, d: Disk) {
    && SourceHere(d, it) && Fast(d, it.source)
    && forall p :: Publishes(it, p) ==> p !in d.names && Lingering(d, p) <= {None}
  }

  /** The run has come to `w`, where the first item is in state `s`, the others have been accepted, and nothing
      is published. */
  ghost predicate Reached(plan: Plan, first: World, tr: seq<Step>, w: World, s: ItemState) {
    && Shaped(plan) && SoundWriters(plan) && plan.items != []
    && Run(plan, first, tr, w) && Inv(plan, w) && Quiet(plan, w) && Unpublished(plan, w.disk)
    && |w.book.rows| == |plan.items| && w.book.rows[0].state == s
    && forall j :: 0 < j < |w.book.rows| ==> w.book.rows[j].state == PreflightOk
  }

  /** No directory but hidden ones came or went. */
  ghost predicate SameFolders(d: Disk, e: Disk) {
    forall g: Dir :: g.Folder? ==> (g in d.folders <==> g in e.folders)
  }

  lemma {:induction false} LingeringShrinks(w: World, k: nat, ops: seq<Op>, p: Path)
    requires AllPossible(w, k, ops) && Spares(ops, p)
    ensures Lingering(Do(w, k, ops).disk, p) <= Lingering(w.disk, p)
    decreases |ops|
  {
    hide Possible;
    if ops == [] {
      Nothing(w, k);
    } else {
      var rest, op := ops[..|ops| - 1], ops[|ops| - 1];
      assert op in ops && forall o :: o in rest ==> o in ops;
      Peel(w, k, ops);
      LingeringShrinks(w, k, rest, p);
    }
  }

  /** Operations away from the sources and the names to be published. */
  ghost predicate Aside(plan: Plan, ops: seq<Op>) {
    Gentle(ops) && forall op :: op in ops && Target(op).Some? ==> Target(op).value.name.Random?
  }

  lemma StillUnpublished(plan: Plan, w: World, ops: seq<Op>)
    requires Shaped(plan) && Inv(plan, w) && Legit(plan, w, 0, ops) && Aside(plan, ops)
    requires Unpublished(plan, w.disk)
    ensures Unpublished(plan, Do(w, 0, ops).disk)
  {
    hide Inv, Legit, Do, AllPossible, Publishes, Fast, Shaped, Gentle;
    var d, e := w.disk, Do(w, 0, ops).disk;
    forall j | 0 <= j < |plan.items| ensures Pristine(plan.items[j], e) {
      var it := plan.items[j];
      PlannedNames(plan, j);
      SparedOps(plan, w, 0, ops, it.source);
      SameFast(d, e, it.source);
      forall p | Publishes(it, p) ensures p !in e.names && Lingering(e, p) <= {None} {
        SparedOps(plan, w, 0, ops, p);
        LingeringShrinks(w, 0, ops, p);
      }
      SourceThere(d, e, it);
    }
  }

  lemma PlannedNames(plan: Plan, j: nat)
    requires Shaped(plan) && j < |plan.items|
    ensures !plan.items[j].source.name.Random?
    ensures forall p :: Publishes(plan.items[j], p) ==> !p.name.Random?
  {
  }

  lemma SourceThere(d: Disk, e: Disk, it: Item)
    requires SourceHere(d, it) && Same(d, e, it.source)
    ensures SourceHere(e, it)
  {
  }

  /** One more sequence of operations. */
  lemma ByOps(plan: Plan, first: World, tr: seq<Step>, w: World, s: ItemState, ops: seq<Op>)
    requires Reached(plan, first, tr, w, s) && Legit(plan, w, 0, ops) && Aside(plan, ops)
    ensures Reached(plan, first, tr + Steps(w, 0, ops), Do(w, 0, ops), s) && Do(w, 0, ops).book == w.book
  {
    hide Run, Inv, Quiet, Unpublished, Legit, Do, Steps, AllPossible, Shaped;
    StillUnpublished(plan, w, ops);
    LegitRuns(plan, first, tr, w, 0, ops);
    LegitKeeps(plan, w, 0, ops);
  }

  /** One more move of the item. */
  lemma ByMove(plan: Plan, first: World, tr: seq<Step>, w: World, s: ItemState, to: ItemState, fields: Fields)
    returns (v: World, more: seq<Step>)
    requires Reached(plan, first, tr, w, s) && BookRule(plan, w, 0, Move(to, fields))
    requires Calm(plan, w, 0, OnBook(Move(to, fields)))
    ensures v == After(w, 0, OnBook(Move(to, fields))) && more == tr + [Step(w, 0, OnBook(Move(to, fields)), v)]
    ensures Reached(plan, first, more, v, to)
  {
    hide Run, Inv, Quiet, Unpublished, Shaped;
    v := After(w, 0, OnBook(Move(to, fields)));
    more := tr + [Step(w, 0, OnBook(Move(to, fields)), v)];
    RunExtends(plan, first, tr, w, Step(w, 0, OnBook(Move(to, fields)), v));
    InvKept(plan, w, 0, OnBook(Move(to, fields)));
    QuietKept(plan, w, 0, OnBook(Move(to, fields)));
  }

  // ---------------------------------------------------------------- the way there

  /** The run has been opened and its first `i` items accepted. */
  ghost predicate AcceptedUpTo(plan: Plan, first: World, tr: seq<Step>, w: World, i: nat) {
    && Run(plan, first, tr, w) && Inv(plan, w) && Quiet(plan, w) && w.disk == first.disk
    && |w.book.rows| == |plan.items|
    && forall j :: 0 <= j < |w.book.rows| ==> w.book.rows[j].state == if j < i then PreflightOk else Pending
  }

  lemma {:induction false} AcceptFirst(plan: Plan, first: World, i: nat) returns (tr: seq<Step>, w: World)
    requires Ready(plan, first) && i <= |plan.items|
    ensures AcceptedUpTo(plan, first, tr, w, i)
    decreases i
  {
    hide Unpublished, SoundWriters, Quiet, Run;
    if i == 0 {
      var n := RunItself(plan);
      NothingRun(plan, first);
      RunEdit(plan, first, [], first, Edit.OpenRun(n));
      w := After(first, n, OnBook(Edit.OpenRun(n)));
      tr := [] + [Step(first, n, OnBook(Edit.OpenRun(n)), w)];
      FreshQuiet(plan, w);
    } else {
      var before, v := AcceptFirst(plan, first, i - 1);
      var e := OnBook(Move(PreflightOk, NoFields));
      assert Permitted(plan, v, i - 1, e);
      w := After(v, i - 1, e);
      tr := before + [Step(v, i - 1, e, w)];
      RunExtends(plan, first, before, v, Step(v, i - 1, e, w));
      InvKept(plan, v, i - 1, e);
      QuietKept(plan, v, i - 1, e);
    }
  }

  /** All accepted, and the run is marked as running. */
  lemma Accept(plan: Plan, first: World) returns (tr: seq<Step>, w: World)
    requires Ready(plan, first)
    ensures Reached(plan, first, tr, w, PreflightOk) && w.disk == first.disk && w.book.run == Running
  {
    hide Unpublished, SoundWriters, Quiet, Run;
    var n := RunItself(plan);
    var before, v := AcceptFirst(plan, first, n);
    RunEdit(plan, first, before, v, MarkRun(Running));
    QuietKept(plan, v, n, OnBook(MarkRun(Running)));
    w := After(v, n, OnBook(MarkRun(Running)));
    tr := before + [Step(v, n, OnBook(MarkRun(Running)), w)];
  }

  lemma NothingRun(plan: Plan, w: World)
    requires Initial(w)
    ensures Run(plan, w, [], w) && Inv(plan, w)
  {
  }

  /** Making a directory that the item needs. */
  lemma MakeWay(plan: Plan, first: World, tr: seq<Step>, w: World, s: ItemState, g: Dir)
    returns (more: seq<Step>, v: World)
    requires Reached(plan, first, tr, w, s) && g in {StageDir(plan, 0), plan.items[0].destination.dir}
    ensures Reached(plan, first, more, v, s) && v.book == w.book && g in v.disk.folders
    ensures v.disk.names == w.disk.names && v.disk.files == w.disk.files
    ensures forall p :: Lingering(v.disk, p) <= Lingering(w.disk, p)
    ensures w.disk.folders.Keys <= v.disk.folders.Keys && v.supply == w.supply
    ensures g == StageDir(plan, 0) ==> SameFolders(w.disk, v.disk)
  {
    hide Reached, Legit, Ensuring, Do, Steps, AllPossible, KeepsAll, SameFolders;
    assert Shaped(plan) && plan.items != [] && Inv(plan, w) && w.book.rows != [] by {
      ReachedFacts(plan, first, tr, w, s);
    }
    hide Inv, Shaped;
    var mode := plan.items[0].folderMode;
    var ops := EnsureOps(w.disk, g, mode);
    OnlyDisk(plan, w);
    EnsureGentle(w.disk, g, mode);
    EnsureSound(plan, w, 0, g, mode, ops, w.disk);
    forall op | op in ops ensures Target(op).None? { EnsureTargets(w.disk, g, mode, op); }
    EnsurePoint(w, 0, g, mode);
    ByOps(plan, first, tr, w, s, ops);
    more, v := tr + Steps(w, 0, ops), Do(w, 0, ops);
    if g == StageDir(plan, 0) {
      ReachedFacts(plan, first, tr, w, s);
      OnlyHidden(plan, w, v.disk, mode);
    }
  }

  /** The way to the hidden directory from the library root, which is there, is hidden. */
  lemma OnlyHidden(plan: Plan, w: World, e: Disk, mode: nat)
    requires plan.items != [] && w.book.rows != [] && OnTrack(plan, w, 0) && TreeFormed(w.disk)
    requires Ensured(w.disk, e, StageDir(plan, 0), mode)
    ensures SameFolders(w.disk, e)
  {
    var root := plan.items[0].root;
    forall g: Dir | g.Folder? && Above(g, StageDir(plan, 0)) ensures g in w.disk.folders {
      assert Above(g, StageRun(root)) && Above(g, StageTop(root)) && Above(g, Folder(root));
      AboveExists(w.disk, g, Folder(root));
    }
  }

  lemma ReachedFacts(plan: Plan, first: World, tr: seq<Step>, w: World, s: ItemState)
    requires Reached(plan, first, tr, w, s)
    ensures Shaped(plan) && SoundWriters(plan) && plan.items != [] && Inv(plan, w) && w.book.rows != []
    ensures w.book.rows[0].state == s && OnTrack(plan, w, 0) && RowInv(plan, w, 0) && WellFormed(w.disk)
    ensures SourceHere(w.disk, plan.items[0]) && plan.items[0].destination !in w.disk.names
  {
    assert Pristine(plan.items[0], w.disk) && Publishes(plan.items[0], plan.items[0].destination);
  }

  /** A name in the hidden directory is none of the item's others. */
  lemma StageAside(plan: Plan, s: Path, ops: seq<Op>)
    requires s.name.Random? && Gentle(ops)
    requires forall op :: op in ops ==> Target(op).None? || Target(op) == Some(s)
    ensures Aside(plan, ops)
  {
  }

  /** Staged: recorded, written and checked. */
  lemma Stage(plan: Plan, first: World) returns (tr: seq<Step>, w: World)
    requires Ready(plan, first)
    ensures Reached(plan, first, tr, w, Staged) && w.book.run == Running && SameFolders(first.disk, w.disk)
  {
    hide Reached, Inv, Quiet, Run, Unpublished, BookRule, Calm, Legit, Do, Steps, Sound;
    tr, w := Accept(plan, first);
    tr, w := MakeWay(plan, first, tr, w, PreflightOk, StageDir(plan, 0));
    var s := Entry(StageDir(plan, 0), Random(w.supply));
    RecordRule(plan, first, tr, w);
    var before := w;
    w, tr := ByMove(plan, first, tr, w, PreflightOk, Staging, SetStaging(s));
    tr, w := Fill(plan, first, tr, w);
    StagedRule(plan, first, tr, w);
    w, tr := ByMove(plan, first, tr, w, Staging, Staged, NoFields);
  }

  lemma RecordRule(plan: Plan, first: World, tr: seq<Step>, w: World)
    requires Reached(plan, first, tr, w, PreflightOk) && StageDir(plan, 0) in w.disk.folders
    ensures var m := Move(Staging, SetStaging(Entry(StageDir(plan, 0), Random(w.supply))));
            && BookRule(plan, w, 0, m) && Calm(plan, w, 0, OnBook(m))
            && After(w, 0, OnBook(m)).book.rows[0].staging == Some(Entry(StageDir(plan, 0), Random(w.supply)))
    ensures Entry(StageDir(plan, 0), Random(w.supply)) !in w.disk.names
  {
    FreshUnused(plan, w, Entry(StageDir(plan, 0), Random(w.supply)));
  }

  /** The stage has been written with what the writer makes of the source. */
  ghost predicate Written(plan: Plan, w: World) {
    StagedOutput(plan, w, 0)
  }

  lemma Fill(plan: Plan, first: World, tr: seq<Step>, w: World) returns (more: seq<Step>, v: World)
    requires Reached(plan, first, tr, w, Staging) && StageDir(plan, 0) in w.disk.folders
    requires w.book.rows[0].staging.Some? && w.book.rows[0].staging.value !in w.disk.names
    ensures Reached(plan, first, more, v, Staging) && v.book == w.book && Written(plan, v)
    ensures SameFolders(w.disk, v.disk)
  {
    hide Reached, Inv, Quiet, Legit, Do, Steps, KeepsAll;
    ReachedFacts(plan, first, tr, w, Staging);
    var s, content := w.book.rows[0].staging.value, Output(plan, plan.items[0]);
    var ops := StageOps(s, [], content);
    assert ops[..3] == ops;
    FillSound(plan, w, 0, [], content, 3, w.disk);
    StageAside(plan, s, ops);
    FoldersSpared(w, 0, ops);
    ByOps(plan, first, tr, w, Staging, ops);
    more, v := tr + Steps(w, 0, ops), Do(w, 0, ops);
  }

  lemma StagedRule(plan: Plan, first: World, tr: seq<Step>, w: World)
    requires Reached(plan, first, tr, w, Staging) && Written(plan, w)
    ensures BookRule(plan, w, 0, Move(Staged, NoFields)) && Calm(plan, w, 0, OnBook(Move(Staged, NoFields)))
  {
  }

  /** Sealed: with its final mode, durable, verified, and its digest recorded. */
  lemma Seal(plan: Plan, first: World) returns (tr: seq<Step>, w: World)
    requires Ready(plan, first)
    ensures Reached(plan, first, tr, w, Verified) && w.book.run == Running && SameFolders(first.disk, w.disk)
  {
    hide Reached, Inv, Quiet, Run, Unpublished, BookRule, Calm, Legit, Do, Steps, Sound;
    tr, w := Stage(plan, first);
    tr, w := SetMode(plan, first, tr, w);
    tr, w := Flush(plan, first, tr, w);
    var fields := SealRule(plan, first, tr, w);
    w, tr := ByMove(plan, first, tr, w, Staged, Verified, fields);
  }

  ghost predicate RightMode(plan: Plan, w: World)
    requires plan.items != [] && w.book.rows != []
  {
    && w.book.rows[0].staging.Some? && w.book.rows[0].staging.value in w.disk.names
    && w.disk.names[w.book.rows[0].staging.value] < |w.disk.files|
    && w.disk.files[w.disk.names[w.book.rows[0].staging.value]].mode == plan.items[0].mode
  }

  lemma SetMode(plan: Plan, first: World, tr: seq<Step>, w: World) returns (more: seq<Step>, v: World)
    requires Reached(plan, first, tr, w, Staged)
    ensures Reached(plan, first, more, v, Staged) && v.book == w.book && RightMode(plan, v)
    ensures SameFolders(w.disk, v.disk)
  {
    hide Reached, Inv, Quiet, Legit, Steps, KeepsAll;
    ReachedFacts(plan, first, tr, w, Staged);
    var s := w.book.rows[0].staging.value;
    var op := Chmod(s, plan.items[0].mode);
    ModeSound(plan, w, 0, plan.items[0].mode, w.disk);
    SoundPossible(plan, w, 0, [op], w.disk);
    StageAside(plan, s, [op]);
    FoldersSpared(w, 0, [op]);
    ByOps(plan, first, tr, w, Staged, [op]);
    more, v := tr + Steps(w, 0, [op]), Do(w, 0, [op]);
    assert [op][..0] == [] && Do(w, 0, []) == w;
  }

  lemma Flush(plan: Plan, first: World, tr: seq<Step>, w: World) returns (more: seq<Step>, v: World)
    requires Reached(plan, first, tr, w, Staged) && RightMode(plan, w)
    ensures Reached(plan, first, more, v, Staged) && v.book == w.book && RightMode(plan, v)
    ensures SameFolders(w.disk, v.disk)
    ensures Secured(v.disk, v.book.rows[0].staging.value)
  {
    hide Reached, Inv, Quiet, Legit, Do, Steps, KeepsAll;
    ReachedFacts(plan, first, tr, w, Staged);
    var s := w.book.rows[0].staging.value;
    var ops := DurableOps(s);
    assert ops[..2] == ops;
    SealSound(plan, w, 0, 2, w.disk);
    StageAside(plan, s, ops);
    FoldersSpared(w, 0, ops);
    ByOps(plan, first, tr, w, Staged, ops);
    more, v := tr + Steps(w, 0, ops), Do(w, 0, ops);
  }

  lemma SealRule(plan: Plan, first: World, tr: seq<Step>, w: World) returns (fields: Fields)
    requires Reached(plan, first, tr, w, Staged) && RightMode(plan, w)
    requires Secured(w.disk, w.book.rows[0].staging.value)
    ensures BookRule(plan, w, 0, Move(Verified, fields)) && Calm(plan, w, 0, OnBook(Move(Verified, fields)))
  {
    hide Inv, Quiet, Run, RowInv, RowShape, Secured, Fast;
    ReachedFacts(plan, first, tr, w, Staged);
    var out := Output(plan, plan.items[0]);
    fields := SetEvidence(Hash(out), |out|);
    assert Evidence(plan, w, 0, Hash(out), |out|);
  }

  /** Accepted for publication: the destination's directory is there, and the link is next. */
  lemma ComeToLink(plan: Plan, first: World) returns (tr: seq<Step>, w: World)
    requires Ready(plan, first)
    ensures Reached(plan, first, tr, w, Committing) && w.book.run == Running
  {
    hide Reached, Inv, Quiet, Run, Unpublished, BookRule, Calm, Legit, Do, Steps, Sound;
    tr, w := Seal(plan, first);
    tr, w := MakeWay(plan, first, tr, w, Verified, plan.items[0].destination.dir);
    LinkRule(plan, first, tr, w);
    w, tr := ByMove(plan, first, tr, w, Verified, Committing, NoFields);
  }

  lemma LinkRule(plan: Plan, first: World, tr: seq<Step>, w: World)
    requires Reached(plan, first, tr, w, Verified) && plan.items[0].destination.dir in w.disk.folders
    ensures BookRule(plan, w, 0, Move(Committing, NoFields)) && Calm(plan, w, 0, OnBook(Move(Committing, NoFields)))
  {
    ReachedFacts(plan, first, tr, w, Verified);
  }
}
