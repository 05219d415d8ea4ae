/** Batches of library repairs: which renames are planned together, and what applying them conserves. */
module LibraryRepair {
  import opened Basics

  datatype Place = Place(dir: string, name: string)

  datatype Kind = MoveOnly | RewriteCbz | RepackCbr

  datatype Action = Action(source: Place, destination: Place, kind: Kind, sourceHash: Digest)

  type Files = map<Place, Bytes>

  type Casefold = string -> string

  function CollisionKey(fold: Casefold, p: Place): (string, string) {
    (fold(p.dir), fold(p.name))
  }

  // ---------------------------------------------------------------- planning

  predicate DistinctSources(actions: seq<Action>) {
    forall i, j :: 0 <= i < j < |actions| ==> actions[i].source != actions[j].source
  }

  /** Another entry, file or directory, of the destination's folder has the same name up to case. */
  predicate SiblingInTheWay(files: Files, folders: set<Place>, fold: Casefold, a: Action) {
    exists p :: p in files.Keys + folders && p.dir == a.destination.dir &&
      fold(p.name) == fold(a.destination.name) && p != a.source
  }

  /** Why an action is left to a person. */
  predicate Collides(actions: seq<Action>, files: Files, folders: set<Place>, fold: Casefold, a: Action) {
    || (exists b :: b in actions && b != a && CollisionKey(fold, b.destination) == CollisionKey(fold, a.destination))
    || (a.destination in files.Keys + folders && a.destination != a.source)
    || SiblingInTheWay(files, folders, fold, a)
  }

  /** What the planned batch promises: it can be carried out in any order without touching other files. */
  ghost predicate Clean(safe: seq<Action>, files: Files, folders: set<Place>, fold: Casefold) {
    && DistinctSources(safe)
    && (forall a :: a in safe ==> a.source in files && a.destination !in files.Keys + folders)
    && (forall i, j :: 0 <= i < j < |safe| ==>
         CollisionKey(fold, safe[i].destination) != CollisionKey(fold, safe[j].destination))
    && (forall a :: a in safe ==> !SiblingInTheWay(files, folders, fold, a))
  }

  /** The actions that want a destination with the given key, in order. */
  function Competing(actions: seq<Action>, fold: Casefold, key: (string, string)): seq<Action> {
    if actions == [] then []
    else
      var a := actions[|actions| - 1];
      Competing(actions[..|actions| - 1], fold, key) + if CollisionKey(fold, a.destination) == key then [a] else []
  }

  lemma {:induction false} CompetingMembers(actions: seq<Action>, fold: Casefold, key: (string, string))
    requires DistinctSources(actions)
    ensures forall a :: a in Competing(actions, fold, key) <==> a in actions && CollisionKey(fold, a.destination) == key
    ensures DistinctSources(Competing(actions, fold, key))
  {
    if actions != [] {
      var rest, last := actions[..|actions| - 1], actions[|actions| - 1];
      CompetingMembers(rest, fold, key);
      var c := Competing(rest, fold, key);
      assert forall i :: 0 <= i < |c| ==> c[i] in c && c[i] in rest;
      assert actions == rest + [last];
    }
  }

  /** More than one competitor means somebody else wants the destination. */
  lemma Competition(actions: seq<Action>, fold: Casefold, a: Action)
    requires DistinctSources(actions) && a in actions
    ensures |Competing(actions, fold, CollisionKey(fold, a.destination))| > 1 <==>
              exists b :: b in actions && b != a &&
                CollisionKey(fold, b.destination) == CollisionKey(fold, a.destination)
  {
    var key := CollisionKey(fold, a.destination);
    var c := Competing(actions, fold, key);
    CompetingMembers(actions, fold, key);
    var i :| 0 <= i < |c| && c[i] == a;
    if |c| > 1 {
      var b := c[if i == 0 then 1 else 0];
      assert b in c && b != a;
    } else {
      forall b | b in actions && CollisionKey(fold, b.destination) == key ensures b == a { assert b in c; }
    }
  }

  method GroupByTarget(actions: seq<Action>, fold: Casefold) returns (byTarget: map<(string, string), seq<Action>>)
    ensures forall k :: k in byTarget ==> byTarget[k] == Competing(actions, fold, k)
    ensures forall k :: k !in byTarget ==> Competing(actions, fold, k) == []
  {
    byTarget := map[];
    for i := 0 to |actions|
      invariant forall k :: k in byTarget ==> byTarget[k] == Competing(actions[..i], fold, k)
      invariant forall k :: k !in byTarget ==> Competing(actions[..i], fold, k) == []
    {
      assert actions[..i + 1][..i] == actions[..i];
      var k := CollisionKey(fold, actions[i].destination);
      byTarget := byTarget[k := (if k in byTarget then byTarget[k] else []) + [actions[i]]];
    }
    assert actions[..|actions|] == actions;
  }

  /** `safe` and `manual` sort the first `n` actions into harmless and colliding ones. */
  ghost predicate Sorted(safe: seq<Action>, manual: seq<Place>, actions: seq<Action>, n: nat, files: Files,
                         folders: set<Place>, fold: Casefold)
    requires n <= |actions|
  {
    && DistinctSources(safe)
    && (forall a :: a in safe <==> a in actions[..n] && !Collides(actions, files, folders, fold, a))
    && (forall p :: p in manual <==>
      exists i :: 0 <= i < n && actions[i].source == p && Collides(actions, files, folders, fold, actions[i]))
  }

  lemma SortedNext(safe: seq<Action>, manual: seq<Place>, actions: seq<Action>, n: nat, files: Files,
                   folders: set<Place>, fold: Casefold)
    requires n < |actions| && DistinctSources(actions) && Sorted(safe, manual, actions, n, files, folders, fold)
    ensures if Collides(actions, files, folders, fold, actions[n])
              then Sorted(safe, manual + [actions[n].source], actions, n + 1, files, folders, fold)
            else Sorted(safe + [actions[n]], manual, actions, n + 1, files, folders, fold)
  {
    hide Collides;
    assert actions[..n + 1] == actions[..n] + [actions[n]];
    forall j | 0 <= j < |safe| ensures safe[j].source != actions[n].source {
      assert safe[j] in safe && safe[j] in actions[..n];
    }
  }

  lemma SortedIsClean(safe: seq<Action>, manual: seq<Place>, actions: seq<Action>, files: Files, folders: set<Place>,
                      fold: Casefold)
    requires Sorted(safe, manual, actions, |actions|, files, folders, fold)
    requires forall a :: a in actions ==> a.source in files && a.destination != a.source
    ensures Clean(safe, files, folders, fold)
  {
    assert actions[..|actions|] == actions;
    forall i, j | 0 <= i < j < |safe|
      ensures CollisionKey(fold, safe[i].destination) != CollisionKey(fold, safe[j].destination)
    {
      assert safe[i] in safe && safe[j] in safe && safe[i] != safe[j];
    }
  }

  /** Keep the actions that nothing competes with; an action goes to a person exactly if it collides. */
  method RemoveCollidingActions(actions: seq<Action>, files: Files, folders: set<Place>, fold: Casefold)
    returns (safe: seq<Action>, manual: seq<Place>)
    requires DistinctSources(actions)
    requires forall a :: a in actions ==> a.source in files && a.destination != a.source
    ensures Sorted(safe, manual, actions, |actions|, files, folders, fold)
    ensures Clean(safe, files, folders, fold)
  {
    hide Clean, Sorted;
    var byTarget := GroupByTarget(actions, fold);
    safe, manual := [], [];
    assert Sorted(safe, manual, actions, 0, files, folders, fold) by { SortedNone(actions, files, folders, fold); }
    for i := 0 to |actions|
      invariant Sorted(safe, manual, actions, i, files, folders, fold)
    {
      var a := actions[i];
      Competition(actions, fold, a);
      var key := CollisionKey(fold, a.destination);
      var collision := key in byTarget && |byTarget[key]| > 1;
      if !collision && a.destination in files.Keys + folders && a.destination != a.source { collision := true; }
      if !collision { collision := SiblingInTheWay(files, folders, fold, a); }
      SortedNext(safe, manual, actions, i, files, folders, fold);
      if collision {
        manual := manual + [a.source];
      } else {
        safe := safe + [a];
      }
    }
    SortedIsClean(safe, manual, actions, files, folders, fold);
  }

  lemma SortedNone(actions: seq<Action>, files: Files, folders: set<Place>, fold: Casefold)
    ensures Sorted([], [], actions, 0, files, folders, fold)
  {
  }

  /** An action is left to a person exactly if it is not clean by itself or another action wants its name. */
  lemma CollidesExactly(actions: seq<Action>, files: Files, folders: set<Place>, fold: Casefold, a: Action)
    requires a.source in files && a.destination != a.source
    ensures Collides(actions, files, folders, fold, a) <==>
              || !Clean([a], files, folders, fold)
              || exists b :: b in actions && b != a &&
                   fold(b.destination.dir) == fold(a.destination.dir) &&
                   fold(b.destination.name) == fold(a.destination.name)
  {
    assert a in [a];
  }

  // ---------------------------------------------------------------- applying

  /** What a transformation makes of a file; None is a failed or refused transformation. */
  type Transform = (Action, Bytes) -> Option<Bytes>

  function Output(t: Transform, a: Action, content: Bytes): Option<Bytes> {
    if a.kind == MoveOnly then Some(content) else t(a, content)
  }

  predicate Doable(files: Files, t: Transform, a: Action) {
    && a.source in files && Hash(files[a.source]) == a.sourceHash && a.destination !in files
    && Output(t, a, files[a.source]).Some?
  }

  function Done(files: Files, t: Transform, a: Action): Files
    requires Doable(files, t, a)
  {
    (files - {a.source})[a.destination := Output(t, a, files[a.source]).value]
  }

  /** The structure of a clean batch, independent of the disk. */
  predicate Structured(plan: seq<Action>) {
    && DistinctSources(plan)
    && (forall i, j :: 0 <= i < j < |plan| ==> plan[i].destination != plan[j].destination)
    && (forall i, j :: 0 <= i < |plan| && 0 <= j < |plan| ==> plan[i].destination != plan[j].source)
  }

  lemma CleanIsStructured(safe: seq<Action>, files: Files, folders: set<Place>, fold: Casefold)
    requires Clean(safe, files, folders, fold)
    ensures Structured(safe)
  {
    forall i, j | 0 <= i < |safe| && 0 <= j < |safe| ensures safe[i].destination != safe[j].source {
      assert safe[i] in safe && safe[j] in safe;
    }
  }

  predicate AllDoable(files: Files, t: Transform, plan: seq<Action>) {
    forall a :: a in plan ==> Doable(files, t, a)
  }

  /** Carrying a batch out in the given order. */
  function DoneAll(files: Files, t: Transform, plan: seq<Action>): Option<Files> {
    if plan == [] then Some(files)
    else
      var before := DoneAll(files, t, plan[..|plan| - 1]);
      if before.Some? && Doable(before.value, t, plan[|plan| - 1])
      then Some(Done(before.value, t, plan[|plan| - 1])) else None
  }

  ghost predicate Carried(files: Files, t: Transform, plan: seq<Action>, after: Files) {
    forall a :: a in plan ==>
      && a.source !in after && a.source in files && a.destination in after
      && Became(t, a, files[a.source], after[a.destination])
  }

  /** A move keeps the bytes; a rewrite or a repacking leaves what the transformation made of them. */
  predicate Became(t: Transform, a: Action, content: Bytes, result: Bytes) {
    match a.kind
    case MoveOnly => result == content
    case RewriteCbz => t(a, content) == Some(result)
    case RepackCbr => t(a, content) == Some(result)
  }

  ghost predicate OthersKept(files: Files, plan: seq<Action>, after: Files) {
    forall p :: p in files && (forall a :: a in plan ==> a.source != p) ==> p in after && after[p] == files[p]
  }

  ghost predicate NothingElse(files: Files, plan: seq<Action>, after: Files) {
    forall p :: p in after ==> p in files || exists a :: a in plan && a.destination == p
  }

  /** `after` is `files` with each action of the batch carried out, whatever the order. */
  ghost predicate Outcome(files: Files, t: Transform, plan: seq<Action>, after: Files) {
    Carried(files, t, plan, after) && OthersKept(files, plan, after) && NothingElse(files, plan, after)
  }

  predicate Apart(a: Action, b: Action) {
    a.source != b.source && a.destination != b.destination && a.destination != b.source && a.source != b.destination
  }

  lemma StillDoable(files: Files, t: Transform, rest: seq<Action>, a: Action, mid: Files)
    requires Outcome(files, t, rest, mid) && Doable(files, t, a)
    requires forall b :: b in rest ==> Apart(a, b)
    ensures Doable(mid, t, a) && mid[a.source] == files[a.source]
  {
  }

  lemma OutcomeNext(files: Files, t: Transform, rest: seq<Action>, a: Action, mid: Files)
    requires Outcome(files, t, rest, mid) && Doable(files, t, a) && a.destination != a.source
    requires forall b :: b in rest ==> Apart(a, b)
    ensures Doable(mid, t, a) && Outcome(files, t, rest + [a], Done(mid, t, a))
  {
    StillDoable(files, t, rest, a, mid);
    OutcomeDone(files, t, rest, a, mid);
  }

  lemma OutcomeDone(files: Files, t: Transform, rest: seq<Action>, a: Action, mid: Files)
    requires Outcome(files, t, rest, mid) && Doable(files, t, a) && a.destination != a.source
    requires Doable(mid, t, a) && mid[a.source] == files[a.source]
    requires forall b :: b in rest ==> Apart(a, b)
    ensures Outcome(files, t, rest + [a], Done(mid, t, a))
  {
    var plan, after := rest + [a], Done(mid, t, a);
    assert after == (mid - {a.source})[a.destination := Output(t, a, files[a.source]).value];
    assert forall c :: c in plan <==> c in rest || c == a;
    CarriedDone(files, t, rest, a, mid, plan, after);
    SparedDone(files, rest, a, mid, plan, after);
    hide Carried, OthersKept, NothingElse, Doable, Done;
  }

  lemma CarriedDone(files: Files, t: Transform, rest: seq<Action>, a: Action, mid: Files, plan: seq<Action>,
                    after: Files)
    requires Carried(files, t, rest, mid) && Doable(files, t, a) && a.destination != a.source
    requires after == (mid - {a.source})[a.destination := Output(t, a, files[a.source]).value]
    requires (forall b :: b in rest ==> Apart(a, b)) && (forall c :: c in plan <==> c in rest || c == a)
    ensures Carried(files, t, plan, after)
  {
    forall c | c in plan
      ensures c.source !in after && c.source in files && c.destination in after
      ensures Became(t, c, files[c.source], after[c.destination])
    {
      if c in rest { assert Apart(a, c); }
    }
  }

  lemma SparedDone(files: Files, rest: seq<Action>, a: Action, mid: Files, plan: seq<Action>, after: Files)
    requires OthersKept(files, rest, mid) && NothingElse(files, rest, mid) && a.destination !in files
    requires a.destination in after
    requires after == (mid - {a.source})[a.destination := after[a.destination]]
    requires forall c :: c in plan <==> c in rest || c == a
    ensures OthersKept(files, plan, after) && NothingElse(files, plan, after)
  {
    forall p | p in files && (forall c :: c in plan ==> c.source != p) ensures p in after && after[p] == files[p] {
      assert a in plan && forall b :: b in rest ==> b in plan && b.source != p;
    }
    forall p | p in after && p !in files ensures exists b :: b in plan && b.destination == p {
      if p == a.destination {
        assert a in plan;
      } else {
        var b :| b in rest && b.destination == p;
        assert b in plan;
      }
    }
  }

  lemma NothingDone(files: Files, t: Transform)
    ensures Outcome(files, t, [], files)
  {
  }

  lemma {:induction false} BatchOutcome(files: Files, t: Transform, plan: seq<Action>)
    requires Structured(plan) && AllDoable(files, t, plan)
    ensures DoneAll(files, t, plan).Some? && Outcome(files, t, plan, DoneAll(files, t, plan).value)
  {
    hide Doable, Outcome, Structured, Apart, Done;
    if plan == [] {
      NothingDone(files, t);
    } else {
      var rest, a := plan[..|plan| - 1], plan[|plan| - 1];
      PrefixStructured(plan, |plan| - 1);
      assert rest + [a] == plan && a in plan && forall b :: b in rest ==> b in plan;
      BatchOutcome(files, t, rest);
      OutcomeNext(files, t, rest, a, DoneAll(files, t, rest).value);
    }
  }

  lemma OutcomeUnique(files: Files, t: Transform, a: seq<Action>, b: seq<Action>, x: Files, y: Files)
    requires Outcome(files, t, a, x) && Outcome(files, t, b, y) && forall c :: c in a <==> c in b
    ensures x == y
  {
    hide Outcome;
    SameKeys(files, t, a, b, x, y);
    SameKeys(files, t, b, a, y, x);
  }

  lemma BecameOne(t: Transform, a: Action, content: Bytes, r: Bytes, q: Bytes)
    requires Became(t, a, content, r) && Became(t, a, content, q)
    ensures r == q
  {
  }

  lemma PlaceAlike(files: Files, t: Transform, a: seq<Action>, b: seq<Action>, x: Files, y: Files, p: Place)
    requires Outcome(files, t, a, x) && Outcome(files, t, b, y) && p in x && forall c :: c in a <==> c in b
    ensures p in y && x[p] == y[p]
  {
    hide Became;
    if c :| c in a && c.destination == p {
      assert c in b;
      BecameOne(t, c, files[c.source], x[p], y[p]);
    } else {
      assert p in files;
      forall c | c in a ensures c.source != p {}
    }
  }

  lemma SameKeys(files: Files, t: Transform, a: seq<Action>, b: seq<Action>, x: Files, y: Files)
    requires Outcome(files, t, a, x) && Outcome(files, t, b, y) && forall c :: c in a <==> c in b
    ensures forall p :: p in x ==> p in y && x[p] == y[p]
  {
    hide Outcome;
    forall p | p in x ensures p in y && x[p] == y[p] { PlaceAlike(files, t, a, b, x, y, p); }
  }

  lemma {:induction false} CountedOnce(plan: seq<Action>, a: Action)
    requires DistinctSources(plan)
    ensures multiset(plan)[a] <= 1
  {
    if plan != [] {
      var rest, last := plan[..|plan| - 1], plan[|plan| - 1];
      CountedOnce(rest, a);
      assert plan == rest + [last];
      assert last !in rest;
    }
  }

  lemma CountedTwice(s: seq<Action>, i: nat, j: nat)
    requires i < j < |s| && s[i] == s[j]
    ensures multiset(s)[s[i]] >= 2
  {
    assert s == s[..j] + [s[j]] + s[j + 1..];
    assert s[..j][i] == s[i] && s[i] in multiset(s[..j]);
  }

  lemma StructuredPermutation(plan: seq<Action>, other: seq<Action>)
    requires Structured(plan) && multiset(other) == multiset(plan)
    ensures Structured(other) && forall a :: a in other <==> a in plan
  {
    forall a ensures a in other <==> a in plan { assert a in multiset(other) <==> a in multiset(plan); }
    forall i, j | 0 <= i < j < |other|
      ensures other[i].source != other[j].source && other[i].destination != other[j].destination
    {
      assert other[i] in other && other[j] in other;
      if other[i] == other[j] {
        CountedTwice(other, i, j);
        CountedOnce(plan, other[i]);
      }
    }
    forall i, j | 0 <= i < |other| && 0 <= j < |other| ensures other[i].destination != other[j].source {
      assert other[i] in other && other[j] in other;
    }
  }

  /** The same files result whatever the order of execution. */
  lemma OrderIndependent(files: Files, t: Transform, plan: seq<Action>, other: seq<Action>)
    requires Structured(plan) && AllDoable(files, t, plan)
    requires multiset(other) == multiset(plan)
    ensures DoneAll(files, t, plan).Some? && DoneAll(files, t, other) == DoneAll(files, t, plan)
  {
    StructuredPermutation(plan, other);
    BatchOutcome(files, t, plan);
    BatchOutcome(files, t, other);
    OutcomeUnique(files, t, plan, other, DoneAll(files, t, plan).value, DoneAll(files, t, other).value);
  }

  /** What planning promises: a batch that it left, with sources as they were and transformations that
      succeed, gives the same files in whatever order it is carried out, and they are as they should be. */
  lemma CleanBatch(safe: seq<Action>, files: Files, folders: set<Place>, fold: Casefold, t: Transform,
                   order: seq<Action>)
    requires Clean(safe, files, folders, fold) && multiset(order) == multiset(safe)
    requires forall a :: a in safe ==> Hash(files[a.source]) == a.sourceHash && Output(t, a, files[a.source]).Some?
    ensures DoneAll(files, t, safe).Some? && DoneAll(files, t, order) == DoneAll(files, t, safe)
    ensures Outcome(files, t, safe, DoneAll(files, t, safe).value)
  {
    CleanIsStructured(safe, files, folders, fold);
    CleanIsDoable(safe, files, folders, fold, t);
    OrderIndependent(files, t, safe, order);
    BatchOutcome(files, t, safe);
  }

  lemma CleanIsDoable(safe: seq<Action>, files: Files, folders: set<Place>, fold: Casefold, t: Transform)
    requires Clean(safe, files, folders, fold)
    requires forall a :: a in safe ==> Hash(files[a.source]) == a.sourceHash && Output(t, a, files[a.source]).Some?
    ensures AllDoable(files, t, safe)
  {
  }

  /** An action that the earlier ones left doable was doable from the start. */
  lemma DoableBefore(files: Files, t: Transform, rest: seq<Action>, a: Action, mid: Files)
    requires Outcome(files, t, rest, mid) && Doable(mid, t, a)
    requires forall b :: b in rest ==> Apart(a, b)
    ensures Doable(files, t, a)
  {
  }

  lemma {:induction false} ReachedOutcome(files: Files, t: Transform, plan: seq<Action>)
    requires Structured(plan) && DoneAll(files, t, plan).Some?
    ensures Outcome(files, t, plan, DoneAll(files, t, plan).value)
  {
    hide Doable, Outcome, Structured, Apart, Done;
    if plan == [] {
      NothingDone(files, t);
    } else {
      var rest, a := plan[..|plan| - 1], plan[|plan| - 1];
      PrefixStructured(plan, |plan| - 1);
      ReachedOutcome(files, t, rest);
      assert rest + [a] == plan && a in plan;
      DoableBefore(files, t, rest, a, DoneAll(files, t, rest).value);
      OutcomeNext(files, t, rest, a, DoneAll(files, t, rest).value);
    }
  }

  /** Each file of the batch is at its old name, or its verified output is at the new one. */
  ghost predicate Conserved(before: Files, after: Files, t: Transform, a: Action) {
    a.source in before ==>
      || (a.source in after && after[a.source] == before[a.source])
      || (a.destination in after && Became(t, a, before[a.source], after[a.destination]))
  }

  /** Every file that the batch does not move is as it was. */
  ghost predicate Untouched(before: Files, after: Files, plan: seq<Action>) {
    forall p :: p in before && (forall a :: a in plan ==> a.source != p) ==> p in after && after[p] == before[p]
  }

  datatype Ending = Completed | Refused | Killed

  class Repairer {
    var files: Files
    const transform: Transform
    const alive: nat -> bool
    var tick: nat

    constructor (files: Files, transform: Transform, alive: nat -> bool)
      ensures this.files == files && this.transform == transform && this.alive == alive && tick == 0
    {
      this.files, this.transform, this.alive, tick := files, transform, alive, 0;
    }

    /** One action: check, transform if need be, link the new name, then unlink the old one. */
    method ApplyAction(a: Action) returns (r: Ending)
      requires a.source != a.destination
      modifies this`files, this`tick
      ensures r == Completed ==> Doable(old(files), transform, a) && files == Done(old(files), transform, a)
      ensures r == Refused <==> !Doable(old(files), transform, a)
      ensures r != Refused ==> Hash(old(files)[a.source]) == a.sourceHash && a.destination !in old(files)
      ensures r == Refused ==> files == old(files)
      ensures r == Killed ==>
        files == old(files) || files == old(files)[a.destination := Output(transform, a, old(files)[a.source]).value]
      ensures r == Completed ==> Became(transform, a, old(files)[a.source], files[a.destination])
      ensures r == Killed ==> exists i :: old(tick) <= i && !alive(i)
      ensures tick >= old(tick)
    {
      if a.source !in files || Hash(files[a.source]) != a.sourceHash || a.destination in files { return Refused; }
      var content := files[a.source];
      if a.kind != MoveOnly {
        var staged := transform(a, content);
        if staged.None? { return Refused; }
        content := staged.value;
      }
      if !alive(tick) { return Killed; }
      files := files[a.destination := content];
      if !alive(tick + 1) { return Killed; }
      files := files - {a.source};
      tick := tick + 2;
      return Completed;
    }

    /** The whole batch stops at the first action that is refused or cut short. Whatever the disk looked
        like and wherever it stopped, nothing is lost and nothing foreign is touched. */
    method ApplyRepairs(plan: seq<Action>) returns (r: Ending, completed: nat)
      requires Structured(plan)
      modifies this`files, this`tick
      ensures completed <= |plan| && (r == Completed <==> completed == |plan|)
      ensures r == Completed ==> DoneAll(old(files), transform, plan) == Some(files)
      ensures r == Completed ==> forall a :: a in plan ==>
                a.source in old(files) && Hash(old(files)[a.source]) == a.sourceHash && a.destination !in old(files)
      ensures r == Refused ==> DoneAll(old(files), transform, plan[..completed]) == Some(files)
      ensures r == Refused ==> !Doable(files, transform, plan[completed])
      ensures forall a :: a in plan ==> Conserved(old(files), files, transform, a)
      ensures Untouched(old(files), files, plan)
      ensures AllDoable(old(files), transform, plan) && (forall i :: old(tick) <= i ==> alive(i)) ==> r == Completed
    {
      hide Doable, Outcome, Structured, Done, Conserved, Untouched, Became;
      r, completed := Completed, 0;
      while completed < |plan|
        invariant completed <= |plan| && r == Completed && tick >= old(tick)
        invariant DoneAll(old(files), transform, plan[..completed]) == Some(files)
        invariant AllDoable(old(files), transform, plan[..completed])
      {
        var a := plan[completed];
        PrefixStructured(plan, completed);
        ReachedOutcome(old(files), transform, plan[..completed]);
        ghost var before := files;
        r := ApplyAction(a);
        if r != Completed {
          if AllDoable(old(files), transform, plan) {
            StillDoable(old(files), transform, plan[..completed], a, before);
          }
          Stopped(old(files), transform, plan, completed, before, files);
          return;
        }
        DoableBefore(old(files), transform, plan[..completed], a, before);
        assert plan[..completed + 1] == plan[..completed] + [a];
        assert plan[..completed + 1][..completed] == plan[..completed];
        completed := completed + 1;
      }
      assert plan[..completed] == plan;
      ReachedOutcome(old(files), transform, plan);
      OutcomeConserves(old(files), transform, plan, files);
    }
  }

  lemma OutcomeConserves(before: Files, t: Transform, plan: seq<Action>, after: Files)
    requires Outcome(before, t, plan, after) && AllDoable(before, t, plan)
    ensures forall a :: a in plan ==> Conserved(before, after, t, a)
    ensures Untouched(before, after, plan)
    ensures forall a :: a in plan ==>
              a.source in before && Hash(before[a.source]) == a.sourceHash && a.destination !in before
  {
    hide Output, Became, OthersKept, NothingElse, Doable;
    forall a | a in plan
      ensures Conserved(before, after, t, a)
      ensures a.source in before && Hash(before[a.source]) == a.sourceHash && a.destination !in before
    {
      assert Doable(before, t, a);
      DoableMeans(before, t, a);
    }
    KeptIsUntouched(before, plan, after);
  }

  lemma DoableMeans(files: Files, t: Transform, a: Action)
    requires Doable(files, t, a)
    ensures a.source in files && Hash(files[a.source]) == a.sourceHash && a.destination !in files
  {
  }

  lemma KeptIsUntouched(before: Files, plan: seq<Action>, after: Files)
    requires OthersKept(before, plan, after)
    ensures Untouched(before, after, plan)
  {
  }

  lemma PrefixStructured(plan: seq<Action>, n: nat)
    requires Structured(plan) && n < |plan|
    ensures Structured(plan[..n]) && plan[n].destination != plan[n].source
    ensures forall b :: b in plan[..n] ==> Apart(plan[n], b)
  {
  }

  /** After `n` actions and perhaps the first half of another. */
  lemma Stopped(before: Files, t: Transform, plan: seq<Action>, n: nat, mid: Files, after: Files)
    requires Structured(plan) && n < |plan| && Outcome(before, t, plan[..n], mid)
    requires after == mid ||
      (plan[n].destination in after && plan[n].destination !in mid &&
       after == mid[plan[n].destination := after[plan[n].destination]])
    ensures forall a :: a in plan ==> Conserved(before, after, t, a)
    ensures Untouched(before, after, plan)
  {
    hide Became;
    var rest := plan[..n];
    forall i | 0 <= i < |plan| ensures Conserved(before, after, t, plan[i]) {
      if i < n {
        assert plan[i] == rest[i] && plan[i] in rest;
      } else {
        assert forall b :: b in rest ==> b.source != plan[i].source;
      }
    }
    forall p | p in before && (forall a :: a in plan ==> a.source != p) ensures p in after && after[p] == before[p] {
      assert forall b :: b in rest ==> b in plan;
    }
  }
}
