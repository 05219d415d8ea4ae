/** When a power loss can take both the source of an item and what replaces it, turn by turn. */
module PowerRisks {
  import opened Basics
  import opened Disks
  import opened Protocol
  import opened Invariant
  import opened Frames
  import opened Runs
  import opened Conservation
  import opened Dangers
  import opened Turns

  /** Item `j` begins no turn with an exposure that will not be mended. */
  ghost predicate MendedTurns(plan: Plan, tr: seq<Step>, since: nat, j: nat)
    requires j < |plan.items|
  {
    forall s: nat :: TurnBegins(tr, since, s, j) ==> Mendable(plan, tr[s].before.disk, j)
  }

  /** When the engine unlinks a source, all that the item publishes is there. */
  lemma UnlinkedPublished(plan: Plan, s: Step)
    requires Shaped(plan) && Inv(plan, s.before) && Lawful(plan, s) && UnlinksSource(plan, s)
    ensures forall p :: Publishes(plan.items[s.item], p) ==> p in s.before.disk.names
    ensures !Publishes(plan.items[s.item], plan.items[s.item].source)
  {
    assert RowInv(plan, s.before, s.item);
  }

  lemma MendedIsFirm(plan: Plan, d: Disk, e: Disk, k: nat)
    requires k < |plan.items| && Carries(plan, d, e, k) && Mendable(plan, d, k)
    requires forall p :: Publishes(plan.items[k], p) ==> p in e.names
    ensures Firm(plan, e, k)
  {
    PublishedExposure(plan, e, k);
  }

  lemma FirmIsFast(plan: Plan, s: Step)
    requires s.item < |plan.items| && Firm(plan, s.before.disk, s.item)
    requires forall p :: Publishes(plan.items[s.item], p) ==> p in s.before.disk.names
    ensures FirmRemoval(plan, s)
  {
    var it := plan.items[s.item];
    assert Publishes(it, it.destination);
    if it.lifecycle.ArchiveAfterVerify? { assert Publishes(it, it.lifecycle.archive); }
  }

  /** In a turn that began with everything mendable the source goes firmly. */
  lemma RemovalFirm(plan: Plan, tr: seq<Step>, since: nat, i: nat)
    requires Shaped(plan) && TrueTurns(plan, tr, since) && since <= i < |tr| && tr[i].item < |plan.items|
    requires Inv(plan, tr[i].before) && Lawful(plan, tr[i]) && MendedTurns(plan, tr, since, tr[i].item)
    ensures FirmRemoval(plan, tr[i])
  {
    hide Inv, Lawful, Shaped, Mendable, Carries, Firm, Publishes;
    if UnlinksSource(plan, tr[i]) {
      var s := StartOf(tr, since, i);
      UnlinkedPublished(plan, tr[i]);
      MendedIsFirm(plan, tr[s].before.disk, tr[i].before.disk, tr[i].item);
      FirmIsFast(plan, tr[i]);
    }
  }

  lemma EngineIsRespectful(plan: Plan, tr: seq<Step>)
    requires forall s :: s in tr ==> ByEngine(s)
    ensures forall s :: s in tr ==> Respectful(plan, s) && !s.effect.Outage?
  {
  }

  /** A call in which item `j` begins no turn exposed loses nothing of it to a power loss. */
  lemma MendedCallKeeps(plan: Plan, first: World, a: seq<Step>, mid: World, tr: seq<Step>, last: World, j: nat)
    requires Shaped(plan) && Inv(plan, first) && Run(plan, first, a, mid) && Run(plan, first, tr, last) && a <= tr
    requires EngineFrom(tr, |a|, true) && TrueTurns(plan, tr, |a|)
    requires j < |plan.items| && MendedTurns(plan, tr, |a|, j) && SecuredCopy(plan, mid, j)
    ensures SecuredCopy(plan, last, j)
  {
    hide Run, Inv, Shaped, SecuredCopy, FirmRemoval, ByEngine, Lawful, TrueTurns, MendedTurns, Respectful;
    var b := tr[|a|..];
    assert a + b == tr;
    RunSplit(plan, first, a, mid, b, last);
    RunInv(plan, first, a, mid);
    RunInv(plan, first, tr, last);
    forall s | s in b ensures ByEngine(s) && (s.item == j ==> FirmRemoval(plan, s)) {
      var i :| 0 <= i < |b| && b[i] == s;
      assert tr[|a| + i] == s && s in tr;
      if s.item == j { RemovalFirm(plan, tr, |a|, |a| + i); }
    }
    EngineIsRespectful(plan, b);
    NothingLostToPower(plan, mid, b, last, j);
  }

  // ---------------------------------------------------------------- exactly when

  /** What the item has published was flushed when it was linked, once at most: a power loss takes it as a
      whole or not at all. */
  ghost predicate LinkedOnce(plan: Plan, d: Disk, k: nat)
    requires k < |plan.items|
  {
    && FilesFlushed(plan, d, k)
    && forall p :: Publishes(plan.items[k], p) ==> Lingering(d, p) <= {None, Lookup(d, p)}
  }

  lemma WeakIsFatal(plan: Plan, d: Disk, k: nat, x: Weakness)
    requires k < |plan.items| && LinkedOnce(plan, d, k) && Weak(plan, d, k, x)
    ensures Fatal(x)
  {
  }

  /** Of an item that has published all it publishes, to be exposed is not to be firm. */
  lemma ExposedIsNotFirm(plan: Plan, d: Disk, k: nat)
    requires k < |plan.items| && LinkedOnce(plan, d, k) && forall p :: Publishes(plan.items[k], p) ==> p in d.names
    ensures (exists x :: Exposed(plan, d, k, x)) <==> !Firm(plan, d, k)
  {
    PublishedExposure(plan, d, k);
    FirmIsNotWeak(plan, d, k);
  }

  lemma SecuredNotLosable(plan: Plan, w: World, j: nat)
    requires Inv(plan, w) && j < |plan.items| && SecuredCopy(plan, w, j)
    ensures !Losable(plan, w, j)
  {
    forall after | PowerLoss(w.disk, after) ensures KeptCopy(plan, w.(disk := after), j) {
      SecuredThroughOutage(plan, w, after, j);
    }
  }

  /** Unlinking the source of an item that began its turn exposed puts it at risk. */
  lemma ExposedRemoval(plan: Plan, tr: seq<Step>, since: nat, s: nat, i: nat, x: Weakness)
    requires Shaped(plan) && TrueTurns(plan, tr, since) && SameTurn(tr, since, s, i) && tr[i].item < |plan.items|
    requires Inv(plan, tr[i].before) && Lawful(plan, tr[i]) && UnlinksSource(plan, tr[i])
    requires Exposed(plan, tr[s].before.disk, tr[i].item, x) && Fatal(x)
    ensures Losable(plan, tr[i].after, tr[i].item)
  {
    hide Inv, Shaped, Weak, Losable, Publishes, DiskRule, Firm;
    var w, k := tr[i].before, tr[i].item;
    UnlinkedPublished(plan, tr[i]);
    assert Kept(plan, tr[s].before.disk, tr[i]);
    PublishedExposure(plan, w.disk, k);
    assert Exposed(plan, w.disk, k, x);
    OnlyDisk(plan, w);
    RemovalLosable(plan, w, k, x);
  }

  /** Up to a step of its turn the item is secured, unless its source went although it was exposed. */
  lemma SecuredUpTo(plan: Plan, first: World, tr: seq<Step>, last: World, since: nat, s: nat, i: nat)
    requires Shaped(plan) && Inv(plan, first) && Run(plan, first, tr, last)
    requires EngineFrom(tr, since, true) && TrueTurns(plan, tr, since)
    requires SameTurn(tr, since, s, i) && tr[s].item < |plan.items| && SecuredCopy(plan, tr[s].before, tr[s].item)
    requires Mendable(plan, tr[s].before.disk, tr[s].item) || forall m :: s <= m <= i ==> !UnlinksSource(plan, tr[m])
    ensures SecuredCopy(plan, tr[i].after, tr[s].item)
  {
    hide Run, Inv, Shaped, SecuredCopy, FirmRemoval, ByEngine, Lawful, Mendable, Respectful, Carries, Firm,
      UnlinksSource, Publishes;
    var j, b := tr[s].item, tr[s..i + 1];
    RunPart(plan, first, tr, last, s, i);
    RunInv(plan, first, tr, last);
    assert tr[s] in tr;
    forall t | t in b ensures ByEngine(t) && (t.item == j ==> FirmRemoval(plan, t)) {
      var m :| 0 <= m < |b| && b[m] == t;
      assert tr[s + m] == t && t in tr && SameTurn(tr, since, s, s + m);
      if UnlinksSource(plan, t) {
        assert Kept(plan, tr[s].before.disk, t);
        UnlinkedPublished(plan, t);
        MendedIsFirm(plan, tr[s].before.disk, t.before.disk, j);
        FirmIsFast(plan, t);
      } else {
        NoRemovalFirm(plan, t);
      }
    }
    EngineIsRespectful(plan, b);
    NothingLostToPower(plan, tr[s].before, b, tr[i].after, j);
  }

  lemma NoRemovalFirm(plan: Plan, s: Step)
    requires !UnlinksSource(plan, s)
    ensures FirmRemoval(plan, s)
  {
  }

  ghost predicate LosableIn(plan: Plan, tr: seq<Step>, s: nat, e: nat, j: nat)
    requires e < |tr| && j < |plan.items|
  {
    exists i :: s <= i <= e && Losable(plan, tr[i].after, j)
  }

  ghost predicate RemovedIn(plan: Plan, tr: seq<Step>, s: nat, e: nat)
    requires e < |tr|
  {
    exists i :: s <= i <= e && UnlinksSource(plan, tr[i])
  }

  /** Whatever fails or is killed in any call: a power loss during an item's turn could leave neither its
      durable source nor what replaces it if and only if the turn removes the source, and a published name
      or a directory on the way to one was not durable when the turn began and is not on the turn's way. */
  lemma TurnRisk(plan: Plan, first: World, tr: seq<Step>, last: World, since: nat, s: nat, e: nat)
    requires Shaped(plan) && Inv(plan, first) && Run(plan, first, tr, last)
    requires EngineFrom(tr, since, true) && TrueTurns(plan, tr, since)
    requires SameTurn(tr, since, s, e) && tr[s].item < |plan.items|
    requires var d, it := tr[s].before.disk, plan.items[tr[s].item]; SourceHere(d, it) && Fast(d, it.source)
    requires LinkedOnce(plan, tr[s].before.disk, tr[s].item)
    ensures LosableIn(plan, tr, s, e, tr[s].item) <==>
              RemovedIn(plan, tr, s, e) && exists x :: Exposed(plan, tr[s].before.disk, tr[s].item, x)
  {
    hide Run, Inv, Shaped, SecuredCopy, Lawful, Exposed, Losable, UnlinksSource, FilesFlushed;
    var j, d := tr[s].item, tr[s].before.disk;
    RunInv(plan, first, tr, last);
    SourceSecured(plan, tr[s].before, j);
    forall i | s <= i <= e && Losable(plan, tr[i].after, j)
      ensures RemovedIn(plan, tr, s, e) && exists x :: Exposed(plan, d, j, x)
    {
      assert SameTurn(tr, since, s, i) && tr[i] in tr;
      if Mendable(plan, d, j) || forall m :: s <= m <= i ==> !UnlinksSource(plan, tr[m]) {
        SecuredUpTo(plan, first, tr, last, since, s, i);
        SecuredNotLosable(plan, tr[i].after, j);
      }
    }
    if RemovedIn(plan, tr, s, e) && exists x :: Exposed(plan, d, j, x) {
      var i :| s <= i <= e && UnlinksSource(plan, tr[i]);
      var x :| Exposed(plan, d, j, x);
      ExposedWeak(plan, d, j, x);
      WeakIsFatal(plan, d, j, x);
      assert SameTurn(tr, since, s, i) && tr[i] in tr;
      ExposedRemoval(plan, tr, since, s, i, x);
    }
  }

  lemma SourceSecured(plan: Plan, w: World, j: nat)
    requires j < |plan.items| && SourceHere(w.disk, plan.items[j]) && Fast(w.disk, plan.items[j].source)
    ensures SecuredCopy(plan, w, j)
  {
  }

  lemma ExposedWeak(plan: Plan, d: Disk, j: nat, x: Weakness)
    requires j < |plan.items| && Exposed(plan, d, j, x)
    ensures Weak(plan, d, j, x)
  {
  }
}
