/** Histories of calls on one plan: any number of applies, recoveries and abandonments, each of which may
    be killed anywhere or fail, with what happens between them. */
module Histories {
  import opened Basics
  import opened Disks
  import opened Journals
  import opened Protocol
  import opened Invariant
  import opened Frames
  import opened Recoverable
  import opened Runs
  import opened Conservation
  import opened Dangers
  import opened Filesystem
  import opened Turns
  import opened PowerRisks
  import opened Actions
  import opened ItemExecution
  import opened ApplyEngine
  import Ledgers

  datatype Event =
    | Applies
    | Recovers
    | Abandons(reason: string)
    | Others(change: Disk -> Disk)
    | Cuts(loss: Disk -> Disk)

  predicate IsCall(e: Event) {
    e.Applies? || e.Recovers? || e.Abandons?
  }

  /** Between calls other programs may do what they like, except to existing files under planned names. */
  ghost predicate Benign(plan: Plan, change: Disk -> Disk) {
    forall d :: WellFormed(d) ==> Outside(d, change(d)) && PlannedFilesSame(plan, d, change(d))
  }

  ghost predicate PlannedFilesSame(plan: Plan, d: Disk, e: Disk) {
    forall j, p :: 0 <= j < |plan.items| && PlannedPath(plan.items[j], p) && p in d.names ==> Same(d, e, p)
  }

  /** One call: whatever becomes of it, it adds lawful engine steps to the run. */
  method Call(engine: ApplyEngine, e: Event) returns (r: Outcome)
    requires engine.Valid() && IsCall(e)
    modifies engine.machine`tick, engine.machine`world, engine.machine`trace, engine.machine`actor
    modifies engine.desk`anchor, engine.desk`mode, engine.store.db
    ensures engine.Valid() && engine.machine.tick >= old(engine.machine.tick)
    ensures old(engine.machine.trace) <= engine.machine.trace
    ensures EngineFrom(engine.machine.trace, old(|engine.machine.trace|), e.Applies?)
    ensures Reliable(engine.machine.oracle) ==>
              engine.FirmCall(old(|engine.machine.trace|), old(FirmItems(engine.desk.plan, engine.machine.world.disk)))
    ensures TrueTurns(engine.desk.plan, engine.machine.trace, old(|engine.machine.trace|))
    ensures old(engine.store.db.ledger.invalidated) <= engine.store.db.ledger.invalidated
    ensures engine.planId in old(engine.store.db.ledger.invalidated) ==>
              engine.machine.world.disk == old(engine.machine.world.disk)
  {
    hide Desk.Valid, FirmFrom, EngineFrom, AllFirm, Hopeful, Verdict, AllFinished, Diagnosis, TrueTurns, NextFromThere;
    match e {
      case Applies => r := engine.Apply();
      case Recovers => r := engine.Recover();
      case Abandons(reason) =>
        r := engine.Abandon(reason);
    }
  }

  /** A segment of a run made of engine steps loses nothing. */
  lemma CallLosesNothing(plan: Plan, first: World, a: seq<Step>, mid: World, tr: seq<Step>, last: World, j: nat)
    requires Shaped(plan) && Inv(plan, first) && Run(plan, first, a, mid) && Run(plan, first, tr, last)
    requires a <= tr && EngineFrom(tr, |a|, true) && j < |plan.items|
    ensures KeptCopy(plan, mid, j) ==> KeptCopy(plan, last, j)
    ensures FirmFrom(plan, tr, |a|, j) && SecuredCopy(plan, mid, j) ==> SecuredCopy(plan, last, j)
  {
    hide Run, Inv, Shaped, KeptCopy, SecuredCopy, FirmStep, FirmRemoval, ByEngine, Lawful;
    var b := tr[|a|..];
    assert a + b == tr;
    RunSplit(plan, first, a, mid, b, last);
    RunInv(plan, first, a, mid);
    RunInv(plan, mid, b, last);
    forall s | s in b ensures ByEngine(s) && (FirmFrom(plan, tr, |a|, j) && s.item == j ==> FirmRemoval(plan, s)) {
      var i :| 0 <= i < |b| && b[i] == s;
      assert tr[|a| + i] == s;
      if FirmFrom(plan, tr, |a|, j) && s.item == j { FirmLawful(plan, s); }
    }
    EngineIsRespectful(plan, b);
    if KeptCopy(plan, mid, j) { NothingLost(plan, mid, b, last, j); }
    if FirmFrom(plan, tr, |a|, j) && SecuredCopy(plan, mid, j) { NothingLostToPower(plan, mid, b, last, j); }
  }

  lemma FirmLawful(plan: Plan, s: Step)
    requires Lawful(plan, s) && FirmStep(plan, s)
    ensures FirmRemoval(plan, s)
  {
    if UnlinksSource(plan, s) { FirmStepRemoval(plan, s); }
  }

  /** No data loss: over any history of applies, recoveries and abandonments that are killed or fail
      anywhere, and of harmless interference between them, each item keeps its planned source bytes or,
      unless its lifecycle is preserve, the verified output and any planned archive copy. */
  method AnyHistory(engine: ApplyEngine, events: seq<Event>)
    requires engine.Valid()
    requires forall i :: 0 <= i < |events| ==>
              IsCall(events[i]) || (events[i].Others? && Benign(engine.desk.plan, events[i].change))
    modifies engine.machine`tick, engine.machine`world, engine.machine`trace, engine.machine`actor
    modifies engine.desk`anchor, engine.desk`mode, engine.store.db
    ensures engine.Valid()
    ensures Run(engine.desk.plan, engine.desk.origin, engine.machine.trace, engine.machine.world)
    ensures forall j :: (0 <= j < |engine.desk.plan.items|
              && old(KeptCopy(engine.desk.plan, engine.machine.world, j))) ==>
              KeptCopy(engine.desk.plan, engine.machine.world, j)
  {
    hide Desk.Valid, Inv, Run, KeptCopy, FirmFrom, EngineFrom, AllFirm, Outside, Benign;
    engine.desk.Promises();
    for i := 0 to |events|
      invariant engine.Valid()
      invariant forall j :: (0 <= j < |engine.desk.plan.items|
                && old(KeptCopy(engine.desk.plan, engine.machine.world, j))) ==>
                  KeptCopy(engine.desk.plan, engine.machine.world, j)
    {
      ghost var w, tr := engine.machine.world, engine.machine.trace;
      engine.desk.Promises();
      if events[i].Others? {
        BenignHere(engine.desk.plan, events[i].change, w.disk);
        engine.desk.Disturb(events[i].change(engine.machine.world.disk));
        forall j | 0 <= j < |engine.desk.plan.items| && KeptCopy(engine.desk.plan, w, j)
          ensures KeptCopy(engine.desk.plan, engine.machine.world, j)
        {
          DisturbedCopy(engine.desk.plan, w, engine.machine.world.disk, j);
        }
      } else {
        var r := Call(engine, events[i]);
        engine.desk.Promises();
        EngineWeaken(engine.machine.trace, |tr|, events[i].Applies?);
        forall j | 0 <= j < |engine.desk.plan.items| && KeptCopy(engine.desk.plan, w, j)
          ensures KeptCopy(engine.desk.plan, engine.machine.world, j)
        {
          CallLosesNothing(engine.desk.plan, engine.desk.origin, tr, w, engine.machine.trace, engine.machine.world, j);
        }
      }
    }
    engine.desk.Promises();
  }

  lemma BenignHere(plan: Plan, change: Disk -> Disk, d: Disk)
    requires Benign(plan, change) && WellFormed(d)
    ensures Outside(d, change(d)) && PlannedFilesSame(plan, d, change(d))
  {
  }

  lemma DisturbedCopy(plan: Plan, w: World, d: Disk, j: nat)
    requires Shaped(plan) && Inv(plan, w) && Outside(w.disk, d) && PlannedFilesSame(plan, w.disk, d)
    requires j < |plan.items| && KeptCopy(plan, w, j)
    ensures KeptCopy(plan, w.(disk := d), j)
  {
    CopyStep(plan, Step(w, 0, Elsewhere(d), w.(disk := d)), j);
  }

  // ---------------------------------------------------------------- power losses

  /** What one event of a history left behind: a step of its own, or engine steps only. */
  ghost predicate Happened(plan: Plan, e: Event, w: World, steps: seq<Step>, v: World) {
    && Run(plan, w, steps, v)
    && match e
       case Others(change) => steps == [Step(w, 0, Elsewhere(change(w.disk)), v)] && v == w.(disk := change(w.disk))
       case Cuts(loss) => steps == [Step(w, 0, Outage(loss(w.disk)), v)] && v == w.(disk := loss(w.disk))
       case _ => (forall s :: s in steps ==> ByEngine(s)) && TrueTurns(plan, steps, 0)
  }

  ghost predicate Lossy(loss: Disk -> Disk) {
    forall d :: WellFormed(d) ==> PowerLoss(d, loss(d))
  }

  ghost predicate Harmless(plan: Plan, e: Event) {
    match e
    case Others(change) => Benign(plan, change)
    case Cuts(loss) => Lossy(loss)
    case _ => true
  }

  /** The world before event `i` of a history with the given worlds after its events. */
  function Before(first: World, ends: seq<World>, i: nat): World
    requires i <= |ends|
  {
    if i == 0 then first else ends[i - 1]
  }

  /** The events of a history are the parts of the run, one after the other. */
  ghost predicate History(plan: Plan, first: World, events: seq<Event>, parts: seq<seq<Step>>, ends: seq<World>) {
    && |parts| == |ends| == |events|
    && forall i :: 0 <= i < |events| ==> Happened(plan, events[i], Before(first, ends, i), parts[i], ends[i])
  }

  function Whole(parts: seq<seq<Step>>): seq<Step> {
    if parts == [] then [] else Whole(parts[..|parts| - 1]) + parts[|parts| - 1]
  }

  lemma HistoryGrows(plan: Plan, first: World, events: seq<Event>, parts: seq<seq<Step>>, ends: seq<World>,
                     e: Event, more: seq<Step>, w: World)
    requires History(plan, first, events, parts, ends) && Happened(plan, e, Before(first, ends, |ends|), more, w)
    ensures History(plan, first, events + [e], parts + [more], ends + [w])
    ensures Whole(parts + [more]) == Whole(parts) + more
  {
    hide Happened;
    assert (parts + [more])[..|parts|] == parts;
    forall i | 0 <= i < |events + [e]|
      ensures Happened(plan, (events + [e])[i], Before(first, ends + [w], i), (parts + [more])[i], (ends + [w])[i])
    {
      assert Before(first, ends + [w], i) == Before(first, ends, i);
    }
  }

  /** In no call of the history does item `j` begin a turn exposed. */
  ghost predicate MendedAtTurns(plan: Plan, events: seq<Event>, parts: seq<seq<Step>>, j: nat)
    requires j < |plan.items| && |events| <= |parts|
  {
    forall i :: 0 <= i < |events| && IsCall(events[i]) ==> MendedTurns(plan, parts[i], 0, j)
  }

  /** At the start of every call a power loss could take neither the item's published names nor their directories. */
  ghost predicate FirmAtCalls(plan: Plan, first: World, events: seq<Event>, ends: seq<World>, j: nat)
    requires j < |plan.items| && |events| <= |ends|
  {
    forall i :: 0 <= i < |events| && IsCall(events[i]) ==> Firm(plan, Before(first, ends, i).disk, j)
  }

  ghost predicate KeepsSecured(plan: Plan, w: World, v: World, j: nat)
    requires j < |plan.items|
  {
    SecuredCopy(plan, w, j) ==> SecuredCopy(plan, v, j)
  }

  /** What the history so far kept of each item. */
  ghost predicate KeptSoFar(plan: Plan, reliable: bool, first: World, events: seq<Event>, parts: seq<seq<Step>>,
                            ends: seq<World>, now: World, j: nat)
    requires j < |plan.items| && |events| <= |parts| && |events| <= |ends|
  {
    MendedAtTurns(plan, events, parts, j) || (reliable && FirmAtCalls(plan, first, events, ends, j)) ==>
      KeepsSecured(plan, first, now, j)
  }

  /** Kills, failing system calls, power losses and recoveries in any order: an item that begins no turn
      exposed keeps a copy that no power loss can take. While no system call fails it is enough that its
      published names and directories are durable whenever a call begins. */
  method MixedHistory(engine: ApplyEngine, events: seq<Event>)
    returns (ghost parts: seq<seq<Step>>, ghost ends: seq<World>)
    requires engine.Valid()
    requires forall i :: 0 <= i < |events| ==> Harmless(engine.desk.plan, events[i])
    modifies engine.machine`tick, engine.machine`world, engine.machine`trace, engine.machine`actor
    modifies engine.desk`anchor, engine.desk`mode, engine.store.db
    ensures engine.Valid()
    ensures History(engine.desk.plan, old(engine.machine.world), events, parts, ends)
    ensures engine.machine.trace == old(engine.machine.trace) + Whole(parts)
    ensures Before(old(engine.machine.world), ends, |events|) == engine.machine.world
    ensures forall j: nat :: j < |engine.desk.plan.items| && MendedAtTurns(engine.desk.plan, events, parts, j) ==>
              KeepsSecured(engine.desk.plan, old(engine.machine.world), engine.machine.world, j)
    ensures Reliable(engine.machine.oracle) ==> forall j: nat :: (j < |engine.desk.plan.items|
              && FirmAtCalls(engine.desk.plan, old(engine.machine.world), events, ends, j)) ==>
              KeepsSecured(engine.desk.plan, old(engine.machine.world), engine.machine.world, j)
  {
    hide Desk.Valid, Inv, Run, SecuredCopy, FirmFrom, EngineFrom, Outside, Benign, Lossy, Firm, Happened, History,
      MendedAtTurns, FirmAtCalls, KeepsSecured, MendedTurns, Reliable;
    ghost var plan, first, reliable := engine.desk.plan, engine.machine.world, Reliable(engine.machine.oracle);
    parts, ends := [], [];
    NoHistory(plan, first);
    for i := 0 to |events|
      invariant engine.Valid() && |parts| == |ends| == i && Before(first, ends, i) == engine.machine.world
      invariant History(plan, first, events[..i], parts, ends)
      invariant engine.machine.trace == old(engine.machine.trace) + Whole(parts)
      invariant forall j: nat :: j < |plan.items| ==>
                  KeptSoFar(plan, reliable, first, events[..i], parts, ends, engine.machine.world, j)
    {
      ghost var w := engine.machine.world;
      ghost var more := Happen(engine, events[i]);
      ghost var v := engine.machine.world;
      assert events[..i + 1] == events[..i] + [events[i]];
      HistoryGrows(plan, first, events[..i], parts, ends, events[i], more, v);
      ghost var before, after, parts', ends' := events[..i], events[..i + 1], parts, ends;
      parts, ends := parts + [more], ends + [v];
      forall j: nat | j < |plan.items| ensures KeptSoFar(plan, reliable, first, after, parts, ends, v, j) {
        KeptLonger(plan, reliable, first, before, events[i], parts', more, ends', w, v, j);
      }
    }
    assert events[..|events|] == events;
    forall j: nat | j < |plan.items|
      ensures MendedAtTurns(plan, events, parts, j) ==> KeepsSecured(plan, first, engine.machine.world, j)
      ensures reliable && FirmAtCalls(plan, first, events, ends, j) ==>
                KeepsSecured(plan, first, engine.machine.world, j)
    {
      assert KeptSoFar(plan, reliable, first, events, parts, ends, engine.machine.world, j);
    }
  }

  lemma NoHistory(plan: Plan, first: World)
    ensures History(plan, first, [], [], []) && Whole([]) == []
    ensures forall j: nat :: j < |plan.items| ==> KeepsSecured(plan, first, first, j)
  {
  }

  lemma KeptLonger(plan: Plan, reliable: bool, first: World, events: seq<Event>, e: Event, parts: seq<seq<Step>>,
                   more: seq<Step>, ends: seq<World>, w: World, v: World, j: nat)
    requires j < |plan.items| && |events| == |parts| == |ends| && Before(first, ends, |events|) == w
    requires KeptSoFar(plan, reliable, first, events, parts, ends, w, j)
    requires KeptByEvent(plan, reliable, e, w, more, v, j)
    ensures KeptSoFar(plan, reliable, first, events + [e], parts + [more], ends + [v], v, j)
  {
    hide MendedTurns, Firm, SecuredCopy;
    if MendedAtTurns(plan, events + [e], parts + [more], j) {
      assert (events + [e])[|events|] == e && (parts + [more])[|parts|] == more;
      forall i | 0 <= i < |events| && IsCall(events[i]) ensures MendedTurns(plan, parts[i], 0, j) {
        assert (events + [e])[i] == events[i] && (parts + [more])[i] == parts[i];
      }
    }
    if reliable && FirmAtCalls(plan, first, events + [e], ends + [v], j) {
      FirmEarlier(plan, first, events, e, ends, v, j);
    }
  }

  /** One event keeps an item safe from power losses if it is no call, if the item begins no turn exposed in
      it, or if no system call fails and the item was firm before it. */
  ghost predicate KeptByEvent(plan: Plan, reliable: bool, e: Event, w: World, steps: seq<Step>, v: World, j: nat)
    requires j < |plan.items|
  {
    !IsCall(e) || MendedTurns(plan, steps, 0, j) || (reliable && Firm(plan, w.disk, j)) ==> KeepsSecured(plan, w, v, j)
  }

  lemma FirmEarlier(plan: Plan, first: World, events: seq<Event>, e: Event, ends: seq<World>, w: World, j: nat)
    requires j < |plan.items| && |ends| == |events| && FirmAtCalls(plan, first, events + [e], ends + [w], j)
    ensures FirmAtCalls(plan, first, events, ends, j)
    ensures IsCall(e) ==> Firm(plan, Before(first, ends, |events|).disk, j)
  {
    assert (events + [e])[|events|] == e;
    assert Before(first, ends + [w], |events|) == Before(first, ends, |events|);
    forall i | 0 <= i < |events| && IsCall(events[i]) ensures Firm(plan, Before(first, ends, i).disk, j) {
      assert (events + [e])[i] == events[i] && Before(first, ends + [w], i) == Before(first, ends, i);
    }
  }

  /** One event of such a history. */
  method Happen(engine: ApplyEngine, e: Event) returns (ghost more: seq<Step>)
    requires engine.Valid() && Harmless(engine.desk.plan, e)
    modifies engine.machine`tick, engine.machine`world, engine.machine`trace, engine.machine`actor
    modifies engine.desk`anchor, engine.desk`mode, engine.store.db
    ensures engine.Valid() && engine.machine.trace == old(engine.machine.trace) + more
    ensures Happened(engine.desk.plan, e, old(engine.machine.world), more, engine.machine.world)
    ensures forall j: nat :: j < |engine.desk.plan.items| ==>
              KeptByEvent(engine.desk.plan, Reliable(engine.machine.oracle), e, old(engine.machine.world), more,
                engine.machine.world, j)
  {
    hide Desk.Valid, Inv, Run, SecuredCopy, FirmFrom, EngineFrom, Outside, PowerLoss, Benign, Lossy, Firm, MendedTurns,
      Reliable;
    ghost var w, tr, plan := engine.machine.world, engine.machine.trace, engine.desk.plan;
    engine.desk.Promises();
    if e.Others? {
      BenignHere(plan, e.change, w.disk);
      engine.desk.Disturb(e.change(engine.machine.world.disk));
      more := [Step(w, 0, Elsewhere(engine.machine.world.disk), engine.machine.world)];
      OneStepRun(plan, w, more[0]);
      forall j | 0 <= j < |plan.items| && SecuredCopy(plan, w, j) ensures SecuredCopy(plan, engine.machine.world, j) {
        DisturbedSecured(plan, w, engine.machine.world.disk, j);
      }
    } else if e.Cuts? {
      LossHere(e.loss, w.disk);
      engine.desk.LosePower(e.loss(engine.machine.world.disk));
      more := [Step(w, 0, Outage(engine.machine.world.disk), engine.machine.world)];
      OneStepRun(plan, w, more[0]);
      forall j | 0 <= j < |plan.items| && SecuredCopy(plan, w, j) ensures SecuredCopy(plan, engine.machine.world, j) {
        OutageCopy(plan, w, engine.machine.world.disk, j);
      }
    } else {
      more := CallHappens(engine, e);
    }
  }

  method CallHappens(engine: ApplyEngine, e: Event) returns (ghost more: seq<Step>)
    requires engine.Valid() && IsCall(e)
    modifies engine.machine`tick, engine.machine`world, engine.machine`trace, engine.machine`actor
    modifies engine.desk`anchor, engine.desk`mode, engine.store.db
    ensures engine.Valid() && engine.machine.trace == old(engine.machine.trace) + more
    ensures Happened(engine.desk.plan, e, old(engine.machine.world), more, engine.machine.world)
    ensures forall j: nat :: j < |engine.desk.plan.items| ==>
              KeptByEvent(engine.desk.plan, Reliable(engine.machine.oracle), e, old(engine.machine.world), more,
                engine.machine.world, j)
  {
    hide Desk.Valid, Inv, Run, SecuredCopy, FirmFrom, EngineFrom, Firm, TrueTurns, MendedTurns, Reliable;
    ghost var w, tr, plan := engine.machine.world, engine.machine.trace, engine.desk.plan;
    engine.desk.Promises();
    var r := Call(engine, e);
    engine.desk.Promises();
    more := engine.machine.trace[|tr|..];
    assert engine.machine.trace == tr + more;
    EngineWeaken(engine.machine.trace, |tr|, e.Applies?);
    EnginePart(engine.machine.trace, tr, more);
    RunSplit(plan, engine.desk.origin, tr, w, more, engine.machine.world);
    TrueShift(plan, tr, more);
    forall j: nat | j < |plan.items|
      ensures KeptByEvent(plan, Reliable(engine.machine.oracle), e, w, more, engine.machine.world, j)
    {
      if Reliable(engine.machine.oracle) && Firm(plan, w.disk, j) {
        assert j in FirmItems(plan, w.disk);
        CallLosesNothing(plan, engine.desk.origin, tr, w, engine.machine.trace, engine.machine.world, j);
      }
      if MendedTurns(plan, more, 0, j) && SecuredCopy(plan, w, j) {
        MendedShift(plan, tr, more, j);
        MendedCallKeeps(plan, engine.desk.origin, tr, w, engine.machine.trace, engine.machine.world, j);
      }
    }
  }

  /** Whether the steps of a call are counted from its beginning or from that of the run makes no difference. */
  lemma TrueShift(plan: Plan, tr: seq<Step>, more: seq<Step>)
    requires TrueTurns(plan, tr + more, |tr|)
    ensures TrueTurns(plan, more, 0)
  {
    hide Kept;
    var all := tr + more;
    forall s: nat, i: nat | SameTurn(more, 0, s, i) ensures Kept(plan, more[s].before.disk, more[i]) {
      forall m | |tr| + s <= m <= |tr| + i ensures all[m].item == all[|tr| + s].item {
        assert all[m] == more[m - |tr|];
      }
      assert SameTurn(all, |tr|, |tr| + s, |tr| + i);
    }
  }

  lemma MendedShift(plan: Plan, tr: seq<Step>, more: seq<Step>, j: nat)
    requires j < |plan.items| && MendedTurns(plan, more, 0, j)
    ensures MendedTurns(plan, tr + more, |tr|, j)
  {
    hide Mendable;
    forall s: nat | TurnBegins(tr + more, |tr|, s, j) ensures Mendable(plan, (tr + more)[s].before.disk, j) {
      assert TurnBegins(more, 0, s - |tr|, j);
    }
  }

  lemma EngineWeaken(tr: seq<Step>, since: nat, accepting: bool)
    requires EngineFrom(tr, since, accepting)
    ensures EngineFrom(tr, since, true)
  {
  }

  lemma EnginePart(all: seq<Step>, tr: seq<Step>, more: seq<Step>)
    requires all == tr + more && EngineFrom(all, |tr|, true)
    ensures forall s :: s in more ==> ByEngine(s)
  {
    forall s | s in more ensures ByEngine(s) {
      var i :| 0 <= i < |more| && more[i] == s;
      assert all[|tr| + i] == s;
    }
  }

  lemma OneStepRun(plan: Plan, w: World, s: Step)
    requires Lawful(plan, s) && s.before == w
    ensures Run(plan, w, [s], s.after)
  {
    assert [s][..0] == [];
  }

  lemma LossHere(loss: Disk -> Disk, d: Disk)
    requires Lossy(loss) && WellFormed(d)
    ensures PowerLoss(d, loss(d))
  {
  }

  lemma DisturbedSecured(plan: Plan, w: World, d: Disk, j: nat)
    requires Shaped(plan) && Inv(plan, w) && Outside(w.disk, d) && PlannedFilesSame(plan, w.disk, d)
    requires j < |plan.items| && SecuredCopy(plan, w, j)
    ensures SecuredCopy(plan, w.(disk := d), j)
  {
    SecuredStep(plan, Step(w, 0, Elsewhere(d), w.(disk := d)), j);
  }

  lemma OutageCopy(plan: Plan, w: World, d: Disk, j: nat)
    requires Shaped(plan) && Inv(plan, w) && PowerLoss(w.disk, d)
    requires j < |plan.items| && SecuredCopy(plan, w, j)
    ensures SecuredCopy(plan, w.(disk := d), j)
  {
    SecuredThroughOutage(plan, w, d, j);
  }

  /** A power loss before every call. */
  function Cutting(calls: seq<Event>, loss: Disk -> Disk): (r: seq<Event>)
    ensures |r| == 2 * |calls|
    ensures forall i :: 0 <= i < |r| ==> r[i] == if i % 2 == 0 then Cuts(loss) else calls[i / 2]
  {
    seq(2 * |calls|, i requires 0 <= i < 2 * |calls| => if i % 2 == 0 then Cuts(loss) else calls[i / 2])
  }

  /** Power-loss durability: when every interruption is a power loss, so that each call starts from what
      the disk could keep, each item always has a copy that the next power loss cannot take; if system calls
      fail, each item that begins no turn exposed has. */
  method PowerHistory(engine: ApplyEngine, calls: seq<Event>, loss: Disk -> Disk)
    returns (ghost parts: seq<seq<Step>>, ghost ends: seq<World>)
    requires engine.Valid() && Lossy(loss) && forall i :: 0 <= i < |calls| ==> IsCall(calls[i])
    modifies engine.machine`tick, engine.machine`world, engine.machine`trace, engine.machine`actor
    modifies engine.desk`anchor, engine.desk`mode, engine.store.db
    ensures engine.Valid()
    ensures History(engine.desk.plan, old(engine.machine.world), Cutting(calls, loss), parts, ends)
    ensures engine.machine.trace == old(engine.machine.trace) + Whole(parts)
    ensures Reliable(engine.machine.oracle) ==> forall j: nat :: j < |engine.desk.plan.items| ==>
              KeepsSecured(engine.desk.plan, old(engine.machine.world), engine.machine.world, j)
    ensures forall j: nat :: (j < |engine.desk.plan.items|
              && MendedAtTurns(engine.desk.plan, Cutting(calls, loss), parts, j)) ==>
              KeepsSecured(engine.desk.plan, old(engine.machine.world), engine.machine.world, j)
  {
    hide Desk.Valid, Inv, Run, KeepsSecured, Firm, Lossy, MendedAtTurns, Reliable, FirmAtCalls, History, Cutting;
    ghost var w, plan := engine.machine.world, engine.desk.plan;
    engine.desk.Promises();
    ghost var events := Cutting(calls, loss);
    CuttingIsHarmless(plan, calls, loss);
    parts, ends := MixedHistory(engine, Cutting(calls, loss));
    HistoryLength(plan, w, events, parts, ends);
    forall j: nat | j < |plan.items| ensures FirmAtCalls(plan, w, Cutting(calls, loss), ends, j) {
      FirmBetweenLosses(plan, w, calls, loss, parts, ends, j);
    }
  }

  lemma CuttingIsHarmless(plan: Plan, calls: seq<Event>, loss: Disk -> Disk)
    requires Lossy(loss) && forall i :: 0 <= i < |calls| ==> IsCall(calls[i])
    ensures forall i :: 0 <= i < |Cutting(calls, loss)| ==> Harmless(plan, Cutting(calls, loss)[i])
  {
  }

  lemma HistoryLength(plan: Plan, w: World, events: seq<Event>, parts: seq<seq<Step>>, ends: seq<World>)
    requires History(plan, w, events, parts, ends)
    ensures |parts| == |ends| == |events|
  {
  }

  lemma FirmBetweenLosses(plan: Plan, w: World, calls: seq<Event>, loss: Disk -> Disk, parts: seq<seq<Step>>,
                          ends: seq<World>, j: nat)
    requires Shaped(plan) && Inv(plan, w) && Lossy(loss) && History(plan, w, Cutting(calls, loss), parts, ends)
    requires j < |plan.items|
    ensures FirmAtCalls(plan, w, Cutting(calls, loss), ends, j)
  {
    hide Inv, Shaped, Run, Firm, Lossy, History, Happened;
    var events := Cutting(calls, loss);
    HistoryLength(plan, w, events, parts, ends);
    forall i | 0 <= i < |events| && IsCall(events[i]) ensures Firm(plan, Before(w, ends, i).disk, j) {
      assert i % 2 == 1 && events[i - 1] == Cuts(loss);
      FirmAfterCut(plan, w, events, parts, ends, loss, i - 1, j);
    }
  }

  lemma FirmAfterCut(plan: Plan, w: World, events: seq<Event>, parts: seq<seq<Step>>, ends: seq<World>,
                     loss: Disk -> Disk, i: nat, j: nat)
    requires Shaped(plan) && Inv(plan, w) && Lossy(loss) && History(plan, w, events, parts, ends)
    requires i < |events| && events[i] == Cuts(loss) && j < |plan.items|
    ensures Firm(plan, Before(w, ends, i + 1).disk, j)
  {
    hide Inv, Shaped, Run, Firm, Lossy;
    SoundSoFar(plan, w, events, parts, ends, i);
    SoundSoFar(plan, w, events, parts, ends, i + 1);
    assert Happened(plan, events[i], Before(w, ends, i), parts[i], ends[i]);
    var v, u := Before(w, ends, i), Before(w, ends, i + 1);
    assert u == v.(disk := loss(v.disk));
    hide History, Happened, Before;
    OnlyDisk(plan, v);
    OnlyDisk(plan, u);
    LossHere(loss, v.disk);
    FirmAfterOutage(plan, v.disk, u);
  }

  lemma {:induction false} SoundSoFar(plan: Plan, w: World, events: seq<Event>, parts: seq<seq<Step>>,
                                      ends: seq<World>, i: nat)
    requires Shaped(plan) && Inv(plan, w) && History(plan, w, events, parts, ends) && i <= |events|
    ensures Inv(plan, Before(w, ends, i))
  {
    hide Inv, Shaped, Run;
    if i > 0 {
      SoundSoFar(plan, w, events, parts, ends, i - 1);
      assert Happened(plan, events[i - 1], Before(w, ends, i - 1), parts[i - 1], ends[i - 1]);
      RunInv(plan, Before(w, ends, i - 1), parts[i - 1], ends[i - 1]);
    }
  }

  lemma FirmAfterOutage(plan: Plan, d: Disk, w: World)
    requires PowerLoss(d, w.disk) && WellFormed(w.disk)
    ensures forall k :: 0 <= k < |plan.items| ==> Firm(plan, w.disk, k)
  {
    FirmAfterPowerLoss(plan, w);
  }

  // ---------------------------------------------------------------- kills

  /** The journal shows that every item got past the first preflight. */
  predicate Accepted(b: Book) {
    b.begun && forall k :: 0 <= k < |b.rows| ==> ItemEvent(k, Some(Pending), PreflightOk, false) in b.events
  }

  ghost predicate Acceptance(e: Journals.Event, k: nat) {
    e == ItemEvent(k, Some(Pending), PreflightOk, false)
  }

  /** An item that was accepted is not pending any more. */
  lemma {:induction false} AcceptedNotPending(events: seq<Journals.Event>, k: nat)
    requires Walk(events, k) != Broken && ItemEvent(k, Some(Pending), PreflightOk, false) in events
    ensures Walk(events, k) !in {Unborn, At(Pending)}
  {
    var rest, last := events[..|events| - 1], events[|events| - 1];
    assert events == rest + [last];
    if !Acceptance(last, k) { AcceptedNotPending(rest, k); }
  }

  /** Steps that accept nothing leave the record of what was accepted as it is. */
  lemma {:induction false} NothingAccepted(plan: Plan, first: World, tr: seq<Step>, last: World, k: nat)
    requires Run(plan, first, tr, last) && forall s :: s in tr ==> !Accepts(s)
    requires ItemEvent(k, Some(Pending), PreflightOk, false) in last.book.events
    ensures ItemEvent(k, Some(Pending), PreflightOk, false) in first.book.events
    decreases |tr|
  {
    if tr != [] {
      var s := tr[|tr| - 1];
      assert s in tr;
      NothingAccepted(plan, first, tr[..|tr| - 1], s.before, k);
    }
  }

  predicate GotThrough(s: ItemState) {
    s !in {Pending, Stale, RecoveryRequired}
  }

  /** Since its beginning a run has taken items through the first preflight only by accepting them. */
  lemma {:induction false} ThroughIsAccepted(plan: Plan, first: World, tr: seq<Step>, last: World, k: nat)
    requires Shaped(plan) && Inv(plan, first) && !first.book.begun && Run(plan, first, tr, last)
    requires k < |last.book.rows| && GotThrough(last.book.rows[k].state)
    ensures ItemEvent(k, Some(Pending), PreflightOk, false) in last.book.events
    decreases |tr|
  {
    if tr != [] {
      var s := tr[|tr| - 1];
      if k < |s.before.book.rows| && GotThrough(s.before.book.rows[k].state) {
        ThroughIsAccepted(plan, first, tr[..|tr| - 1], s.before, k);
      }
      ThroughStep(plan, s, k);
    }
  }

  lemma ThroughStep(plan: Plan, s: Step, k: nat)
    requires Lawful(plan, s) && k < |s.after.book.rows| && GotThrough(s.after.book.rows[k].state)
    requires k < |s.before.book.rows| && GotThrough(s.before.book.rows[k].state) ==>
               ItemEvent(k, Some(Pending), PreflightOk, false) in s.before.book.events
    ensures ItemEvent(k, Some(Pending), PreflightOk, false) in s.after.book.events
  {
  }

  /** Recoverability: apply on a plan that passes preflight, killed wherever, then any number of
      recoveries, killed wherever. Whenever the journal shows that every item was accepted the run can be
      resumed, and only then; an apply that is not cut short accepts them all. */
  method KillHistory(engine: ApplyEngine, attempts: nat) returns (r: Outcome)
    requires engine.Valid() && engine.Ripe()
    modifies engine.machine`tick, engine.machine`world, engine.machine`trace, engine.machine`actor
    modifies engine.desk`anchor, engine.desk`mode, engine.store.db
    ensures engine.Valid() && (Accepted(engine.machine.world.book) <==> engine.Resumable())
    ensures old(engine.Uncut()) ==> Accepted(engine.machine.world.book)
    ensures old(Admitted(engine.store.db.ledger, engine.planId)) ==> Admitted(engine.store.db.ledger, engine.planId)
  {
    hide Desk.Valid, Inv, Run, FirmFrom, EngineFrom, Hopeful, AllFinished, Diagnosis, Ledgers.Eligible, Accepted,
      TrueTurns, NextFromThere;
    r := engine.Apply();
    if r == Done { SettledNotPending(engine.machine.world.book); }
    AcceptedResumable(engine);
    ResumableAccepted(engine);
    for i := 0 to attempts
      invariant engine.Valid() && (Accepted(engine.machine.world.book) <==> engine.Resumable())
      invariant old(engine.Uncut()) ==> Accepted(engine.machine.world.book)
      invariant old(Admitted(engine.store.db.ledger, engine.planId)) ==>
                  Admitted(engine.store.db.ledger, engine.planId)
    {
      ghost var w, tr := engine.machine.world, engine.machine.trace;
      engine.desk.Promises();
      r := engine.Recover();
      ResumableAccepted(engine);
      engine.desk.Promises();
      StillNotAccepted(engine.desk.plan, engine.desk.origin, tr, w, engine.machine.trace, engine.machine.world);
    }
  }

  /** Whoever recovers again after every kill gets there, if the kills ever stop: an apply of an admitted plan
      that passes preflight, and recoveries until one is not killed, leave every item complete if the journal
      shows that the apply came to accept them all. */
  method RecoverToTheEnd(engine: ApplyEngine, peace: nat) returns (r: Outcome)
    requires engine.Valid() && engine.Ripe() && Admitted(engine.store.db.ledger, engine.planId)
    requires Smooth(engine.machine.oracle, peace)
    modifies engine.machine`tick, engine.machine`world, engine.machine`trace, engine.machine`actor
    modifies engine.desk`anchor, engine.desk`mode, engine.store.db
    ensures engine.Valid() && r != Killed && (Accepted(engine.machine.world.book) <==> engine.Resumable())
    ensures Accepted(engine.machine.world.book) ==>
      r == Done && engine.machine.world.book.run == RunComplete
      && AllFinished(engine.desk.plan, engine.machine.world)
  {
    hide Desk.Valid, Inv, Run, FirmFrom, EngineFrom, Hopeful, AllFinished, Diagnosis, Ledgers.Eligible, Accepted,
      TrueTurns, NextFromThere;
    r := engine.Apply();
    if r == Done { SettledNotPending(engine.machine.world.book); }
    AcceptedResumable(engine);
    ResumableAccepted(engine);
    while r == Killed
      invariant engine.Valid() && Admitted(engine.store.db.ledger, engine.planId)
      invariant Accepted(engine.machine.world.book) <==> engine.Resumable()
      invariant Accepted(engine.machine.world.book) ==> r in {Done, Killed}
      invariant Accepted(engine.machine.world.book) && r == Done ==>
        engine.machine.world.book.run == RunComplete && AllFinished(engine.desk.plan, engine.machine.world)
      decreases if r == Killed then 1 else 0, peace - engine.machine.tick
    {
      ghost var w, tr := engine.machine.world, engine.machine.trace;
      engine.desk.Promises();
      r := engine.Recover();
      ResumableAccepted(engine);
      engine.desk.Promises();
      StillNotAccepted(engine.desk.plan, engine.desk.origin, tr, w, engine.machine.trace, engine.machine.world);
    }
  }

  /** System calls may fail and processes be killed anywhere, in an apply of a plan that passes preflight and
      in any number of recoveries: the run stays orderly. What failed in staging is on track; only what was
      given up in PENDING, PREFLIGHT_OK, VERIFIED or CLEANED is lost to recovery; and the first recovery that
      nothing cuts short completes every item that had been accepted and not given up. */
  method FailureHistory(engine: ApplyEngine, attempts: nat) returns (r: Outcome, ghost last: World, ghost from: nat)
    requires engine.Valid() && engine.Fit() && Admitted(engine.store.db.ledger, engine.planId)
    modifies engine.machine`tick, engine.machine`world, engine.machine`trace, engine.machine`actor
    modifies engine.desk`anchor, engine.desk`mode, engine.store.db
    ensures engine.Valid() && Admitted(engine.store.db.ledger, engine.planId)
    ensures last.book.begun ==>
      && Orderly(engine.desk.plan, last) && Orderly(engine.desk.plan, engine.machine.world)
      && (forall k :: 0 <= k < |last.book.rows| && last.book.rows[k].state in {Staging, Staged, Failed} ==>
           OnTrack(engine.desk.plan, last, k))
      && HandedOverFrom(last.book, {Pending, PreflightOk, Verified, Cleaned})
    ensures last.book.begun && !AnyIn(last.book, {Stale}) && Smooth(engine.machine.oracle, from) ==>
              r == Done && HopesFulfilled(engine.desk.plan, last, engine.machine.world)
    ensures from <= engine.machine.tick
  {
    hide Desk.Valid, Inv, Run, FirmFrom, EngineFrom, Hopeful, AllFinished, Diagnosis, Ledgers.Eligible, Accepted,
      TrueTurns, NextFromThere, Orderly, HopesFulfilled, SoundWriters, OnTrack, HandedOverFrom;
    r := engine.Apply();
    for i := 0 to attempts
      invariant engine.Valid() && Admitted(engine.store.db.ledger, engine.planId)
      invariant SoundWriters(engine.desk.plan)
      invariant engine.machine.world.book.begun ==> Orderly(engine.desk.plan, engine.machine.world)
    {
      r := engine.Recover();
    }
    last, from := engine.machine.world, engine.machine.tick;
    engine.desk.Promises();
    if last.book.begun { OrderlyMeans(engine.desk.plan, last); }
    if Smooth(engine.machine.oracle, from) { SmoothIsUnfailing(engine.machine.oracle, from); }
    r := engine.Recover();
  }

  /** Every item that was handed over to a person was handed over in one of these states. */
  ghost predicate HandedOverFrom(b: Book, states: set<ItemState>) {
    forall k :: 0 <= k < |b.rows| && b.rows[k].state == RecoveryRequired ==>
      exists s :: s in states && ItemEvent(k, Some(s), RecoveryRequired, false) in b.events
  }

  lemma OrderlyMeans(plan: Plan, w: World)
    requires Inv(plan, w) && w.book.begun && Orderly(plan, w)
    ensures forall k :: 0 <= k < |w.book.rows| && w.book.rows[k].state in {Staging, Staged, Failed} ==>
              OnTrack(plan, w, k)
    ensures HandedOverFrom(w.book, {Pending, PreflightOk, Verified, Cleaned})
  {
    hide OnTrack;
    forall k | 0 <= k < |w.book.rows| && w.book.rows[k].state == RecoveryRequired
      ensures exists s :: s in {Pending, PreflightOk, Verified, Cleaned} &&
                          ItemEvent(k, Some(s), RecoveryRequired, false) in w.book.events
    {
      assert RowInv(plan, w, k);
      var s := WhereHandedOver(w.book.events, k);
      assert Excusable(ItemEvent(k, Some(s), RecoveryRequired, false));
    }
  }

  /** A log that leads to RECOVERY_REQUIRED has the move that led there. */
  lemma {:induction false} WhereHandedOver(events: seq<Journals.Event>, k: nat) returns (s: ItemState)
    requires Walk(events, k) == At(RecoveryRequired)
    ensures s != RecoveryRequired && ItemEvent(k, Some(s), RecoveryRequired, false) in events
  {
    var rest, e := events[..|events| - 1], events[|events| - 1];
    if e.ItemEvent? && e.item == k && !e.note {
      s := e.from.value;
    } else {
      s := WhereHandedOver(rest, k);
    }
  }

  lemma AcceptedResumable(engine: ApplyEngine)
    requires engine.Valid() && (engine.machine.world.book.begun ==> engine.Promising())
    ensures Accepted(engine.machine.world.book) ==> engine.Resumable()
  {
    engine.desk.Promises();
    var b := engine.machine.world.book;
    if Accepted(b) {
      forall k | 0 <= k < |b.rows| ensures b.rows[k].state != Pending {
        assert RowInv(engine.desk.plan, engine.machine.world, k);
        AcceptedNotPending(b.events, k);
      }
    }
  }

  lemma ResumableAccepted(engine: ApplyEngine)
    requires engine.Valid()
    ensures engine.Resumable() ==> Accepted(engine.machine.world.book)
  {
    engine.desk.Promises();
    var b := engine.machine.world.book;
    if engine.Resumable() {
      forall k | 0 <= k < |b.rows| ensures ItemEvent(k, Some(Pending), PreflightOk, false) in b.events {
        assert OnTrack(engine.desk.plan, engine.machine.world, k);
        ThroughIsAccepted(engine.desk.plan, engine.desk.origin, engine.machine.trace, engine.machine.world, k);
      }
    }
  }

  /** A recovery accepts no item. */
  lemma StillNotAccepted(plan: Plan, first: World, tr: seq<Step>, w: World, all: seq<Step>, v: World)
    requires Run(plan, first, tr, w) && Run(plan, first, all, v) && tr <= all && EngineFrom(all, |tr|, false)
    ensures w.book.begun && Accepted(v.book) ==> Accepted(w.book)
  {
    hide Run, ByEngine, Accepts;
    var more := all[|tr|..];
    assert all == tr + more;
    RunSplit(plan, first, tr, w, more, v);
    forall s | s in more ensures !Accepts(s) {
      var i :| 0 <= i < |more| && more[i] == s;
      assert all[|tr| + i] == s;
    }
    if w.book.begun && Accepted(v.book) {
      StillBegun(plan, w, more, v);
      forall k | 0 <= k < |w.book.rows| ensures ItemEvent(k, Some(Pending), PreflightOk, false) in w.book.events {
        NothingAccepted(plan, w, more, v, k);
      }
    }
  }

  lemma {:induction false} StillBegun(plan: Plan, first: World, tr: seq<Step>, last: World)
    requires Run(plan, first, tr, last) && first.book.begun
    ensures last.book.begun && |last.book.rows| == |first.book.rows|
    decreases |tr|
  {
    if tr != [] { StillBegun(plan, first, tr[..|tr| - 1], tr[|tr| - 1].before); }
  }

  lemma SettledNotPending(b: Book)
    requires Verdict(b)
    ensures NonePending(b)
  {
  }

  /** After a successful abandonment no call on the plan changes any file. */
  method ClosedHistory(engine: ApplyEngine, calls: seq<Event>)
    requires engine.Valid() && engine.planId in engine.store.db.ledger.invalidated
    requires forall i :: 0 <= i < |calls| ==> IsCall(calls[i])
    modifies engine.machine`tick, engine.machine`world, engine.machine`trace, engine.machine`actor
    modifies engine.desk`anchor, engine.desk`mode, engine.store.db
    ensures engine.Valid() && engine.machine.world.disk == old(engine.machine.world.disk)
  {
    hide Desk.Valid, Inv, Run, FirmFrom, EngineFrom, AllFirm;
    for i := 0 to |calls|
      invariant engine.Valid() && engine.machine.world.disk == old(engine.machine.world.disk)
      invariant engine.planId in engine.store.db.ledger.invalidated
    {
      var r := Call(engine, calls[i]);
    }
  }
}
