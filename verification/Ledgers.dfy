/** Plans, decisions and run-group choices as append-only tables with derived invalidations. */
module Ledgers {
  import opened Basics

  /** What an item of a plan document says about the decisions it was planned from. */
  datatype Provenance = Provenance(head: Option<nat>, runKey: Option<string>, runDecision: Option<nat>)

  datatype PlanItem = PlanItem(fingerprint: string, blocked: bool, conflicts: bool, provenance: Provenance)

  datatype Document = Document(serial: nat, schema: nat, policy: nat, conflicts: bool, items: seq<PlanItem>)

  const CURRENT_POLICY: nat := 2
  const CURRENT_SCHEMA: nat := 3

  predicate Supported(schema: nat) {
    schema in {1, 2, CURRENT_SCHEMA}
  }

  datatype PlanRow = PlanRow(document: Document, approved: bool)

  datatype Decision = Decision(fingerprint: string, signature: string)

  datatype RunDecision = RunDecision(group: string, provider: string, cleared: bool)

  datatype Precondition =
    Precondition(plan: nat, fingerprint: string, head: nat, runKey: Option<string>, runDecision: Option<nat>)

  const COMIC_VINE := "comic_vine"

  /** Identifiers are positions: each table hands out growing ids and never deletes. */
  datatype Ledger = Ledger(
    plans: seq<PlanRow>,
    preconditions: seq<Precondition>,
    decisions: seq<Decision>,
    runDecisions: seq<RunDecision>,
    invalidated: set<nat>,
    superseded: map<nat, nat>,
    runs: set<nat>)

  const EMPTY_LEDGER := Ledger([], [], [], [], {}, map[], {})

  /** max(id) over the decisions of a fingerprint; None where SQL gives NULL. */
  function NewestDecision(ds: seq<Decision>, fingerprint: string): Option<nat> {
    if ds == [] then None
    else if ds[|ds| - 1].fingerprint == fingerprint then Some(|ds| - 1)
    else NewestDecision(ds[..|ds| - 1], fingerprint)
  }

  function NewestRun(rs: seq<RunDecision>, group: string, provider: string): Option<nat> {
    if rs == [] then None
    else if rs[|rs| - 1].group == group && rs[|rs| - 1].provider == provider then Some(|rs| - 1)
    else NewestRun(rs[..|rs| - 1], group, provider)
  }

  lemma {:induction false} NewestDecisionBound(ds: seq<Decision>, fingerprint: string)
    ensures NewestDecision(ds, fingerprint).Some? ==>
              && NewestDecision(ds, fingerprint).value < |ds|
              && ds[NewestDecision(ds, fingerprint).value].fingerprint == fingerprint
    ensures forall i :: 0 <= i < |ds| && ds[i].fingerprint == fingerprint ==>
              NewestDecision(ds, fingerprint).Some? && i <= NewestDecision(ds, fingerprint).value
  {
    if ds != [] { NewestDecisionBound(ds[..|ds| - 1], fingerprint); }
  }

  lemma {:induction false} NewestRunBound(rs: seq<RunDecision>, group: string, provider: string)
    ensures NewestRun(rs, group, provider).Some? ==>
              NewestRun(rs, group, provider).value < |rs|
              && rs[NewestRun(rs, group, provider).value].group == group
              && rs[NewestRun(rs, group, provider).value].provider == provider
    ensures forall i :: 0 <= i < |rs| && rs[i].group == group && rs[i].provider == provider ==>
              NewestRun(rs, group, provider).Some? && i <= NewestRun(rs, group, provider).value
  {
    if rs != [] { NewestRunBound(rs[..|rs| - 1], group, provider); }
  }

  /** SQL `<>`: unequal to NULL is not true. */
  predicate StaleHead(l: Ledger, p: Precondition) {
    var newest := NewestDecision(l.decisions, p.fingerprint);
    newest.Some? && p.head != newest.value
  }

  /** SQL `IS NOT`: NULL is a value. */
  predicate StaleRun(l: Ledger, p: Precondition) {
    p.runKey.Some? && p.runDecision != NewestRun(l.runDecisions, p.runKey.value, COMIC_VINE)
  }

  predicate StalePlan(l: Ledger, id: nat) {
    exists p :: p in l.preconditions && p.plan == id && (StaleHead(l, p) || StaleRun(l, p))
  }

  /** Nothing in the document itself is open. */
  predicate Settled(d: Document) {
    && d.policy == CURRENT_POLICY && !d.conflicts && d.items != []
    && forall it :: it in d.items ==> !it.blocked && !it.conflicts
  }

  /** Nothing outside the document has overtaken it. */
  predicate Current(l: Ledger, id: nat) {
    id !in l.invalidated && id !in l.superseded && !StalePlan(l, id)
  }

  /** `_eligible_plan` on stored state. */
  predicate Eligible(l: Ledger, id: nat) {
    && id < |l.plans| && l.plans[id].approved
    && Supported(l.plans[id].document.schema)
    && Current(l, id) && Settled(l.plans[id].document)
  }

  // ---------------------------------------------------------------- operations

  function Derived(id: nat, items: seq<PlanItem>): seq<Precondition> {
    if items == [] then []
    else
      var it := items[|items| - 1];
      Derived(id, items[..|items| - 1]) +
        if it.provenance.head.Some?
        then [Precondition(id, it.fingerprint, it.provenance.head.value,
          it.provenance.runKey, it.provenance.runDecision)]
        else []
  }

  predicate Shares(a: Document, b: Document) {
    exists x, y :: x in a.items && y in b.items && x.fingerprint == y.fingerprint
  }

  /** Earlier plans without an apply run that share a source with the new plan. */
  function Displaced(l: Ledger, d: Document): set<nat> {
    set i | 0 <= i < |l.plans| && i !in l.runs && Shares(l.plans[i].document, d)
  }

  /** Unique digest, supported schema, and foreign keys into the decision tables. */
  predicate Importable(l: Ledger, d: Document) {
    && Supported(d.schema)
    && (forall r :: r in l.plans ==> r.document != d)
    && (forall it :: it in d.items && it.provenance.head.Some? ==>
         && it.provenance.head.value < |l.decisions|
         && (it.provenance.runDecision.Some? ==> it.provenance.runDecision.value < |l.runDecisions|))
  }

  function Import(l: Ledger, d: Document): Ledger {
    var id := |l.plans|;
    var displaced := Displaced(l, d);
    l.(plans := l.plans + [PlanRow(d, false)],
       preconditions := l.preconditions + Derived(id, d.items),
       superseded := (map i | i in displaced :: id) + l.superseded)
  }

  predicate Approvable(l: Ledger, id: nat) {
    && id < |l.plans| && !l.plans[id].approved
    && id !in l.invalidated && id !in l.superseded
    && l.plans[id].document.policy == CURRENT_POLICY
    && !l.plans[id].document.conflicts
    && (forall it :: it in l.plans[id].document.items ==> !it.blocked)
  }

  function Approve(l: Ledger, id: nat): Ledger
    requires id < |l.plans|
  {
    l.(plans := l.plans[id := l.plans[id].(approved := true)])
  }

  function AddDecision(l: Ledger, d: Decision): Ledger {
    var id := |l.decisions|;
    l.(decisions := l.decisions + [d],
       invalidated := l.invalidated +
         set p | p in l.preconditions && p.fingerprint == d.fingerprint && p.head != id :: p.plan)
  }

  function AddRunDecision(l: Ledger, r: RunDecision): Ledger {
    var id := |l.runDecisions|;
    l.(runDecisions := l.runDecisions + [r],
       invalidated := l.invalidated +
         set p | p in l.preconditions && p.runKey == Some(r.group) && p.runDecision != Some(id) :: p.plan)
  }

  function Invalidate(l: Ledger, id: nat): Ledger {
    l.(invalidated := l.invalidated + {id})
  }

  function RecordRun(l: Ledger, id: nat): Ledger {
    l.(runs := l.runs + {id})
  }

  datatype Change =
    | Imports(document: Document)
    | Approves(id: nat)
    | Decides(decision: Decision)
    | ChoosesRun(run: RunDecision)
    | Invalidates(id: nat)
    | Applies(id: nat)

  predicate Accepted(l: Ledger, c: Change) {
    match c
    case Imports(d) => Importable(l, d)
    case Approves(id) => Approvable(l, id)
    case Decides(_) => true
    case ChoosesRun(r) => r.cleared ==> NewestRun(l.runDecisions, r.group, r.provider).Some?
    case Invalidates(id) => id < |l.plans|
    case Applies(id) => Eligible(l, id)
  }

  function Changed(l: Ledger, c: Change): Ledger
    requires Accepted(l, c)
  {
    match c
    case Imports(d) => Import(l, d)
    case Approves(id) => Approve(l, id)
    case Decides(d) => AddDecision(l, d)
    case ChoosesRun(r) => AddRunDecision(l, r)
    case Invalidates(id) => Invalidate(l, id)
    case Applies(id) => RecordRun(l, id)
  }

  /** Every change of a history is accepted in the ledger it meets. */
  predicate Playable(first: Ledger, cs: seq<Change>)
    decreases |cs|, 0
  {
    cs == [] || (Playable(first, cs[..|cs| - 1]) && Accepted(Replay(first, cs[..|cs| - 1]), cs[|cs| - 1]))
  }

  function Replay(first: Ledger, cs: seq<Change>): Ledger
    requires Playable(first, cs)
    decreases |cs|, 1
  {
    if cs == [] then first else Changed(Replay(first, cs[..|cs| - 1]), cs[|cs| - 1])
  }

  // ---------------------------------------------------------------- invariants

  /** Every item that was planned from a decision has its precondition. */
  ghost predicate Guarded(l: Ledger, id: nat, items: seq<PlanItem>) {
    forall it :: it in items && it.provenance.head.Some? ==>
      exists p :: p in l.preconditions && p.plan == id && PlannedFrom(it, p)
  }

  /** The precondition was derived from an item of its plan. */
  ghost predicate Founded(l: Ledger, p: Precondition) {
    && p.plan < |l.plans| && p.head < |l.decisions|
    && (p.runDecision.Some? ==> p.runDecision.value < |l.runDecisions|)
    && exists it :: it in l.plans[p.plan].document.items && PlannedFrom(it, p)
  }

  /** Plan b is the first after plan a that shares a source with it. */
  ghost predicate Successor(l: Ledger, a: nat, b: nat) {
    && a < b < |l.plans| && Shares(l.plans[a].document, l.plans[b].document)
    && forall c :: a < c < b ==> !Shares(l.plans[a].document, l.plans[c].document)
  }

  /** Preconditions are those of the items; a plan is superseded by its first rival exactly when it has a
      rival and no run. */
  ghost predicate Coherent(l: Ledger) {
    && (forall p :: p in l.preconditions ==> Founded(l, p))
    && (forall id :: 0 <= id < |l.plans| ==> Guarded(l, id, l.plans[id].document.items))
    && (forall a, b :: 0 <= a < b < |l.plans| && Shares(l.plans[a].document, l.plans[b].document) ==>
         a in l.runs || a in l.superseded)
    && (forall a :: a in l.superseded ==> a !in l.runs && Successor(l, a, l.superseded[a]))
    && (forall id :: id in l.invalidated ==> id < |l.plans|)
  }

  predicate PlannedFrom(it: PlanItem, p: Precondition) {
    && it.provenance.head == Some(p.head) && it.fingerprint == p.fingerprint
    && it.provenance.runKey == p.runKey && it.provenance.runDecision == p.runDecision
  }

  lemma {:induction false} DerivedFrom(id: nat, items: seq<PlanItem>)
    ensures forall p :: p in Derived(id, items) ==> p.plan == id && exists it :: it in items && PlannedFrom(it, p)
  {
    if items != [] {
      var rest, it := items[..|items| - 1], items[|items| - 1];
      DerivedFrom(id, rest);
      forall p | p in Derived(id, items)
        ensures p.plan == id && exists x :: x in items && PlannedFrom(x, p)
      {
        if p in Derived(id, rest) {
          var x :| x in rest && PlannedFrom(x, p);
          assert x in items;
        } else {
          assert it in items && PlannedFrom(it, p);
        }
      }
    }
  }

  lemma {:induction false} DerivedAll(id: nat, items: seq<PlanItem>)
    ensures forall it :: it in items && it.provenance.head.Some? ==>
              exists p :: p in Derived(id, items) && p.plan == id && PlannedFrom(it, p)
  {
    if items != [] {
      var rest, last := items[..|items| - 1], items[|items| - 1];
      DerivedAll(id, rest);
      forall it | it in items && it.provenance.head.Some?
        ensures exists p :: p in Derived(id, items) && p.plan == id && PlannedFrom(it, p)
      {
        if it in rest {
          var p :| p in Derived(id, rest) && p.plan == id && PlannedFrom(it, p);
          assert p in Derived(id, items);
        } else {
          assert it == last by { assert items == rest + [last]; }
          var p := Precondition(id, it.fingerprint, it.provenance.head.value, it.provenance.runKey,
            it.provenance.runDecision);
          assert p in Derived(id, items) && PlannedFrom(it, p);
        }
      }
    }
  }

  lemma GuardedKept(l: Ledger, m: Ledger, id: nat, items: seq<PlanItem>)
    requires Guarded(l, id, items) && forall p :: p in l.preconditions ==> p in m.preconditions
    ensures Guarded(m, id, items)
  {
    forall it | it in items && it.provenance.head.Some?
      ensures exists p :: p in m.preconditions && p.plan == id && PlannedFrom(it, p)
    {
      var p :| p in l.preconditions && p.plan == id && PlannedFrom(it, p);
      assert p in m.preconditions;
    }
  }

  lemma AllGuarded(l: Ledger, c: Change)
    requires Coherent(l) && Accepted(l, c)
    ensures forall id :: 0 <= id < |Changed(l, c).plans| ==>
              Guarded(Changed(l, c), id, Changed(l, c).plans[id].document.items)
  {
    var m := Changed(l, c);
    forall id | 0 <= id < |m.plans| ensures Guarded(m, id, m.plans[id].document.items) {
      if id < |l.plans| {
        assert m.plans[id].document == l.plans[id].document && Guarded(l, id, l.plans[id].document.items);
        GuardedKept(l, m, id, l.plans[id].document.items);
      } else {
        DerivedAll(id, m.plans[id].document.items);
        assert forall p :: p in Derived(id, m.plans[id].document.items) ==> p in m.preconditions;
      }
    }
  }

  lemma RivalsKept(l: Ledger, c: Change)
    requires Coherent(l) && Accepted(l, c)
    ensures var m := Changed(l, c);
            forall a, b :: 0 <= a < b < |m.plans| && Shares(m.plans[a].document, m.plans[b].document) ==>
              a in m.runs || a in m.superseded
  {
    var m := Changed(l, c);
    forall a, b | 0 <= a < b < |m.plans| && Shares(m.plans[a].document, m.plans[b].document)
      ensures a in m.runs || a in m.superseded
    {
      assert m.plans[a].document == l.plans[a].document;
      if b < |l.plans| {
        assert m.plans[b].document == l.plans[b].document && Shares(l.plans[a].document, l.plans[b].document);
      } else if a !in l.runs {
        assert a in Displaced(l, m.plans[b].document);
      }
    }
  }

  lemma AllFounded(l: Ledger, c: Change)
    requires Coherent(l) && Accepted(l, c)
    ensures forall p :: p in Changed(l, c).preconditions ==> Founded(Changed(l, c), p)
  {
    var m := Changed(l, c);
    if c.Imports? { DerivedFrom(|l.plans|, c.document.items); }
    forall p | p in m.preconditions ensures Founded(m, p) {
      if p in l.preconditions {
        assert Founded(l, p) && m.plans[p.plan].document == l.plans[p.plan].document;
      }
    }
  }

  lemma SuccessorStays(l: Ledger, c: Change, a: nat, b: nat)
    requires Accepted(l, c) && Successor(l, a, b)
    ensures Successor(Changed(l, c), a, b)
  {
    hide Shares, Importable, Eligible, Derived;
    assert forall i :: 0 <= i < |l.plans| ==> Changed(l, c).plans[i].document == l.plans[i].document;
  }

  lemma FirstRival(l: Ledger, d: Document, a: nat)
    requires Coherent(l) && Importable(l, d) && a in Displaced(l, d) && a !in l.superseded
    ensures Successor(Import(l, d), a, |l.plans|)
  {
    hide Shares, Guarded, Founded, Importable, Derived;
  }

  lemma SupersessionKept(l: Ledger, c: Change)
    requires Coherent(l) && Accepted(l, c)
    ensures var m := Changed(l, c); forall a :: a in m.superseded ==> a !in m.runs && Successor(m, a, m.superseded[a])
  {
    hide Shares, Guarded, Founded, Importable, Approvable, Derived, StalePlan, Settled, Supported, Successor;
    var m := Changed(l, c);
    forall a | a in m.superseded ensures a !in m.runs && Successor(m, a, m.superseded[a]) {
      if a in l.superseded {
        SuccessorStays(l, c, a, l.superseded[a]);
      } else {
        FirstRival(l, c.document, a);
      }
    }
  }

  lemma CoherentKept(l: Ledger, c: Change)
    requires Coherent(l) && Accepted(l, c)
    ensures Coherent(Changed(l, c))
  {
    hide Guarded, Shares, Displaced, PlannedFrom, Founded, Successor, Changed, Accepted;
    AllGuarded(l, c);
    RivalsKept(l, c);
    AllFounded(l, c);
    SupersessionKept(l, c);
    VictimsExist(l, c);
  }

  lemma VictimsExist(l: Ledger, c: Change)
    requires Coherent(l) && Accepted(l, c)
    ensures forall id :: id in Changed(l, c).invalidated ==> id < |Changed(l, c).plans|
  {
    hide Guarded, Shares, Successor;
    forall p | p in l.preconditions ensures p.plan < |l.plans| { assert Founded(l, p); }
  }

  /** An eligible plan rests on the present decisions: each item planned from a decision was planned from
      the newest one of its source, and from the newest choice of its run group. */
  lemma EligibleIsCurrent(first: Ledger, cs: seq<Change>, id: nat, it: PlanItem)
    requires Coherent(first) && Playable(first, cs) && Eligible(Replay(first, cs), id)
    requires it in Replay(first, cs).plans[id].document.items && it.provenance.head.Some?
    ensures var l := Replay(first, cs);
            && NewestDecision(l.decisions, it.fingerprint) in {None, it.provenance.head}
            && (it.provenance.runKey.Some? ==>
                 NewestRun(l.runDecisions, it.provenance.runKey.value, COMIC_VINE) == it.provenance.runDecision)
  {
    HistoryCoherent(first, cs);
    var l := Replay(first, cs);
    assert Guarded(l, id, l.plans[id].document.items);
    var p :| p in l.preconditions && p.plan == id && PlannedFrom(it, p);
    assert !StaleHead(l, p) && !StaleRun(l, p);
  }

  /** The change overtakes the plan: a rival imported before the plan was applied, a decision on a source or
      a choice for a run group that an item was planned from, or the plan's own invalidation. */
  predicate Overtakes(l: Ledger, c: Change, id: nat)
    requires id < |l.plans|
  {
    match c
    case Imports(d) => id !in l.runs && Shares(l.plans[id].document, d)
    case Approves(_) => false
    case Decides(d) =>
      exists it :: it in l.plans[id].document.items && it.provenance.head.Some? && it.fingerprint == d.fingerprint
    case ChoosesRun(r) =>
      exists it :: it in l.plans[id].document.items && it.provenance.head.Some? &&
        it.provenance.runKey == Some(r.group)
    case Invalidates(victim) => victim == id
    case Applies(_) => false
  }

  /** A plan nothing has overtaken is overtaken by the next change exactly if that change concerns it. */
  lemma CurrentExactly(l: Ledger, c: Change, id: nat)
    requires Coherent(l) && Accepted(l, c) && id < |l.plans| && Current(l, id)
    ensures Current(Changed(l, c), id) <==> !Overtakes(l, c, id)
  {
    hide Shares, Successor;
    var m := Changed(l, c);
    forall p | p in m.preconditions && p.plan == id ensures p in l.preconditions && Founded(l, p) {
      if c.Imports? { DerivedFrom(|l.plans|, c.document.items); }
    }
    match c {
      case Imports(d) => ImportStandsStill(l, d, id);
      case Decides(d) => DecisionReaches(l, d, id);
      case ChoosesRun(r) => RunReaches(l, r, id);
      case _ => assert StalePlan(m, id) == StalePlan(l, id);
    }
  }

  lemma ImportStandsStill(l: Ledger, d: Document, id: nat)
    requires Coherent(l) && Importable(l, d) && id < |l.plans| && Current(l, id)
    ensures !StalePlan(Import(l, d), id)
    ensures id in Import(l, d).superseded <==> id !in l.runs && Shares(l.plans[id].document, d)
  {
    hide Shares, Successor, Founded, Guarded;
    DerivedFrom(|l.plans|, d.items);
    forall p | p in Import(l, d).preconditions && p.plan == id ensures p in l.preconditions {}
  }

  lemma DecisionReaches(l: Ledger, d: Decision, id: nat)
    requires Coherent(l) && id < |l.plans| && Current(l, id)
    ensures Current(AddDecision(l, d), id) <==> !Overtakes(l, Decides(d), id)
  {
    hide Shares, Successor;
    var m, items := AddDecision(l, d), l.plans[id].document.items;
    assert Guarded(l, id, items);
    if it :| it in items && it.provenance.head.Some? && it.fingerprint == d.fingerprint {
      var p :| p in l.preconditions && p.plan == id && PlannedFrom(it, p);
      assert Founded(l, p) && id in m.invalidated;
    } else {
      forall p | p in l.preconditions && p.plan == id ensures p.fingerprint != d.fingerprint && !StaleHead(m, p) {
        assert Founded(l, p);
        if StaleHead(m, p) { StaleOnlyByDecision(l, d, p); }
      }
    }
  }

  lemma RunReaches(l: Ledger, r: RunDecision, id: nat)
    requires Coherent(l) && id < |l.plans| && Current(l, id)
    ensures Current(AddRunDecision(l, r), id) <==> !Overtakes(l, ChoosesRun(r), id)
  {
    hide Shares, Successor;
    var m, items := AddRunDecision(l, r), l.plans[id].document.items;
    assert Guarded(l, id, items);
    if it :| it in items && it.provenance.head.Some? && it.provenance.runKey == Some(r.group) {
      var p :| p in l.preconditions && p.plan == id && PlannedFrom(it, p);
      assert Founded(l, p) && id in m.invalidated;
    } else {
      forall p | p in l.preconditions && p.plan == id ensures p.runKey != Some(r.group) && !StaleRun(m, p) {
        assert Founded(l, p);
        if StaleRun(m, p) { StaleOnlyByRun(l, r, p); }
      }
    }
  }

  /** Something in the history overtook the plan. */
  ghost predicate EverOvertaken(first: Ledger, cs: seq<Change>, id: nat)
    requires Playable(first, cs) && id < |first.plans|
    decreases |cs|
  {
    && cs != []
    && (EverOvertaken(first, cs[..|cs| - 1], id) ||
        (PlansGrow(first, cs[..|cs| - 1]); Overtakes(Replay(first, cs[..|cs| - 1]), cs[|cs| - 1], id)))
  }

  /** Plans are never deleted and their documents never change. */
  lemma {:induction false} PlansGrow(first: Ledger, cs: seq<Change>)
    requires Playable(first, cs)
    ensures |first.plans| <= |Replay(first, cs).plans|
    ensures forall i :: 0 <= i < |first.plans| ==> Replay(first, cs).plans[i].document == first.plans[i].document
    decreases |cs|
  {
    hide Importable, Eligible, Displaced, Derived;
    if cs != [] { PlansGrow(first, cs[..|cs| - 1]); }
  }

  lemma {:induction false} CurrentOver(first: Ledger, cs: seq<Change>, id: nat)
    requires Coherent(first) && Playable(first, cs) && id < |first.plans|
    ensures Current(Replay(first, cs), id) <==> Current(first, id) && !EverOvertaken(first, cs, id)
    decreases |cs|
  {
    if cs != [] {
      var before, c := cs[..|cs| - 1], cs[|cs| - 1];
      CurrentOver(first, before, id);
      HistoryCoherent(first, before);
      PlansGrow(first, before);
      if Current(Replay(first, before), id) {
        CurrentExactly(Replay(first, before), c, id);
      } else {
        OvertakenStays(Replay(first, before), c, id);
      }
    }
  }

  /** The whole life of a plan, from its import on: the gate accepts it exactly if it was approved, is settled
      in itself, was planned from the newest decisions, and nothing has overtaken it since. */
  lemma {:induction false} EligibleExactly(l: Ledger, d: Document, cs: seq<Change>)
    requires Coherent(l) && Importable(l, d) && Playable(Import(l, d), cs)
    ensures var m := Replay(Import(l, d), cs);
            && |l.plans| < |m.plans| && m.plans[|l.plans|].document == d
            && (Eligible(m, |l.plans|) <==>
                 && m.plans[|l.plans|].approved
                 && d.policy == CURRENT_POLICY && !d.conflicts && d.items != []
                 && (forall it :: it in d.items ==> !it.blocked && !it.conflicts)
                 && FromNewest(l, d)
                 && !EverOvertaken(Import(l, d), cs, |l.plans|))
  {
    hide Overtakes, Current, FromNewest, Coherent;
    CoherentKept(l, Imports(d));
    PlansGrow(Import(l, d), cs);
    CurrentOver(Import(l, d), cs, |l.plans|);
    CurrentAtBirth(l, d);
  }

  lemma CurrentAtBirth(l: Ledger, d: Document)
    requires Coherent(l) && Importable(l, d)
    ensures Current(Import(l, d), |l.plans|) <==> FromNewest(l, d)
  {
    hide Shares, Guarded;
    var m, id := Import(l, d), |l.plans|;
    DerivedFrom(id, d.items);
    forall a | a in l.superseded ensures a != id { assert Successor(l, a, l.superseded[a]); }
    forall p | p in l.preconditions ensures p.plan != id { assert Founded(l, p); }
    assert forall p :: p in Derived(id, d.items) ==> p in m.preconditions && p.plan == id;
    assert forall p :: StaleHead(m, p) == StaleHead(l, p) && StaleRun(m, p) == StaleRun(l, p);
  }

  lemma OvertakenStays(l: Ledger, c: Change, id: nat)
    requires Coherent(l) && Accepted(l, c) && id < |l.plans| && !Current(l, id)
    ensures !Current(Changed(l, c), id)
  {
    hide Coherent, StaleHead, StaleRun, Importable, Eligible, Approvable, Displaced;
    if StalePlan(l, id) {
      var p :| p in l.preconditions && p.plan == id && (StaleHead(l, p) || StaleRun(l, p));
      StaleStays(l, c, p);
      assert p in Changed(l, c).preconditions;
    }
  }

  lemma StaleStays(l: Ledger, c: Change, p: Precondition)
    requires Coherent(l) && Accepted(l, c) && p in l.preconditions && (StaleHead(l, p) || StaleRun(l, p))
    ensures StaleHead(Changed(l, c), p) || StaleRun(Changed(l, c), p)
  {
    hide Guarded, Shares, Successor, Importable, Eligible, Approvable, Displaced;
    var m := Changed(l, c);
    assert Founded(l, p);
    match c {
      case Decides(d) => assert m.decisions[..|l.decisions|] == l.decisions;
      case ChoosesRun(r) => assert m.runDecisions[..|l.runDecisions|] == l.runDecisions;
      case _ =>
    }
  }

  /** One step of the one-way law: an approved plan that was refused is refused after any change. */
  lemma RefusedStays(l: Ledger, c: Change, id: nat)
    requires Coherent(l) && Accepted(l, c)
    requires id < |l.plans| && l.plans[id].approved && !Eligible(l, id)
    ensures id < |Changed(l, c).plans| && Changed(l, c).plans[id].approved && !Eligible(Changed(l, c), id)
  {
    hide Current, Coherent;
    if !Current(l, id) { OvertakenStays(l, c, id); }
  }

  lemma {:induction false} HistoryCoherent(first: Ledger, cs: seq<Change>)
    requires Coherent(first) && Playable(first, cs)
    ensures Coherent(Replay(first, cs))
    decreases |cs|
  {
    if cs != [] {
      var mid := Replay(first, cs[..|cs| - 1]);
      HistoryCoherent(first, cs[..|cs| - 1]);
      CoherentKept(mid, cs[|cs| - 1]);
    }
  }

  /** Eligibility is one-way: over every history of imports, approvals, decisions, run-group choices,
      invalidations and applies, an approved plan once refused is refused forever. */
  lemma {:induction false} RefusedForever(first: Ledger, cs: seq<Change>, id: nat)
    requires Coherent(first) && Playable(first, cs)
    requires id < |first.plans| && first.plans[id].approved && !Eligible(first, id)
    ensures id < |Replay(first, cs).plans| && Replay(first, cs).plans[id].approved && !Eligible(Replay(first, cs), id)
    decreases |cs|
  {
    if cs != [] {
      var mid := Replay(first, cs[..|cs| - 1]);
      RefusedForever(first, cs[..|cs| - 1], id);
      HistoryCoherent(first, cs[..|cs| - 1]);
      RefusedStays(mid, cs[|cs| - 1], id);
    }
  }

  /** Two plans that share a source and were never applied are not both current. */
  lemma {:induction false} NoTwoRivals(first: Ledger, cs: seq<Change>, a: nat, b: nat)
    requires Coherent(first) && Playable(first, cs)
    requires a < |Replay(first, cs).plans| && b < |Replay(first, cs).plans| && a != b
    requires Shares(Replay(first, cs).plans[a].document, Replay(first, cs).plans[b].document)
    requires a !in Replay(first, cs).runs && b !in Replay(first, cs).runs
    ensures a in Replay(first, cs).superseded || b in Replay(first, cs).superseded
  {
    HistoryCoherent(first, cs);
    var x, y :| x in Replay(first, cs).plans[a].document.items &&
      y in Replay(first, cs).plans[b].document.items && x.fingerprint == y.fingerprint;
    assert Shares(Replay(first, cs).plans[b].document, Replay(first, cs).plans[a].document);
  }

  // ---------------------------------------------------------------- recomputation

  /** Planned from the newest decisions there were. */
  predicate FromNewest(l: Ledger, d: Document) {
    forall p :: p in Derived(|l.plans|, d.items) ==> !StaleHead(l, p) && !StaleRun(l, p)
  }

  /** For the plans in `upToDate`, staleness recomputed from the tables has a row in plan_invalidations. */
  ghost predicate Recorded(l: Ledger, upToDate: set<nat>) {
    && (forall id :: id in upToDate ==> id < |l.plans|)
    && forall id :: id in upToDate && StalePlan(l, id) ==> id in l.invalidated
  }

  lemma StaleOnlyByDecision(l: Ledger, d: Decision, p: Precondition)
    requires Coherent(l) && p in l.preconditions && StaleHead(AddDecision(l, d), p)
    ensures StaleHead(l, p) || (p.fingerprint == d.fingerprint && p.head != |l.decisions|)
  {
    assert AddDecision(l, d).decisions[..|l.decisions|] == l.decisions;
  }

  lemma StaleOnlyByRun(l: Ledger, r: RunDecision, p: Precondition)
    requires Coherent(l) && p in l.preconditions && StaleRun(AddRunDecision(l, r), p)
    ensures StaleRun(l, p) || (p.runKey == Some(r.group) && p.runDecision != Some(|l.runDecisions|))
  {
    assert AddRunDecision(l, r).runDecisions[..|l.runDecisions|] == l.runDecisions;
  }

  lemma RecordedKept(l: Ledger, c: Change, upToDate: set<nat>)
    requires Coherent(l) && Accepted(l, c) && Recorded(l, upToDate)
    ensures Recorded(Changed(l, c), upToDate)
    ensures c.Imports? && FromNewest(l, c.document) ==> Recorded(Changed(l, c), upToDate + {|l.plans|})
  {
    var m := Changed(l, c);
    forall id | (id in upToDate || (c.Imports? && FromNewest(l, c.document) && id == |l.plans|)) && StalePlan(m, id)
      ensures id in m.invalidated
    {
      var p :| p in m.preconditions && p.plan == id && (StaleHead(m, p) || StaleRun(m, p));
      match c {
        case Imports(d) =>
          DerivedFrom(|l.plans|, d.items);
          if p in l.preconditions { assert StalePlan(l, id); }
        case Decides(d) =>
          if StaleHead(m, p) { StaleOnlyByDecision(l, d, p); }
          if StaleHead(l, p) || StaleRun(l, p) { assert StalePlan(l, id); }
        case ChoosesRun(r) =>
          if StaleRun(m, p) { StaleOnlyByRun(l, r, p); }
          if StaleHead(l, p) || StaleRun(l, p) { assert StalePlan(l, id); }
        case _ => assert StalePlan(l, id);
      }
    }
  }

  /** From the import of a plan that was based on the newest decisions onwards, whatever happens,
      recomputing staleness never finds a plan stale that has no invalidation row. */
  lemma {:induction false} StalenessIsRecorded(l: Ledger, d: Document, cs: seq<Change>)
    requires Coherent(l) && Importable(l, d) && FromNewest(l, d) && Playable(Import(l, d), cs)
    ensures StalePlan(Replay(Import(l, d), cs), |l.plans|) ==> |l.plans| in Replay(Import(l, d), cs).invalidated
  {
    CoherentKept(l, Imports(d));
    RecordedKept(l, Imports(d), {});
    assert {} + {|l.plans|} == {|l.plans|};
    RecordedOver(Import(l, d), cs, {|l.plans|});
  }

  lemma {:induction false} RecordedOver(first: Ledger, cs: seq<Change>, upToDate: set<nat>)
    requires Coherent(first) && Recorded(first, upToDate) && Playable(first, cs)
    ensures Recorded(Replay(first, cs), upToDate)
    decreases |cs|
  {
    if cs != [] {
      var mid := Replay(first, cs[..|cs| - 1]);
      RecordedOver(first, cs[..|cs| - 1], upToDate);
      HistoryCoherent(first, cs[..|cs| - 1]);
      RecordedKept(mid, cs[|cs| - 1], upToDate);
    }
  }
}
