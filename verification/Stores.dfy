/** The repositories over the plan, decision and run-group tables. */
module Stores {
  import opened Basics
  import opened Ledgers

  /** One SQLite connection: every method below is one committed transaction or a rollback. */
  class Database {
    var ledger: Ledger

    constructor ()
      ensures ledger == EMPTY_LEDGER
    {
      ledger := EMPTY_LEDGER;
    }
  }

  class PlanStore {
    const db: Database

    constructor (db: Database)
      ensures this.db == db
    {
      this.db := db;
    }

    /** Insert a draft, derive its preconditions item by item, then supersede its unapplied rivals. */
    method ImportBytes(d: Document) returns (id: Option<nat>)
      modifies db
      ensures Importable(old(db.ledger), d) ==>
                id == Some(|old(db.ledger).plans|) && db.ledger == Import(old(db.ledger), d)
      ensures !Importable(old(db.ledger), d) ==> id == None && db.ledger == old(db.ledger)
      ensures var l := old(db.ledger);
              id.Some? <==>
                && d.schema in {1, 2, CURRENT_SCHEMA} && (forall r :: r in l.plans ==> r.document != d)
                && forall it :: it in d.items && it.provenance.head.Some? ==>
                     && it.provenance.head.value < |l.decisions|
                     && (it.provenance.runDecision.Some? ==> it.provenance.runDecision.value < |l.runDecisions|)
      ensures var l := old(db.ledger); id.Some? ==> forall i :: i in db.ledger.superseded && i !in l.superseded ==>
                && i < |l.plans| && i !in l.runs && Shares(l.plans[i].document, d)
                && db.ledger.superseded[i] == id.value
    {
      if !Importable(db.ledger, d) {
        return None;
      }
      var key := |db.ledger.plans|;
      var displaced := Displaced(db.ledger, d);
      var derived: seq<Precondition> := [];
      for i := 0 to |d.items|
        invariant derived == Derived(key, d.items[..i])
      {
        var it := d.items[i];
        assert d.items[..i + 1][..i] == d.items[..i];
        if it.provenance.head.Some? {
          derived := derived + [Precondition(key, it.fingerprint, it.provenance.head.value,
            it.provenance.runKey, it.provenance.runDecision)];
        }
      }
      assert d.items[..|d.items|] == d.items;
      db.ledger := db.ledger.(
        plans := db.ledger.plans + [PlanRow(d, false)],
        preconditions := db.ledger.preconditions + derived,
        superseded := (map i | i in displaced :: key) + db.ledger.superseded);
      return Some(key);
    }

    /** Approve a draft for its exact bytes; a plan under an older policy is invalidated instead. */
    method Approve(id: nat, digest: Document) returns (approved: bool)
      modifies db
      ensures approved <==> Approvable(old(db.ledger), id) && old(db.ledger).plans[id].document == digest
      ensures var l := old(db.ledger);
              approved <==>
                && id < |l.plans| && !l.plans[id].approved && l.plans[id].document == digest
                && id !in l.invalidated && id !in l.superseded
                && digest.policy == CURRENT_POLICY && !digest.conflicts
                && forall it :: it in digest.items ==> !it.blocked
      ensures approved ==> db.ledger == Ledgers.Approve(old(db.ledger), id)
      ensures !approved ==> db.ledger == old(db.ledger) || db.ledger == Invalidate(old(db.ledger), id)
      ensures db.ledger != old(db.ledger) && !approved ==>
                id < |old(db.ledger).plans| && old(db.ledger).plans[id].document.policy != CURRENT_POLICY
    {
      var l := db.ledger;
      if id >= |l.plans| || l.plans[id].document != digest { return false; }
      if id in l.invalidated || id in l.superseded { return false; }
      var d := l.plans[id].document;
      if d.policy != CURRENT_POLICY {
        db.ledger := Invalidate(l, id);
        return false;
      }
      if d.conflicts || (exists it :: it in d.items && it.blocked) { return false; }
      if l.plans[id].approved { return false; }
      db.ledger := Ledgers.Approve(l, id);
      return true;
    }

    /** The gate every apply and recovery passes first. */
    method EligiblePlan(id: nat) returns (ok: bool)
      modifies db
      ensures ok <==> Eligible(old(db.ledger), id)
      ensures ok ==> db.ledger == old(db.ledger)
      ensures !ok && db.ledger != old(db.ledger) ==>
                id < |old(db.ledger).plans| && db.ledger == Invalidate(old(db.ledger), id)
    {
      var l := db.ledger;
      if id >= |l.plans| || !l.plans[id].approved { return false; }
      var d := l.plans[id].document;
      if !Supported(d.schema) || id in l.invalidated || id in l.superseded { return false; }
      if StalePlan(l, id) { return false; }
      if d.policy != CURRENT_POLICY {
        db.ledger := Invalidate(l, id);
        return false;
      }
      if d.conflicts || (exists it :: it in d.items && (it.blocked || it.conflicts)) || d.items == [] { return false; }
      return true;
    }
  }

  datatype Override = Override(isOverride: bool, sets: map<string, string>, cleared: seq<string>)

  /** The value a history of decisions leaves for a field: the last override that mentions it decides,
      and within one override clearing comes after setting. */
  function FieldValue(history: seq<Override>, field: string): Option<string> {
    if history == [] then None
    else
      var o := history[|history| - 1];
      if o.isOverride && field in o.cleared then None
      else if o.isOverride && field in o.sets then Some(o.sets[field])
      else FieldValue(history[..|history| - 1], field)
  }

  predicate Mentions(o: Override, field: string) {
    o.isOverride && (field in o.sets || field in o.cleared)
  }

  /** The last override that mentions a field decides: it clears the field if it says so, also if it sets it. */
  lemma {:induction false} LastMention(history: seq<Override>, field: string, i: nat)
    requires i < |history| && Mentions(history[i], field)
    requires forall j :: i < j < |history| ==> !Mentions(history[j], field)
    ensures FieldValue(history, field) ==
              if field in history[i].cleared then None else Some(history[i].sets[field])
  {
    var n := |history| - 1;
    if i < n {
      assert !Mentions(history[n], field);
      LastMention(history[..n], field, i);
    }
  }

  lemma {:induction false} NeverMentioned(history: seq<Override>, field: string)
    requires forall j :: 0 <= j < |history| ==> !Mentions(history[j], field)
    ensures FieldValue(history, field) == None
  {
    if history != [] {
      assert !Mentions(history[|history| - 1], field);
      NeverMentioned(history[..|history| - 1], field);
    }
  }

  class DecisionRepository {
    const db: Database

    constructor (db: Database)
      ensures this.db == db
    {
      this.db := db;
    }

    method Add(d: Decision) returns (id: nat)
      modifies db
      ensures db.ledger == AddDecision(old(db.ledger), d)
      ensures NewestDecision(db.ledger.decisions, d.fingerprint) == Some(id)
    {
      var l := db.ledger;
      id := |l.decisions|;
      db.ledger := l.(decisions := l.decisions + [d]);
      var hit := set p | p in l.preconditions && p.fingerprint == d.fingerprint && p.head != id :: p.plan;
      db.ledger := db.ledger.(invalidated := l.invalidated + hit);
    }

    /** Fold the manual overrides of one source into the current field values. */
    method ManualOverrides(history: seq<Override>) returns (output: map<string, string>)
      ensures forall f :: (f in output <==> FieldValue(history, f).Some?)
      ensures forall f :: f in output ==> FieldValue(history, f) == Some(output[f])
    {
      output := map[];
      for i := 0 to |history|
        invariant forall f :: (f in output <==> FieldValue(history[..i], f).Some?)
        invariant forall f :: f in output ==> FieldValue(history[..i], f) == Some(output[f])
      {
        var o := history[i];
        assert history[..i + 1][..i] == history[..i];
        if o.isOverride {
          ghost var before := output;
          output := output + o.sets;
          for j := 0 to |o.cleared|
            invariant output == (before + o.sets) - (set c | c in o.cleared[..j])
          {
            assert o.cleared[..j + 1] == o.cleared[..j] + [o.cleared[j]];
            output := output - {o.cleared[j]};
          }
          assert o.cleared[..|o.cleared|] == o.cleared;
        }
      }
      assert history[..|history|] == history;
    }
  }

  class RunGroupRepository {
    const db: Database

    constructor (db: Database)
      ensures this.db == db
    {
      this.db := db;
    }

    method Choose(group: string, provider: string) returns (id: nat)
      modifies db
      ensures db.ledger == AddRunDecision(old(db.ledger), RunDecision(group, provider, false))
      ensures NewestRun(db.ledger.runDecisions, group, provider) == Some(id)
    {
      id := AddRow(RunDecision(group, provider, false));
    }

    /** A group without a decision has nothing to clear. */
    method Clear(group: string, provider: string) returns (id: Option<nat>)
      modifies db
      ensures id.Some? <==> NewestRun(old(db.ledger).runDecisions, group, provider).Some?
      ensures id.Some? ==> db.ledger == AddRunDecision(old(db.ledger), RunDecision(group, provider, true))
      ensures id.None? ==> db.ledger == old(db.ledger)
    {
      if NewestRun(db.ledger.runDecisions, group, provider).None? { return None; }
      var n := AddRow(RunDecision(group, provider, true));
      return Some(n);
    }

    method AddRow(r: RunDecision) returns (id: nat)
      modifies db
      ensures db.ledger == AddRunDecision(old(db.ledger), r)
      ensures NewestRun(db.ledger.runDecisions, r.group, r.provider) == Some(id)
    {
      var l := db.ledger;
      id := |l.runDecisions|;
      db.ledger := l.(runDecisions := l.runDecisions + [r]);
      var hit := set p | p in l.preconditions && p.runKey == Some(r.group) && p.runDecision != Some(id) :: p.plan;
      db.ledger := db.ledger.(invalidated := l.invalidated + hit);
    }
  }
}
