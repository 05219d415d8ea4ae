/** The protocol's invariant holds after every permitted effect, every interference and every outage. */
module Invariant {
  import opened Basics
  import opened Disks
  import opened Journals
  import opened Protocol

  /** The only new thing a disk operation can make a name mean. */
  ghost predicate Gains(d: Disk, op: Op, p: Path, i: nat) {
    match op
    case Create(q) => p == q && i == |d.files|
    case Link(from, q) => p == q && Lookup(d, from) == Some(i)
    case _ => false
  }

  lemma MightAfter(d: Disk, op: Op, p: Path, i: nat)
    requires Possible(d, op) && Might(Perform(d, op), p, i)
    ensures Might(d, p, i) || Gains(d, op, p, i)
  {
  }

  lemma DiskWellFormed(d: Disk, op: Op)
    requires WellFormed(d) && Possible(d, op)
    ensures WellFormed(Perform(d, op))
  {
    var e := Perform(d, op);
    forall p, i: nat | p in e.lingering && Some(i) in e.lingering[p] ensures i < |e.files| {
      assert Might(e, p, i);
      MightAfter(d, op, p, i);
    }
    forall p | p in e.names ensures e.names[p] < |e.files| {
      assert Might(e, p, e.names[p]);
      MightAfter(d, op, p, e.names[p]);
    }
  }

  lemma MightBound(d: Disk, p: Path, i: nat)
    requires WellFormed(d) && Might(d, p, i)
    ensures i < |d.files|
  {
  }

  lemma OnlyDisk(plan: Plan, w: World)
    requires Inv(plan, w)
    ensures WellFormed(w.disk)
  {
  }

  lemma RowHolds(plan: Plan, w: World, k: nat)
    requires Inv(plan, w) && k < |w.book.rows| && k < |plan.items|
    ensures RowInv(plan, w, k)
  {
  }

  lemma PrivateKept(plan: Plan, w: World, k: nat, op: Op)
    requires Shaped(plan) && Inv(plan, w) && DiskRule(plan, w, k, op)
    ensures PrivateInv(After(w, k, OnDisk(op)))
  {
    var v := After(w, k, OnDisk(op));
    forall p: Path, i: nat | p.name.Random? && Might(v.disk, p, i)
      ensures i < |v.disk.files| && v.disk.files[i].ours && p.name.serial < v.supply
    {
      MightAfter(w.disk, op, p, i);
    }
  }

  lemma ExclusiveKept(plan: Plan, w: World, k: nat, op: Op, j: nat)
    requires Shaped(plan) && Inv(plan, w) && DiskRule(plan, w, k, op)
    requires j < |w.book.rows| && w.book.rows[j].staging.Some?
    ensures Exclusive(After(w, k, OnDisk(op)).disk, w.book.rows[j].staging.value,
                      plan.items[j].destination, Launched(w.book.rows[j].state))
  {
    var d, e, s := w.disk, Perform(w.disk, op), w.book.rows[j].staging.value;
    assert RowInv(plan, w, j) && RowInv(plan, w, k);
    forall q: Path, i: nat | q != s && Might(e, s, i) && Might(e, q, i)
      ensures Launched(w.book.rows[j].state) && q == plan.items[j].destination
    {
      MightAfter(d, op, s, i);
      MightAfter(d, op, q, i);
      if Might(d, s, i) && Might(d, q, i) {
      } else if Might(d, s, i) {
        MightBound(d, s, i);
        // q was just linked to the inode of `op.from`
        assert op.Link? && op.path == q && Might(d, op.from, i);
        assert op.from.name.Random?;
        assert op.from == s;
      } else if Might(d, q, i) {
        MightBound(d, q, i);
        assert false;
      }
    }
  }

  lemma SealKept(plan: Plan, w: World, k: nat, op: Op, j: nat)
    requires Shaped(plan) && Inv(plan, w) && DiskRule(plan, w, k, op)
    requires j < |w.book.rows| && Sealed(w.book.rows[j].state)
    ensures SealedRow(plan, After(w, k, OnDisk(op)), j)
  {
    var d, e, v := w.disk, Perform(w.disk, op), After(w, k, OnDisk(op));
    assert RowInv(plan, w, j) && RowInv(plan, w, k);
    var s := w.book.rows[j].staging.value;
    forall i: nat | Might(e, s, i)
      ensures i < |e.files| && e.files[i].content == w.book.rows[j].stagedHash.value.of
      ensures e.files[i].mode == plan.items[j].mode && e.files[i].synced && e.files[i].ours
    {
      MightAfter(d, op, s, i);
      assert Might(d, s, i);
      if op.Write? || op.Chmod? {
        if d.names[op.path] == i {
          assert Might(d, op.path, i);
          assert false;
        }
      }
    }
  }

  lemma DiskInv(plan: Plan, w: World, k: nat, op: Op)
    requires Shaped(plan) && Inv(plan, w) && DiskRule(plan, w, k, op)
    ensures Inv(plan, After(w, k, OnDisk(op)))
  {
    var v := After(w, k, OnDisk(op));
    DiskWellFormed(w.disk, op);
    PrivateKept(plan, w, k, op);
    forall j: nat | j < |v.book.rows| ensures RowInv(plan, v, j) {
      assert RowInv(plan, w, j);
      if w.book.rows[j].staging.Some? { ExclusiveKept(plan, w, k, op, j); }
      if Sealed(w.book.rows[j].state) { SealKept(plan, w, k, op, j); }
    }
  }

  lemma PreflightSeparates(plan: Plan, d: Disk)
    requires Preflighted(plan, d)
    ensures Separated(plan)
  {
    forall j, k | 0 <= j < |plan.items| && 0 <= k < |plan.items|
      ensures plan.items[j].source != plan.items[k].destination
      ensures plan.items[k].lifecycle.ArchiveAfterVerify? ==> plan.items[j].source != plan.items[k].lifecycle.archive
    {
      assert PreflightOkFor(d, plan.items[j]) && PreflightOkFor(d, plan.items[k]);
    }
  }

  lemma MovedOther(plan: Plan, w: World, k: nat, to: ItemState, fields: Fields, j: nat)
    requires Inv(plan, w) && BookRule(plan, w, k, Move(to, fields))
    requires j < |w.book.rows| && j != k
    ensures RowInv(plan, After(w, k, OnBook(Move(to, fields))), j)
  {
    var v := After(w, k, OnBook(Move(to, fields)));
    assert RowInv(plan, w, j);
    assert v.book.rows[j] == w.book.rows[j];
    WalkAppend(w.book.events, ItemEvent(k, Some(w.book.rows[k].state), to, false), j);
  }

  lemma FreshUnused(plan: Plan, w: World, p: Path)
    requires Inv(plan, w) && p.name.Random? && w.supply <= p.name.serial
    ensures p !in w.disk.names && forall i: nat :: !Might(w.disk, p, i)
  {
    if p in w.disk.names { assert Might(w.disk, p, w.disk.names[p]); }
  }

  lemma MovedSealed(plan: Plan, w: World, k: nat, to: ItemState, fields: Fields)
    requires Inv(plan, w) && BookRule(plan, w, k, Move(to, fields)) && Sealed(to)
    ensures SealedRow(plan, After(w, k, OnBook(Move(to, fields))), k)
  {
    assert RowInv(plan, w, k);
    if to == Verified {
      var s := w.book.rows[k].staging.value;
      assert Might(w.disk, s, w.disk.names[s]);
      assert s.name.Random?;
      assert forall i: nat :: Might(w.disk, s, i) ==> i == w.disk.names[s];
    } else {
      assert SealedRow(plan, w, k);
    }
  }

  lemma MovedExclusive(plan: Plan, w: World, k: nat, to: ItemState, fields: Fields)
    requires Inv(plan, w) && BookRule(plan, w, k, Move(to, fields))
    requires Updated(w.book.rows[k], to, fields).staging.Some?
    ensures Exclusive(w.disk, Updated(w.book.rows[k], to, fields).staging.value,
              plan.items[k].destination, Launched(to))
  {
    assert RowInv(plan, w, k);
    if to == Staging {
      FreshUnused(plan, w, fields.path);
    }
  }

  lemma MovedShape(plan: Plan, w: World, k: nat, to: ItemState, fields: Fields)
    requires Inv(plan, w) && BookRule(plan, w, k, Move(to, fields))
    ensures RowShape(plan, plan.items[k], Updated(w.book.rows[k], to, fields))
  {
    hide Inv, SealedRow, Exclusive, Evidence, Separated, Preflighted, Walk;
    RowHolds(plan, w, k);
    if to == PreflightOk { PreflightSeparates(plan, w.disk); }
  }

  lemma MovedSelf(plan: Plan, w: World, k: nat, to: ItemState, fields: Fields)
    requires Inv(plan, w) && BookRule(plan, w, k, Move(to, fields))
    ensures RowInv(plan, After(w, k, OnBook(Move(to, fields))), k)
  {
    hide Inv, SealedRow, Exclusive, Evidence, RowShape, Preflighted, Walk;
    var v := After(w, k, OnBook(Move(to, fields)));
    RowHolds(plan, w, k);
    MovedShape(plan, w, k, to, fields);
    if Sealed(to) { MovedSealed(plan, w, k, to, fields); }
    var row := v.book.rows[k];
    assert row == Updated(w.book.rows[k], to, fields);
    if row.staging.Some? { MovedExclusive(plan, w, k, to, fields); }
    MovedLog(plan, w, k, to, fields);
  }

  lemma MovedLog(plan: Plan, w: World, k: nat, to: ItemState, fields: Fields)
    requires k < |plan.items| && k < |w.book.rows| && RowInv(plan, w, k) && Editable(w.book, k, Move(to, fields))
    ensures Walk(Edited(w.book, k, Move(to, fields)).events, k) == At(to)
  {
    hide SealedRow, Exclusive, RowShape;
    WalkAppend(w.book.events, ItemEvent(k, Some(w.book.rows[k].state), to, false), k);
  }

  lemma MoveInv(plan: Plan, w: World, k: nat, to: ItemState, fields: Fields)
    requires Inv(plan, w) && BookRule(plan, w, k, Move(to, fields))
    ensures Inv(plan, After(w, k, OnBook(Move(to, fields))))
  {
    var v := After(w, k, OnBook(Move(to, fields)));
    MovedSelf(plan, w, k, to, fields);
    forall j: nat | j < |v.book.rows| ensures RowInv(plan, v, j) {
      if j != k { MovedOther(plan, w, k, to, fields, j); }
    }
  }

  lemma BookInv(plan: Plan, w: World, k: nat, edit: Edit)
    requires Shaped(plan) && Inv(plan, w) && BookRule(plan, w, k, edit)
    ensures Inv(plan, After(w, k, OnBook(edit)))
  {
    var v := After(w, k, OnBook(edit));
    match edit {
      case OpenRun(n) =>
        forall j: nat | j < |v.book.rows| ensures RowInv(plan, v, j) {
          WalkOpening([], n, j);
          assert [] + Opening(n) == Opening(n);
        }
      case Move(to, fields) => MoveInv(plan, w, k, to, fields);
      case Note =>
        forall j: nat | j < |v.book.rows| ensures RowInv(plan, v, j) {
          assert RowInv(plan, w, j);
          WalkAppend(w.book.events, ItemEvent(k, Some(w.book.rows[k].state), w.book.rows[k].state, true), j);
        }
      case MarkRun(s) =>
        forall j: nat | j < |v.book.rows| ensures RowInv(plan, v, j) {
          assert RowInv(plan, w, j);
          WalkAppend(w.book.events, RunEvent(s), j);
        }
    }
  }

  lemma OutsideInv(plan: Plan, w: World, d: Disk)
    requires Shaped(plan) && Inv(plan, w) && Outside(w.disk, d)
    ensures Inv(plan, w.(disk := d))
  {
    var v := w.(disk := d);
    forall p: Path, i: nat | p.name.Random? && Might(d, p, i)
      ensures i < |d.files| && d.files[i].ours && p.name.serial < v.supply
    {
      assert Might(w.disk, p, i);
    }
    forall j: nat | j < |v.book.rows| ensures RowInv(plan, v, j) {
      assert RowInv(plan, w, j);
      var row := w.book.rows[j];
      if row.staging.Some? {
        var s := row.staging.value;
        forall q: Path, i: nat | q != s && Might(d, s, i) && Might(d, q, i)
          ensures Launched(row.state) && q == plan.items[j].destination
        {
          assert Might(w.disk, s, i);
        }
        forall i: nat | Sealed(row.state) && Might(d, s, i)
          ensures i < |d.files| && i < |w.disk.files| && d.files[i] == w.disk.files[i]
        {
          assert Might(w.disk, s, i);
        }
      }
    }
  }

  lemma OutageMight(d: Disk, after: Disk, p: Path, i: nat)
    requires PowerLoss(d, after) && Might(after, p, i)
    ensures Might(d, p, i)
  {
    assert Lookup(after, p) == Lookup(d, p) || Lookup(after, p) in Lingering(d, p);
  }

  lemma OutageInv(plan: Plan, w: World, d: Disk)
    requires Shaped(plan) && Inv(plan, w) && PowerLoss(w.disk, d)
    ensures Inv(plan, w.(disk := d))
  {
    var v := w.(disk := d);
    forall p: Path, i: nat | Might(d, p, i)
      ensures Might(w.disk, p, i) && i < |d.files|
    {
      OutageMight(w.disk, d, p, i);
      MightBound(w.disk, p, i);
    }
    forall p | p in d.names ensures d.names[p] < |d.files| {
      assert Might(d, p, d.names[p]);
    }
    forall j: nat | j < |v.book.rows| ensures RowInv(plan, v, j) {
      assert RowInv(plan, w, j);
    }
  }

  /** Every permitted effect of every item, and everything the environment may do, keeps `Inv`. */
  lemma InvKept(plan: Plan, w: World, k: nat, e: Effect)
    requires Shaped(plan) && Inv(plan, w) && Permitted(plan, w, k, e)
    ensures Inv(plan, After(w, k, e))
  {
    match e
    case OnDisk(op) => DiskInv(plan, w, k, op);
    case OnBook(edit) => BookInv(plan, w, k, edit);
    case Elsewhere(d) => OutsideInv(plan, w, d);
    case Outage(d) => OutageInv(plan, w, d);
  }
}
