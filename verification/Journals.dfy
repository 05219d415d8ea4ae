/** The apply journal as a value: one row per planned item and an append-only event log. */
module Journals {
  import opened Basics
  import opened Disks

  datatype RunState = Preflighting | Running | RunRecoveryRequired | RunFailed | RunComplete

  datatype ItemState =
    | Pending | PreflightOk | Staging | Staged | Verified | Committing | Committed
    | CleanupPending | Cleaned | Complete | Failed | Stale | RecoveryRequired

  function Allowed(from: ItemState): set<ItemState> {
    match from
    case Pending => {PreflightOk, Stale, Failed, RecoveryRequired}
    case PreflightOk => {Staging, Stale, RecoveryRequired}
    case Staging => {Staged, Failed, Stale, RecoveryRequired}
    case Staged => {Verified, Failed, Stale, RecoveryRequired}
    case Verified => {Committing, Stale, RecoveryRequired}
    case Committing => {Committed, Stale, RecoveryRequired}
    case Committed => {CleanupPending, Complete, RecoveryRequired}
    case CleanupPending => {Cleaned, RecoveryRequired}
    case Cleaned => {Complete, RecoveryRequired}
    case Failed => {Staging, Stale, RecoveryRequired}
    case Complete => {}
    case Stale => {}
    case RecoveryRequired => {}
  }

  /** The columns of an item row that change; the planned columns are immutable and live in the plan. */
  datatype Row = Row(
    state: ItemState,
    staging: Option<Path>,
    stagedHash: Option<Digest>,
    stagedSize: Option<nat>,
    destinationHash: Option<Digest>,
    cleanup: Option<Path>)

  const FRESH_ROW := Row(Pending, None, None, None, None, None)

  /** The columns a transition writes besides the state. */
  datatype Fields =
    | NoFields
    | SetStaging(path: Path)
    | SetEvidence(hash: Digest, size: nat)
    | SetDestinationHash(digest: Digest)
    | SetCleanup(where: Option<Path>)

  datatype Event =
    | ItemEvent(item: nat, from: Option<ItemState>, to: ItemState, note: bool)
    | RunEvent(status: RunState)

  datatype Book = Book(begun: bool, rows: seq<Row>, events: seq<Event>, run: RunState)

  const EMPTY_BOOK := Book(false, [], [], Preflighting)

  function Updated(row: Row, to: ItemState, fields: Fields): Row {
    var row := row.(state := to);
    match fields
    case NoFields => row
    case SetStaging(p) => row.(staging := Some(p))
    case SetEvidence(h, n) => row.(stagedHash := Some(h), stagedSize := Some(n))
    case SetDestinationHash(h) => row.(destinationHash := Some(h))
    case SetCleanup(p) => row.(cleanup := p)
  }

  datatype Edit =
    | OpenRun(count: nat)
    | Move(to: ItemState, fields: Fields)
    | Note
    | MarkRun(status: RunState)

  predicate Editable(b: Book, item: nat, edit: Edit) {
    match edit
    case OpenRun(_) => !b.begun
    case Move(to, _) => item < |b.rows| && to in Allowed(b.rows[item].state)
    case Note => item < |b.rows|
    case MarkRun(_) => true
  }

  function Opening(count: nat): seq<Event> {
    seq(count, k requires 0 <= k => ItemEvent(k, None, Pending, false))
  }

  function Edited(b: Book, item: nat, edit: Edit): Book
    requires Editable(b, item, edit)
  {
    match edit
    case OpenRun(n) => Book(true, seq(n, _ => FRESH_ROW), b.events + Opening(n), Preflighting)
    case Move(to, fields) =>
      var row := b.rows[item];
      b.(rows := b.rows[item := Updated(row, to, fields)],
         events := b.events + [ItemEvent(item, Some(row.state), to, false)])
    case Note =>
      var row := b.rows[item];
      b.(events := b.events + [ItemEvent(item, Some(row.state), row.state, true)])
    case MarkRun(s) => b.(run := s, events := b.events + [RunEvent(s)])
  }

  /** Where following one item's events leads: nowhere yet, to a state, or off the legal paths. */
  datatype Trail = Unborn | At(state: ItemState) | Broken

  function Follow(t: Trail, e: Event, item: nat): Trail {
    if e.RunEvent? || e.item != item then t
    else match e.from
      case None => if t.Unborn? && e.to == Pending && !e.note then At(Pending) else Broken
      case Some(f) =>
        if t == At(f) && (if e.note then e.to == f else e.to in Allowed(f)) then At(e.to) else Broken
  }

  function Walk(events: seq<Event>, item: nat): Trail {
    if events == [] then Unborn
    else Follow(Walk(events[..|events| - 1], item), events[|events| - 1], item)
  }

  lemma WalkAppend(events: seq<Event>, e: Event, item: nat)
    ensures Walk(events + [e], item) == Follow(Walk(events, item), e, item)
  {
    assert (events + [e])[..|events|] == events;
  }

  lemma {:induction false} WalkOtherEvents(events: seq<Event>, item: nat)
    requires forall k :: 0 <= k < |events| ==> events[k].RunEvent?
    ensures Walk(events, item) == Unborn
  {
    if events != [] { WalkOtherEvents(events[..|events| - 1], item); }
  }

  lemma {:induction false} WalkOpening(events: seq<Event>, count: nat, item: nat)
    requires forall k :: 0 <= k < |events| ==> events[k].RunEvent?
    ensures Walk(events + Opening(count), item) == if item < count then At(Pending) else Unborn
  {
    if count == 0 {
      assert events + Opening(0) == events;
      WalkOtherEvents(events, item);
    } else {
      WalkOpening(events, count - 1, item);
      var e := ItemEvent(count - 1, None, Pending, false);
      assert Opening(count) == Opening(count - 1) + [e];
      assert events + Opening(count) == (events + Opening(count - 1)) + [e];
      hide Walk, Opening;
      WalkAppend(events + Opening(count - 1), e, item);
    }
  }

  /** On an unbroken log only error notes stay in a state, and every other event of the item is a legal move. */
  lemma {:induction false} UnbrokenEvents(events: seq<Event>, item: nat)
    requires Walk(events, item) != Broken
    ensures forall e :: e in events && e.ItemEvent? && e.item == item && e.from.Some? ==>
              if e.note then e.to == e.from.value else e.to in Allowed(e.from.value) && e.to != e.from.value
  {
    if events != [] {
      var rest, last := events[..|events| - 1], events[|events| - 1];
      UnbrokenEvents(rest, item);
      assert events == rest + [last];
    }
  }
}
