/** The journal repository: each method is one SQLite transaction with full synchronous durability. A
    database error passes every handler of the engine, so for the run it is the same as being killed. */
module ApplyJournal {
  import opened Journals
  import opened Protocol
  import opened Filesystem

  class JournalRepository {
    const machine: Machine

    constructor (machine: Machine)
      ensures this.machine == machine
    {
      this.machine := machine;
    }

    /** One transaction: the row update and its event, or nothing. */
    method Transact(item: nat, edit: Edit) returns (r: Outcome)
      modifies machine`tick, machine`world, machine`trace
      ensures machine.tick > old(machine.tick) && Excused(machine.oracle, old(machine.tick), r)
      ensures r == Done ==>
        && Editable(old(machine.world).book, item, edit)
        && machine.world == After(old(machine.world), item, OnBook(edit))
        && machine.trace == old(machine.trace) + [Step(old(machine.world), item, OnBook(edit), machine.world)]
      ensures r != Done ==> machine.world == old(machine.world) && machine.trace == old(machine.trace)
      ensures r == Raised(Invalid) <==> !Editable(old(machine.world).book, item, edit)
      ensures r in {Done, Killed, Raised(Invalid)}
    {
      if !Editable(machine.world.book, item, edit) {
        machine.tick := machine.tick + 1;
        return Raised(Invalid);
      }
      r := machine.Probe();
      if r != Done { return Killed; }
      ghost var before := machine.world;
      machine.world := World(machine.world.disk, Edited(machine.world.book, item, edit),
        Supply(machine.world.supply, OnBook(edit)));
      machine.trace := machine.trace + [Step(before, item, OnBook(edit), machine.world)];
    }

    /** The run's own entries are made under the number after the last item's. */
    method CreateRun(count: nat) returns (r: Outcome)
      modifies machine`tick, machine`world, machine`trace
      ensures machine.tick > old(machine.tick) && Excused(machine.oracle, old(machine.tick), r)
      ensures r == Done ==>
        && !old(machine.world).book.begun
        && machine.world == After(old(machine.world), count, OnBook(OpenRun(count)))
        && machine.trace ==
             old(machine.trace) + [Step(old(machine.world), count, OnBook(OpenRun(count)), machine.world)]
      ensures r != Done ==> machine.world == old(machine.world) && machine.trace == old(machine.trace)
      ensures !old(machine.world).book.begun ==> r in {Done, Killed}
    {
      r := Transact(count, OpenRun(count));
    }

    /** Refused, with nothing written, unless the table allows the move from the row's present state. */
    method Transition(item: nat, to: ItemState, fields: Fields) returns (r: Outcome)
      modifies machine`tick, machine`world, machine`trace
      ensures machine.tick > old(machine.tick) && Excused(machine.oracle, old(machine.tick), r)
      ensures r == Done ==>
        && item < |old(machine.world).book.rows| && to in Allowed(old(machine.world).book.rows[item].state)
        && machine.world == After(old(machine.world), item, OnBook(Move(to, fields)))
        && machine.trace == old(machine.trace) +
          [Step(old(machine.world), item, OnBook(Move(to, fields)), machine.world)]
      ensures r != Done ==> machine.world == old(machine.world) && machine.trace == old(machine.trace)
      ensures item < |old(machine.world).book.rows| && to in Allowed(old(machine.world).book.rows[item].state) ==>
                r in {Done, Killed}
    {
      r := Transact(item, Move(to, fields));
    }

    /** Record an error without leaving the present state. */
    method NoteError(item: nat) returns (r: Outcome)
      modifies machine`tick, machine`world, machine`trace
      ensures machine.tick > old(machine.tick) && Excused(machine.oracle, old(machine.tick), r)
      ensures r == Done ==>
        && item < |old(machine.world).book.rows|
        && machine.world == After(old(machine.world), item, OnBook(Note))
        && machine.trace == old(machine.trace) + [Step(old(machine.world), item, OnBook(Note), machine.world)]
      ensures r != Done ==> machine.world == old(machine.world) && machine.trace == old(machine.trace)
      ensures item < |old(machine.world).book.rows| ==> r in {Done, Killed}
    {
      r := Transact(item, Note);
    }

    method SetRunState(status: RunState) returns (r: Outcome)
      modifies machine`tick, machine`world, machine`trace
      ensures machine.tick > old(machine.tick) && Excused(machine.oracle, old(machine.tick), r)
      ensures r == Done ==>
        var k, e := |old(machine.world).book.rows|, OnBook(MarkRun(status));
        && machine.world == After(old(machine.world), k, e)
        && machine.trace == old(machine.trace) + [Step(old(machine.world), k, e, machine.world)]
      ensures r != Done ==> machine.world == old(machine.world) && machine.trace == old(machine.trace)
      ensures r in {Done, Killed}
    {
      r := Transact(|machine.world.book.rows|, MarkRun(status));
    }
  }
}
