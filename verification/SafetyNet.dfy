/** The safety net: whatever the fast paths of start, stop and delete leave undone, one sweep brings
    Docker and the database to agreement. */
module SafetyNet {
  import opened Lifecycle
  import opened Protocol
  import opened Care
  import opened FastPath
  import opened SweepSpec
  import QuietSweep

  /** What one sweep does for a sandbox: it agrees afterwards, unless its row waits for a start and
      its container, if it has one, is not expired. The sweep leaves those to the start job. */
  lemma SweptCellAgrees(cell: Cell, t: Time)
    requires cell.row.Some?
    ensures Agrees(SweptCell(cell, t)) <==> !(Matches(cell.row, STARTABLE) && !IsExpired(cell, t))
  {
    match cell.row.value.status {
      case Queued =>
      case Starting =>
      case Running =>
      case Stopping =>
      case Stopped =>
      case Failed =>
    }
  }

  /** Docker and the database agree about every sandbox with a row, and no other containers exist. */
  ghost predicate AllAgree(cells: Cells) {
    forall id :: id in cells ==>
      (cells[id].row.Some? ==> Agrees(cells[id])) && (cells[id].row.None? ==> cells[id].box.None?)
  }

  /** A sweep of any table brings agreement if and only if no row waits for a start, containers past
      their time apart. */
  lemma SweepBringsAgreement(cells: Cells, t: Time)
    ensures AllAgree(Swept(cells, t)) <==>
            forall id :: id in cells && Matches(cells[id].row, STARTABLE) ==> IsExpired(cells[id], t)
  {
    forall id | id in cells && cells[id].row.Some?
      ensures Agrees(Swept(cells, t)[id]) <==> !(Matches(cells[id].row, STARTABLE) && !IsExpired(cells[id], t))
    {
      SweptCellAgrees(cells[id], t);
    }
    assert Swept(cells, t).Keys == cells.Keys;
    if id :| id in cells && Matches(cells[id].row, STARTABLE) && !IsExpired(cells[id], t) {
      assert id in Swept(cells, t);
    }
  }

  /** A process death of the run lost the start of this sandbox, it still waits for it, and its
      container, if it has one, is not expired: no sweep at `t` will see to it. */
  ghost predicate Abandoned(c: Consts, s0: State, steps: seq<Step>, id: Id, t: Time) {
    var cell := Get(Run(c, s0, steps), id);
    StartLost(c, s0, steps, id) && Matches(cell.row, STARTABLE) && !IsExpired(cell, t)
  }

  /** Every fast path has the reaper as its safety net: after any serial run, with process deaths,
      failed launches, removals and enqueues, containers that die or exit, DELETEs and sweeps in any
      interleaving, once nobody is at work a sweep at time `t` brings agreement, if and only if no
      sandbox is abandoned. Containers leaked by crashes are removed, stops that lost their job are
      finished, and the only deaths that matter are those that lost a start. */
  lemma ReaperIsSafetyNet(c: Consts, s0: State, steps: seq<Step>, t: Time)
    requires c.serial && c.maxTries > 0 && Init(s0)
    requires Quiescent(Run(c, s0, steps))
    ensures AllAgree(Swept(Run(c, s0, steps).cells, t)) <==> forall id :: !Abandoned(c, s0, steps, id, t)
    ensures (forall id :: !StartLost(c, s0, steps, id)) ==> AllAgree(Swept(Run(c, s0, steps).cells, t))
  {
    hide Run, Init, Quiescent, Swept, AllAgree, StartLost;
    var s := Run(c, s0, steps);
    forall id | id in s.cells && Matches(s.cells[id].row, STARTABLE) && !IsExpired(s.cells[id], t)
      ensures Abandoned(c, s0, steps, id, t)
    {
      NothingGetsStuck(c, s0, steps, id);
    }
    forall id | Abandoned(c, s0, steps, id, t)
      ensures id in s.cells && Matches(s.cells[id].row, STARTABLE) && !IsExpired(s.cells[id], t)
    {
    }
    SweepBringsAgreement(s.cells, t);
  }

  /** The same for the sweep as the actor it is: begun when nobody is at work and left alone, it has
      brought agreement when it comes to its end, under the same condition. */
  lemma SweepActorIsSafetyNet(c: Consts, s0: State, steps: seq<Step>, awaits: seq<Step>, choice: Choice)
    requires c.serial && c.maxTries > 0 && Init(s0)
    requires Quiescent(Run(c, s0, steps))
    requires
      var s := Run(c, s0, steps);
      var t := Run(c, Next(c, s, SweepBegin), awaits);
      && QuietSweep.OnlyActs(awaits, s.next)
      && s.next in t.actors && t.actors[s.next].Sweep? && t.actors[s.next].vars.pc == Vanish({})
    ensures
      var s := Run(c, s0, steps);
      var t := Run(c, Next(c, s, SweepBegin), awaits);
      AllAgree(Next(c, t, Act(s.next, choice)).cells) <==> forall id :: !Abandoned(c, s0, steps, id, s.now)
  {
    var s := Run(c, s0, steps);
    var s1 := Next(c, s, SweepBegin);
    var t := Run(c, s1, awaits);
    assert s1.cells == s.cells && s1.now == s.now && QuietSweep.QuietAt(s1, s1, s.next);
    hide Run, Next, Init, Quiescent, Swept, AllAgree, Abandoned, QuietSweep.QuietAt, QuietSweep.OnlyActs;
    QuietSweep.UndisturbedSweep(c, s1, s1, s.next, awaits);
    assert t.actors[s.next].vars.pc.Vanish?;
    QuietSweep.VanishLast(c, s1, t, s.next, choice);
    ReaperIsSafetyNet(c, s0, steps, s.now);
  }
}
