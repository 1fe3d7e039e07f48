/** What one undisturbed run of `reconcile_sandboxes` is for: the state it leaves, its counts, and
    the laws sweeps obey among themselves. */
module SweepSpec {
  import opened Lifecycle
  import opened Protocol
  import opened Invariant
  import Admission

  const WANTED: set<Status> := {Queued, Starting, Running}

  predicate IsExpired(cell: Cell, t: Time) {
    cell.box.Some? && cell.box.value.expiry <= t
  }

  predicate IsReaped(cell: Cell, t: Time) {
    cell.box.Some? && (cell.box.value.expiry <= t || !Matches(cell.row, WANTED))
  }

  predicate IsLost(cell: Cell) {
    cell.box.None? && Matches(cell.row, {Running})
  }

  function ReapedCell(cell: Cell): Cell {
    cell.(box := None, row := SetStatus(cell.row, ACTIVE, Stopped))
  }

  function FailedCell(cell: Cell): Cell {
    cell.(row := SetFailure(cell.row, {Running}, Failed, ContainerDisappeared))
  }

  /** One sandbox after an undisturbed sweep whose clock reads `t`. */
  function SweptCell(cell: Cell, t: Time): Cell {
    if IsReaped(cell, t) then ReapedCell(cell)
    else if IsLost(cell) then FailedCell(cell)
    else if cell.box.None? then cell.(row := SetStatus(cell.row, {Stopping}, Stopped))
    else cell
  }

  function Swept(cells: Cells, t: Time): Cells {
    map id | id in cells :: SweptCell(cells[id], t)
  }

  function ExpiredIds(cells: Cells, t: Time): set<Id> {
    set id | id in cells && IsExpired(cells[id], t)
  }

  function ReapedIds(cells: Cells, t: Time): set<Id> {
    set id | id in cells && IsReaped(cells[id], t)
  }

  function LostIds(cells: Cells): set<Id> {
    set id | id in cells && IsLost(cells[id])
  }

  function BoxIds(cells: Cells): set<Id> {
    set id | id in cells && cells[id].box.Some?
  }

  /** The counts an undisturbed sweep reports. */
  function SweptCounts(cells: Cells, t: Time): Reaped {
    Reaped(|ExpiredIds(cells, t)|, |ReapedIds(cells, t) - ExpiredIds(cells, t)|, |LostIds(cells)|)
  }

  // ---- What convergence means ----

  predicate Untouched(cell: Cell, cell': Cell) {
    || cell'.box.Some?
    || Matches(cell.row, {Stopped, Failed})
    || (cell.box.None? && Matches(cell.row, STARTABLE))
  }

  /** Docker runs what Postgres says should run. */
  ghost predicate Converged(cell: Cell, cell': Cell, t: Time) {
    // exactly the unexpired containers of queued, starting and running rows stay, as they are
    && (cell'.box.Some? <==> cell.box.Some? && t < cell.box.value.expiry && Matches(cell.row, WANTED))
    && (cell'.box.Some? ==> cell'.box == cell.box)
    // a row is there if it was there before; jobs are not touched
    && cell'.row.Some? == cell.row.Some?
    && cell'.startJob == cell.startJob && cell'.stopJob == cell.stopJob
    // the row of a removed container is stopped unless it was terminal
    && (cell.box.Some? && cell'.box.None? && Matches(cell.row, ACTIVE) ==>
          cell'.row.value == cell.row.value.(status := Stopped))
    // running without a container is a loss
    && (cell.box.None? && Matches(cell.row, {Running}) ==>
          cell'.row.value == cell.row.value.(status := Failed, error := Some(ContainerDisappeared)))
    // a stop with nothing left to remove is finished
    && (cell.box.None? && Matches(cell.row, {Stopping}) ==>
          cell'.row.value == cell.row.value.(status := Stopped))
    // nothing else changes
    && (Untouched(cell, cell') ==> cell'.row == cell.row)
  }

  /** A sweep converges, and there is only one way to do so. */
  lemma SweepConverges(cells: Cells, cells': Cells, t: Time)
    ensures cells' == Swept(cells, t) <==>
            cells'.Keys == cells.Keys && forall id :: id in cells ==> Converged(cells[id], cells'[id], t)
  {
    forall id | id in cells && id in cells'
      ensures Converged(cells[id], cells'[id], t) <==> cells'[id] == Swept(cells, t)[id]
    {
      CellConverges(cells[id], cells'[id], t);
    }
  }

  lemma CellConverges(cell: Cell, cell': Cell, t: Time)
    ensures Converged(cell, cell', t) <==> cell' == SweptCell(cell, t)
  {
    if Converged(cell, cell', t) {
      var swept := SweptCell(cell, t);
      assert cell'.box == swept.box;
      if cell.row.Some? {
        assert cell'.row == Some(cell'.row.value);
        match cell.row.value.status {
          case Queued => assert cell'.row == swept.row;
          case Starting => assert cell'.row == swept.row;
          case Running => assert cell'.row == swept.row;
          case Stopping => assert cell'.row == swept.row;
          case Stopped => assert cell'.row == swept.row;
          case Failed => assert cell'.row == swept.row;
        }
      }
      assert cell' == Cell(cell'.row, cell'.box, cell'.startJob, cell'.stopJob);
    }
  }

  /** Expired and orphaned together count the containers removed, vanished the rows failed. */
  lemma CountsAreRemovals(cells: Cells, t: Time)
    ensures
      var counts := SweptCounts(cells, t);
      && counts.expired + counts.orphan == |BoxIds(cells) - BoxIds(Swept(cells, t))|
      && counts.vanished == |set id | id in cells && Matches(cells[id].row, {Running})
                                      && Matches(Swept(cells, t)[id].row, {Failed})|
  {
    var reaped, expired := ReapedIds(cells, t), ExpiredIds(cells, t);
    assert reaped == expired + (reaped - expired);
    assert BoxIds(cells) - BoxIds(Swept(cells, t)) == reaped;
    assert LostIds(cells) == set id | id in cells && Matches(cells[id].row, {Running})
                                      && Matches(Swept(cells, t)[id].row, {Failed});
  }

  /** After a sweep, only active sandboxes hold containers. */
  lemma BoxesAreActive(cells: Cells, t: Time)
    ensures BoxIds(Swept(cells, t)) <= ActiveIds(Swept(cells, t))
  {
  }

  // ---- Sweeps among themselves ----

  lemma SweptCellTwice(cell: Cell, t: Time, t': Time)
    requires t <= t'
    ensures SweptCell(SweptCell(cell, t), t') == SweptCell(cell, t')
  {
  }

  /** A later sweep makes an earlier one superfluous. */
  lemma LaterSweepAbsorbs(cells: Cells, t: Time, t': Time)
    requires t <= t'
    ensures Swept(Swept(cells, t), t') == Swept(cells, t')
  {
    forall id | id in cells ensures SweptCell(SweptCell(cells[id], t), t') == SweptCell(cells[id], t') {
      SweptCellTwice(cells[id], t, t');
    }
  }

  /** A second sweep at the same time finds nothing to do. */
  lemma SecondSweepIsIdle(cells: Cells, t: Time)
    ensures Swept(Swept(cells, t), t) == Swept(cells, t)
    ensures SweptCounts(Swept(cells, t), t) == NOTHING_REAPED
  {
    LaterSweepAbsorbs(cells, t, t);
    var once := Swept(cells, t);
    assert ReapedIds(once, t) == {} && ExpiredIds(once, t) == {} && LostIds(once) == {};
  }

  // ---- Sweeps cut short ----

  /** A sweep at `t` that was cut off after it had reaped `done`, had removed the container of
      `hanging` but not yet marked its row, and had failed `lost`. */
  function Cut(cells: Cells, done: set<Id>, hanging: Option<Id>, lost: set<Id>): Cells {
    map id | id in cells ::
      if id in done then ReapedCell(cells[id])
      else if hanging == Some(id) then cells[id].(box := None)
      else if id in lost then FailedCell(cells[id])
      else cells[id]
  }

  ghost predicate CutOff(cells: Cells, t: Time, done: set<Id>, hanging: Option<Id>, lost: set<Id>) {
    && done <= ReapedIds(cells, t)
    && (hanging.Some? ==> hanging.value in ReapedIds(cells, t) - done)
    && lost <= LostIds(cells)
  }

  /** A sandbox that lost its container to a sweep that never came to mark its row, after the next
      sweep, instead of `swept`, the result of an uninterrupted one: it is failed instead of stopped
      if it was running, and keeps its status, and so its slot, if it was queued or starting. */
  predicate LeftWrong(cell: Cell, rerun: Cell, swept: Cell) {
    && Matches(swept.row, {Stopped})
    && (Matches(cell.row, {Running}) ==> Matches(rerun.row, {Failed}))
    && (Matches(cell.row, STARTABLE) ==> rerun.row == cell.row && rerun.box.None?)
  }

  lemma RerunCell(cell: Cell, t: Time, t': Time)
    requires t <= t' && IsReaped(cell, t)
    ensures SweptCell(ReapedCell(cell), t') == SweptCell(cell, t')
    ensures SweptCell(cell.(box := None), t') == SweptCell(cell, t') <==> !Matches(cell.row, WANTED)
    ensures Matches(cell.row, WANTED) ==> LeftWrong(cell, SweptCell(cell.(box := None), t'), SweptCell(cell, t'))
  {
  }

  /** A sweep cut off anywhere and then rerun ends where one that was never cut off ends, if and only
      if it was not cut off between the removal of a container and the write that marks its row,
      with that row still queued, starting or running. In the bad case a running row is failed
      instead of stopped, and a queued or starting one keeps its slot without a container. */
  lemma RerunRepairs(cells: Cells, t: Time, t': Time, done: set<Id>, hanging: Option<Id>, lost: set<Id>)
    requires t <= t' && CutOff(cells, t, done, hanging, lost)
    ensures Swept(Cut(cells, done, hanging, lost), t') == Swept(cells, t') <==>
            !(hanging.Some? && Matches(cells[hanging.value].row, WANTED))
    ensures hanging.Some? && Matches(cells[hanging.value].row, WANTED) ==>
              var rerun := Swept(Cut(cells, done, hanging, lost), t');
              LeftWrong(cells[hanging.value], rerun[hanging.value], Swept(cells, t')[hanging.value])
  {
    var cut := Cut(cells, done, hanging, lost);
    forall id | id in cells && hanging != Some(id) ensures SweptCell(cut[id], t') == SweptCell(cells[id], t') {
      if id in done {
        RerunCell(cells[id], t, t');
      }
    }
    if hanging.Some? {
      RerunCell(cells[hanging.value], t, t');
      assert Swept(cut, t')[hanging.value] == SweptCell(cut[hanging.value], t');
      assert Swept(cells, t')[hanging.value] == SweptCell(cells[hanging.value], t');
    }
  }

  /** In particular a removal that fails without effect only delays the rest: the next sweep ends in
      the state of one that never failed. */
  lemma FailedRemovalIsRepaired(cells: Cells, t: Time, t': Time, done: set<Id>)
    requires t <= t' && done <= ReapedIds(cells, t)
    ensures Swept(Cut(cells, done, None, {}), t') == Swept(cells, t')
  {
    RerunRepairs(cells, t, t', done, None, {});
  }

  // ---- Exited containers ----

  /** The documentation promises that a container killed underneath its sandbox gets the row failed.
      The listing includes containers that are not up, so this holds exactly for containers that
      are gone; one that has merely exited keeps its row `Running` until its expiry. */
  lemma OnlyAbsentContainersFail(cells: Cells, t: Time, id: Id)
    requires id in cells && Matches(cells[id].row, {Running})
    ensures Matches(Swept(cells, t)[id].row, {Failed}) <==> cells[id].box.None?
    ensures cells[id].box.Some? && t < cells[id].box.value.expiry ==> Swept(cells, t)[id] == cells[id]
  {
  }

  // ---- The host ----

  /** The admission cap protects the host: if never more than `k` creates race, then after an
      undisturbed sweep no more than `sandbox_max_active + k - 1` containers exist. */
  lemma HostLoadBound(c: Consts, s0: State, steps: seq<Step>, k: nat)
    requires Init(s0) && k >= 1 && Admission.PendingAtMost(c, s0, steps, k)
    ensures
      var s := Run(c, s0, steps);
      |BoxIds(Swept(s.cells, s.now))| <= |ActiveIds(Swept(s.cells, s.now))| <= c.maxActive + k - 1
  {
    hide Run, Admission.PendingAtMost, Inv;
    InitHolds(s0);
    InitLoad(s0);
    Admission.CapHolds(c, s0, steps, k);
    var s := Run(c, s0, steps);
    var after := Swept(s.cells, s.now);
    BoxesAreActive(s.cells, s.now);
    Admission.Subset(BoxIds(after), ActiveIds(after));
    assert ActiveIds(after) <= ActiveIds(s.cells);
    Admission.Subset(ActiveIds(after), ActiveIds(s.cells));
  }

  lemma InitLoad(s0: State)
    requires Init(s0)
    ensures Admission.Load(s0) == 0
  {
    assert ActiveIds(s0.cells) == {};
    assert Admission.Pending(s0) == {};
  }
}
