/** The ledger: every change to a row, a container or a job, who makes it, and what it is. Whatever is
    not listed here changes nothing. */
module Ledger {
  import opened Lifecycle
  import opened Protocol
  import opened Invariant
  import opened Locality
  import opened Outcomes
  import Care

  // ---- Rows ----

  /** A row with a new status, and a new error text if there is one. */
  function Set(row: Row, status: Status, error: Option<Reason>): Row {
    if error.Some? then row.(status := status, error := error) else row.(status := status)
  }

  /** What a run of `start_sandbox` on try `try` writes to its row. */
  function StartWrites(c: Consts, row: Row, try: nat, pc: StartPc): Row {
    match pc
    case Expire => if row.status in {Queued, Starting} then Set(row, Stopped, Some(ExpiredInQueue)) else row
    case Claim => if row.status in {Queued, Starting} then row.(status := Starting, attempts := try) else row
    case Promote(port) =>
      if row.status == Starting then row.(status := Running, url := Some(port), error := None) else row
    case Settle =>
      if row.status != Starting then row
      else Set(row, if try < c.maxTries then Queued else Failed, Some(LaunchFailed))
    case _ => row
  }

  /** What a sweep writes to the row of `id`. */
  function SweepWrites(row: Row, v: SweepVars, choice: Choice, id: Id): Row {
    match v.pc
    case MarkStopped =>
      if v.i < |v.listing| && v.listing[v.i].id == id && row.status in {Queued, Starting, Running, Stopping}
      then Set(row, Stopped, None) else row
    case Vanish(todo) =>
      if todo == {} then
        if row.status == Stopping && id !in Live(v.listing) then Set(row, Stopped, None) else row
      else if choice == Pick(id) && id in todo && row.status == Running then Set(row, Failed, Some(ContainerDisappeared))
      else row
    case _ => row
  }

  /** What the next await of `actor` writes to the row of `id`. */
  function Writes(c: Consts, row: Row, actor: Actor, choice: Choice, id: Id): Row {
    match actor
    case Start(i, try, pc) => if i == id then StartWrites(c, row, try, pc) else row
    case Stop(i, _, spc) => if i == id && spc.Mark? && row.status == Stopping then Set(row, Stopped, None) else row
    case DeleteCas(i) =>
      if i == id && row.status in {Queued, Starting, Running, Stopping} then Set(row, Stopping, None) else row
    case CreateFail(i) => if i == id then Set(row, Failed, Some(EnqueueFailed)) else row
    case Sweep(v) => SweepWrites(row, v, choice, id)
    case _ => row
  }

  lemma StartWritesRow(c: Consts, now: Time, cell: Cell, try: nat, pc: StartPc, choice: Choice)
    requires cell.row.Some?
    ensures StepStart(c, now, cell, try, pc, choice).cell.row == Some(StartWrites(c, cell.row.value, try, pc))
  {
  }

  lemma StopWritesRow(c: Consts, cell: Cell, id: Id, try: nat, pc: StopPc, choice: Choice)
    requires cell.row.Some?
    ensures StepStop(c, cell, try, pc, choice).cell.row == Some(Writes(c, cell.row.value, Stop(id, try, pc), choice, id))
  {
  }

  lemma DeleteWritesRow(c: Consts, cell: Cell, actor: Actor, choice: Choice)
    requires cell.row.Some? && IsDelete(actor)
    ensures StepDelete(cell, actor, choice).cell.row == Some(Writes(c, cell.row.value, actor, choice, actor.id))
  {
  }

  lemma SweepWritesRow(cells: Cells, now: Time, v: SweepVars, choice: Choice, id: Id)
    requires id in cells && cells[id].row.Some?
    ensures Look(StepSweep(cells, now, v, choice).cells, id).row == Some(SweepWrites(cells[id].row.value, v, choice, id))
  {
    hide Enumerates, RunningIds, StatusesOf, MustGo;
  }

  lemma CreateWritesRow(c: Consts, s: State, actor: Actor, choice: Choice, id: Id)
    requires id in s.cells && s.cells[id].row.Some? && IsCreate(actor)
    ensures Look(StepCreate(c, s.cells, s.keys, s.now, actor, choice).cells, id).row ==
            Some(Writes(c, s.cells[id].row.value, actor, choice, id))
  {
    hide ActiveIds;
  }

  lemma ActWritesRow(c: Consts, s: State, a: nat, choice: Choice, id: Id)
    requires a in s.actors && id in s.cells && s.cells[id].row.Some?
    ensures Get(StepActor(c, s, a, s.actors[a], choice), id).row ==
            Some(Writes(c, s.cells[id].row.value, s.actors[a], choice, id))
  {
    hide StepStart, StepStop, StepDelete, StepCreate, StepSweep, StartWrites, SweepWrites;
    var x := s.actors[a];
    if x.Start? {
      if x.id == id {
        StartWritesRow(c, s.now, s.cells[id], x.try, x.pc, choice);
      }
    } else if x.Stop? {
      if x.id == id {
        StopWritesRow(c, s.cells[id], id, x.try, x.spc, choice);
      }
    } else if x.Sweep? {
      SweepWritesRow(s.cells, s.now, x.vars, choice, id);
    } else if IsDelete(x) {
      if x.id == id {
        DeleteWritesRow(c, s.cells[id], x, choice);
      }
    } else {
      CreateWritesRow(c, s, x, choice, id);
    }
  }

  /** The row of a known sandbox after any step. */
  lemma RowLedger(c: Consts, s: State, step: Step, id: Id)
    requires id in s.cells && s.cells[id].row.Some?
    ensures
      var row := s.cells[id].row.value;
      Get(Next(c, s, step), id).row ==
        Some(if step.Act? && step.a in s.actors then Writes(c, row, s.actors[step.a], step.choice, id) else row)
  {
    hide StepActor, Writes;
    if step.Act? {
      if step.a in s.actors {
        ActWritesRow(c, s, step.a, step.choice, id);
      }
    } else {
      hide Next;
      BeginRests(c, s, step, id);
    }
  }

  /** The row with which a sandbox comes into being. */
  lemma NewRowLedger(c: Consts, s: State, step: Step, id: Id)
    requires Inv(s) && id !in s.cells && id in Next(c, s, step).cells
    ensures step.Act? && step.a in s.actors && s.actors[step.a].CreateInsert?
    ensures
      var CreateInsert(key, expiresAt, pool) := s.actors[step.a];
      Get(Next(c, s, step), id) == Cell(Some(Row(Queued, None, None, 0, pool, expiresAt, key)), None, None, None)
  {
    hide Next;
    NewCell(c, s, step, id);
  }

  // ---- What a stop ends in ----

  /** Only the plain write after a failed enqueue takes a row from `Stopping` to `Failed`. */
  lemma StopsDoNotFail(c: Consts, s: State, step: Step, id: Id)
    requires Matches(Get(s, id).row, {Stopping})
    ensures Matches(Get(Next(c, s, step), id).row, {Failed}) <==> IsPlainWrite(s, step, id)
    ensures !IsPlainWrite(s, step, id) ==> Matches(Get(Next(c, s, step), id).row, {Stopping, Stopped})
  {
    hide Next;
    RowLedger(c, s, step, id);
  }

  lemma {:induction false} StopsEndStoppedRun(c: Consts, s: State, steps: seq<Step>, id: Id)
    requires Inv(s) && NobodyFails(s) && EnqueuesSucceed(c, s, steps) && Matches(Get(s, id).row, {Stopping})
    ensures Matches(Get(Run(c, s, steps), id).row, {Stopping, Stopped})
    decreases |steps|
  {
    hide Next, Inv, NobodyFails;
    if steps == [] {
    } else {
      var s' := Next(c, s, steps[0]);
      StepKeeps(c, s, steps[0]);
      NobodyFailsStep(c, s, steps[0]);
      NotFailing(s, steps[0], id);
      StopsDoNotFail(c, s, steps[0], id);
      if Matches(Get(s', id).row, {Stopping}) {
        StopsEndStoppedRun(c, s', steps[1..], id);
      } else {
        TerminalRowsStay(c, s', steps[1..], id);
      }
    }
  }

  /** Over whole runs: a sandbox that is stopping and later terminal is stopped, unless the enqueue of a
      start job failed in the run. */
  lemma StopsEndStopped(c: Consts, s0: State, before: seq<Step>, after: seq<Step>, id: Id)
    requires Init(s0) && EnqueuesSucceed(c, s0, before + after)
    requires Matches(Get(Run(c, s0, before), id).row, {Stopping})
    requires AtLeast(Get(Run(c, s0, before + after), id), 3)
    ensures Matches(Get(Run(c, s0, before + after), id).row, {Stopped})
  {
    hide Run, EnqueuesSucceed;
    InitHolds(s0);
    EnqueuesSplit(c, s0, before, after);
    RunAppend(c, s0, before, after);
    StopsEndStoppedRun(c, Run(c, s0, before), after, id);
  }

  // ---- Containers ----

  /** What a run of `start_sandbox` does to its container. */
  function StartBoxes(cell: Cell, pc: StartPc, choice: Choice): Option<Box> {
    match pc
    case Clear(seen) => if choice.Ok? && cell.box == Some(seen) then None else cell.box
    case Launch =>
      if cell.box.Some? || cell.row.None? then cell.box
      else if choice.Publish? then Some(Box(Label(cell.row.value.expiresAt), true, choice.port))
      else if choice.FailLanded? then Some(Box(Label(cell.row.value.expiresAt), false, 0))
      else None
    case Undo => if choice.Ok? then None else cell.box
    case Drop => if choice.Ok? then None else cell.box
    case _ => cell.box
  }

  /** What the next await of `actor` does to the container of `id`. */
  function Boxes(cell: Cell, actor: Actor, choice: Choice, id: Id): Option<Box> {
    match actor
    case Start(i, _, pc) => if i == id then StartBoxes(cell, pc, choice) else cell.box
    case Stop(i, _, spc) => if i == id && spc.Remove? && choice.Ok? then None else cell.box
    case Sweep(v) =>
      if v.pc.Loop? && v.i < |v.listing| && v.listing[v.i].id == id && choice.Ok?
         && (v.listing[v.i].expiry <= v.at || id !in v.statuses || v.statuses[id] in {Stopping, Stopped, Failed})
      then None else cell.box
    case _ => cell.box
  }

  lemma StartBoxLedger(c: Consts, now: Time, cell: Cell, try: nat, pc: StartPc, choice: Choice)
    ensures StepStart(c, now, cell, try, pc, choice).cell.box == StartBoxes(cell, pc, choice)
  {
  }

  lemma SweepBoxLedger(cells: Cells, now: Time, v: SweepVars, choice: Choice, id: Id)
    requires id in cells
    ensures Look(StepSweep(cells, now, v, choice).cells, id).box == Boxes(cells[id], Sweep(v), choice, id)
  {
    hide Enumerates, RunningIds, StatusesOf;
  }

  lemma ActBoxLedger(c: Consts, s: State, a: nat, choice: Choice, id: Id)
    requires a in s.actors && id in s.cells
    ensures Get(StepActor(c, s, a, s.actors[a], choice), id).box == Boxes(s.cells[id], s.actors[a], choice, id)
  {
    hide StepStart, StepSweep, StartBoxes, Label;
    var x := s.actors[a];
    if x.Start? {
      StartBoxLedger(c, s.now, Get(s, x.id), x.try, x.pc, choice);
    } else if x.Sweep? {
      SweepBoxLedger(s.cells, s.now, x.vars, choice, id);
    } else if x.Stop? {
      StopBoxLedger(c, s, a, choice, id);
    } else {
      RequestsLeaveBox(c, s, a, choice, id);
    }
  }

  lemma StopBoxLedger(c: Consts, s: State, a: nat, choice: Choice, id: Id)
    requires a in s.actors && id in s.cells && s.actors[a].Stop?
    ensures Get(StepActor(c, s, a, s.actors[a], choice), id).box == Boxes(s.cells[id], s.actors[a], choice, id)
  {
  }

  lemma RequestsLeaveBox(c: Consts, s: State, a: nat, choice: Choice, id: Id)
    requires a in s.actors && id in s.cells && (IsDelete(s.actors[a]) || IsCreate(s.actors[a]))
    ensures Get(StepActor(c, s, a, s.actors[a], choice), id).box == s.cells[id].box
  {
    hide StepDelete, StepCreate;
    var x := s.actors[a];
    if IsDelete(x) {
      DeleteLeavesBox(Get(s, x.id), x, choice);
    } else {
      CreateLeavesBox(c, s, x, choice, id);
    }
  }

  lemma DeleteLeavesBox(cell: Cell, actor: Actor, choice: Choice)
    ensures StepDelete(cell, actor, choice).cell.box == cell.box
  {
  }

  lemma CreateLeavesBox(c: Consts, s: State, actor: Actor, choice: Choice, id: Id)
    requires id in s.cells
    ensures Look(StepCreate(c, s.cells, s.keys, s.now, actor, choice).cells, id).box == s.cells[id].box
  {
    hide ActiveIds;
  }

  lemma BeginLeavesBox(c: Consts, s: State, step: Step, id: Id)
    requires id in s.cells && !step.Act? && !step.BoxDies? && !step.BoxExits?
    ensures Get(Next(c, s, step), id).box == s.cells[id].box
  {
    hide StartInFlight, StopInFlight;
  }

  /** The container of a known sandbox after any step. */
  lemma BoxLedger(c: Consts, s: State, step: Step, id: Id)
    requires id in s.cells
    ensures
      var cell := s.cells[id];
      Get(Next(c, s, step), id).box ==
        if step == BoxDies(id) then None
        else if step == BoxExits(id) && cell.box.Some? then Some(cell.box.value.(up := false))
        else if step.Act? && step.a in s.actors then Boxes(cell, s.actors[step.a], step.choice, id)
        else cell.box
  {
    if step.BoxDies? || step.BoxExits? {
    } else if !step.Act? {
      hide Next;
      BeginLeavesBox(c, s, step, id);
    } else if step.a in s.actors {
      hide StepActor, Boxes;
      ActBoxLedger(c, s, step.a, step.choice, id);
    }
  }

  // ---- Jobs ----

  /** The start job of a known sandbox after any step: enqueued once on the pool of its request with no
      try used, delivered with one try more while tries are left, kept by a run that is to be retried
      and by a crash that is redelivered, and forgotten otherwise. */
  function StartJobAfter(c: Consts, s: State, step: Step, id: Id): Option<Job>
    requires id in s.cells
  {
    var job := s.cells[id].startJob;
    match step
    case Act(a, choice) =>
      if a !in s.actors then job
      else (
        match s.actors[a]
        case CreateEnqueue(_, i, pool) =>
          if i == id && job.None? && (choice.Ok? || choice.FailLanded?) then Some(Job(pool, 0)) else job
        case Start(i, _, pc) => if i == id && pc == Finish(false) then None else job
        case _ => job)
    case PickStart(i) =>
      if i != id || job.None? || (c.serial && StartInFlight(s, id)) then job
      else if job.value.tries < c.maxTries then Some(Job(job.value.pool, job.value.tries + 1))
      else None
    case Crash(a, redeliver) => if a in s.actors && IsStart(s.actors[a], id) && !redeliver then None else job
    case _ => job
  }

  function StopJobAfter(c: Consts, s: State, step: Step, id: Id): Option<Job>
    requires id in s.cells
  {
    var job := s.cells[id].stopJob;
    match step
    case Act(a, choice) =>
      if a !in s.actors then job
      else (
        match s.actors[a]
        case DeleteEnqueue(i, pool) =>
          if i == id && job.None? && (choice.Ok? || choice.FailLanded?) then Some(Job(pool, 0)) else job
        case Stop(i, _, spc) => if i == id && spc == StopFinish(false) then None else job
        case _ => job)
    case PickStop(i) =>
      if i != id || job.None? || (c.serial && StopInFlight(s, id)) then job
      else if job.value.tries < c.maxTries then Some(Job(job.value.pool, job.value.tries + 1))
      else None
    case Crash(a, redeliver) => if a in s.actors && IsStop(s.actors[a], id) && !redeliver then None else job
    case _ => job
  }

  lemma StartKeepsJobs(c: Consts, now: Time, cell: Cell, try: nat, pc: StartPc, choice: Choice)
    ensures
      var out := StepStart(c, now, cell, try, pc, choice).cell;
      out.stopJob == cell.stopJob && out.startJob == if pc == Finish(false) then None else cell.startJob
  {
  }

  lemma ActJobLedger(c: Consts, s: State, a: nat, choice: Choice, id: Id)
    requires a in s.actors && id in s.cells
    ensures
      var cell := Get(StepActor(c, s, a, s.actors[a], choice), id);
      cell.startJob == StartJobAfter(c, s, Act(a, choice), id) && cell.stopJob == StopJobAfter(c, s, Act(a, choice), id)
  {
    hide StepStart, StepSweep;
    var x := s.actors[a];
    if x.Start? {
      StartKeepsJobs(c, s.now, Get(s, x.id), x.try, x.pc, choice);
    } else if x.Sweep? {
      Care.SweepKeepsJobs(s.cells, s.now, x.vars, choice, id);
    } else {
      RequestJobLedger(c, s, a, choice, id);
    }
  }

  lemma RequestJobLedger(c: Consts, s: State, a: nat, choice: Choice, id: Id)
    requires a in s.actors && id in s.cells && !s.actors[a].Start? && !s.actors[a].Sweep?
    ensures
      var cell := Get(StepActor(c, s, a, s.actors[a], choice), id);
      cell.startJob == StartJobAfter(c, s, Act(a, choice), id) && cell.stopJob == StopJobAfter(c, s, Act(a, choice), id)
  {
    hide StepActor, StartJobAfter, StopJobAfter;
    if IsCreate(s.actors[a]) {
      CreateJobLedger(c, s, a, choice, id);
    } else {
      StopJobLedger(c, s, a, choice, id);
    }
  }

  lemma CreateJobLedger(c: Consts, s: State, a: nat, choice: Choice, id: Id)
    requires a in s.actors && id in s.cells && IsCreate(s.actors[a])
    ensures
      var cell := Get(StepActor(c, s, a, s.actors[a], choice), id);
      cell.startJob == StartJobAfter(c, s, Act(a, choice), id) && cell.stopJob == StopJobAfter(c, s, Act(a, choice), id)
  {
    hide ActiveIds, StepStart, StepSweep, StepStop, StepDelete, StartInFlight, StopInFlight;
  }

  lemma StopJobLedger(c: Consts, s: State, a: nat, choice: Choice, id: Id)
    requires a in s.actors && id in s.cells && (IsDelete(s.actors[a]) || s.actors[a].Stop?)
    ensures
      var cell := Get(StepActor(c, s, a, s.actors[a], choice), id);
      cell.startJob == StartJobAfter(c, s, Act(a, choice), id) && cell.stopJob == StopJobAfter(c, s, Act(a, choice), id)
  {
    hide ActiveIds, StepStart, StepSweep, StepCreate, StartInFlight, StopInFlight;
  }

  lemma PickStartLedger(c: Consts, s: State, i: Id, id: Id)
    requires id in s.cells
    ensures Get(BeginStart(c, s, i), id).startJob == StartJobAfter(c, s, PickStart(i), id)
    ensures Get(BeginStart(c, s, i), id).stopJob == s.cells[id].stopJob
  {
    hide StartInFlight;
  }

  lemma PickStopLedger(c: Consts, s: State, i: Id, id: Id)
    requires id in s.cells
    ensures Get(BeginStop(c, s, i), id).stopJob == StopJobAfter(c, s, PickStop(i), id)
    ensures Get(BeginStop(c, s, i), id).startJob == s.cells[id].startJob
  {
    hide StopInFlight;
  }

  /** The jobs of a known sandbox after any step. */
  lemma JobLedger(c: Consts, s: State, step: Step, id: Id)
    requires id in s.cells
    ensures Get(Next(c, s, step), id).startJob == StartJobAfter(c, s, step, id)
    ensures Get(Next(c, s, step), id).stopJob == StopJobAfter(c, s, step, id)
  {
    hide StepActor, BeginStart, BeginStop, StartInFlight, StopInFlight;
    match step {
      case Act(a, choice) =>
        if a in s.actors {
          ActJobLedger(c, s, a, choice, id);
        }
      case PickStart(i) => PickStartLedger(c, s, i, id);
      case PickStop(i) => PickStopLedger(c, s, i, id);
      case _ =>
    }
  }

  /** Every delivery begins a run at its first await, on the try that it used up. */
  lemma DeliveryLedger(c: Consts, s: State, id: Id)
    requires s.next !in s.actors && id in s.cells
    ensures
      var s', job := Next(c, s, PickStart(id)), s.cells[id].startJob;
      if job.Some? && job.value.tries < c.maxTries && !(c.serial && StartInFlight(s, id)) then
        s'.next == s.next + 1 && s'.actors == s.actors[s.next := Start(id, job.value.tries + 1, Read)]
      else s'.next == s.next && s'.actors == s.actors
    ensures
      var s', job := Next(c, s, PickStop(id)), s.cells[id].stopJob;
      if job.Some? && job.value.tries < c.maxTries && !(c.serial && StopInFlight(s, id)) then
        s'.next == s.next + 1 && s'.actors == s.actors[s.next := Stop(id, job.value.tries + 1, Remove)]
      else s'.next == s.next && s'.actors == s.actors
  {
    hide StartInFlight, StopInFlight;
  }
}
