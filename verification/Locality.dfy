/** Which steps reach a given sandbox, and what they may do to it. */
module Locality {
  import opened Lifecycle
  import opened Protocol
  import opened Invariant

  /** The step is the next await of a run of `start_sandbox` for `id`. */
  predicate IsStartStep(s: State, step: Step, id: Id) {
    step.Act? && step.a in s.actors && IsStart(s.actors[step.a], id)
  }

  /** All that steps other than those of its own start run may do to a sandbox: move its row to
      `Stopping` or beyond, remove its container, or let it exit. */
  ghost predicate Rely(cell: Cell, cell': Cell) {
    && Grows(cell, cell')
    && (cell'.row != cell.row ==> AtLeast(cell', 2))
    && (cell'.row.Some? ==> cell'.row.value.url == cell.row.value.url)
    && (cell'.box.Some? ==>
          cell.box.Some? && (cell'.box == cell.box || cell'.box == Some(cell.box.value.(up := false))))
  }

  /** Why a container may be taken away by others than its own start run: it dies by itself, its row
      wants none, or its time has come. */
  ghost predicate MayGo(cell: Cell, now: Time, dies: bool) {
    || dies
    || cell.row.None?
    || AtLeast(cell, 2)
    || (cell.box.Some? && cell.box.value.expiry <= now)
  }

  ghost predicate OnCell(cell: Cell, cell': Cell, now: Time, dies: bool) {
    && Rely(cell, cell')
    && (cell.box.Some? && cell'.box.None? ==> MayGo(cell, now, dies))
  }

  /** A stale orphan decision is still right: when a sweep is about to remove an unexpired
      container, its row is not `Queued`, `Starting` or `Running`, however long ago the sweep read
      the status, and whatever others did since. */
  lemma RemovalJustified(s: State, v: SweepVars)
    requires CellsOk(s) && SweepOk(s, v) && v.pc.Loop? && v.i < |v.listing| && MustGo(v, v.listing[v.i])
    ensures
      var e := v.listing[v.i];
      e.id in s.cells
      && (e.expiry > v.at ==> !Matches(Get(s, e.id).row, {Queued, Starting, Running}))
      && MayGo(Get(s, e.id), s.now, Get(s, e.id).box.None?)
  {
    var e := v.listing[v.i];
    assert e in v.listing;
    if e.id in v.statuses {
      assert Reached(s, e.id, Stage(v.statuses[e.id]));
    }
  }

  /** While it gathers its picture, a sweep writes nothing. */
  lemma SweepReadsOnly(cells: Cells, now: Time, v: SweepVars, choice: Choice)
    requires !v.pc.Loop? && !v.pc.MarkStopped? && !v.pc.Vanish?
    ensures StepSweep(cells, now, v, choice).cells == cells
  {
    hide Enumerates, StatusesOf, RunningIds;
  }

  lemma LoopOnCell(s: State, v: SweepVars, choice: Choice, id: Id)
    requires CellsOk(s) && SweepOk(s, v) && id in s.cells && v.pc.Loop?
    ensures OnCell(Get(s, id), Look(StepSweep(s.cells, s.now, v, choice).cells, id), s.now, false)
  {
    if v.i < |v.listing| && MustGo(v, v.listing[v.i]) {
      RemovalJustified(s, v);
    }
  }

  lemma WritesOnCell(cells: Cells, now: Time, v: SweepVars, choice: Choice, id: Id)
    requires id in cells && (v.pc.MarkStopped? || v.pc.Vanish?)
    ensures OnCell(cells[id], Look(StepSweep(cells, now, v, choice).cells, id), now, false)
  {
  }

  lemma SweepOnCell(s: State, v: SweepVars, choice: Choice, id: Id)
    requires CellsOk(s) && SweepOk(s, v) && id in s.cells
    ensures OnCell(Get(s, id), Look(StepSweep(s.cells, s.now, v, choice).cells, id), s.now, false)
  {
    hide StepSweep, SweepOk;
    if v.pc.Loop? {
      LoopOnCell(s, v, choice, id);
    } else if v.pc.MarkStopped? || v.pc.Vanish? {
      WritesOnCell(s.cells, s.now, v, choice, id);
    } else {
      SweepReadsOnly(s.cells, s.now, v, choice);
    }
  }

  lemma StopOnCellOf(c: Consts, cell: Cell, now: Time, try: nat, pc: StopPc, choice: Choice)
    requires AtLeast(cell, 2)
    ensures OnCell(cell, StepStop(c, cell, try, pc, choice).cell, now, false)
  {
  }

  lemma DeleteOnCellOf(cell: Cell, now: Time, actor: Actor, choice: Choice)
    ensures OnCell(cell, StepDelete(cell, actor, choice).cell, now, false)
  {
  }

  lemma CreateOnCell(c: Consts, s: State, actor: Actor, choice: Choice, id: Id)
    requires id in s.cells
    ensures OnCell(s.cells[id], Look(StepCreate(c, s.cells, s.keys, s.now, actor, choice).cells, id), s.now, false)
  {
  }

  lemma ActOnCell(c: Consts, s: State, a: nat, choice: Choice, id: Id)
    requires CellsOk(s) && id in s.cells && a in s.actors && ActorOk(s, s.actors[a])
    ensures
      || IsStart(s.actors[a], id)
      || OnCell(Get(s, id), Get(StepActor(c, s, a, s.actors[a], choice), id), s.now, false)
  {
    hide StepStart, StepStop, StepSweep, StepDelete, StepCreate, CellsOk, SweepOk, OnCell;
    var actor := s.actors[a];
    SameOnCell(s.cells[id], s.now);
    if actor.Stop? {
      StopOnCellOf(c, Get(s, actor.id), s.now, actor.try, actor.spc, choice);
    } else if actor.Sweep? {
      SweepOnCell(s, actor.vars, choice, id);
    } else if IsDelete(actor) {
      DeleteOnCellOf(Get(s, actor.id), s.now, actor, choice);
    } else if !actor.Start? {
      CreateOnCell(c, s, actor, choice, id);
    }
  }

  lemma CrashOnCell(s: State, a: nat, redeliver: bool, id: Id)
    requires a in s.actors && id in s.cells
    ensures OnCell(Get(s, id), Get(StepCrash(s, a, s.actors[a], redeliver), id), s.now, false)
  {
  }

  lemma PickStartOnCell(c: Consts, s: State, j: Id, id: Id)
    requires id in s.cells
    ensures OnCell(Get(s, id), Get(BeginStart(c, s, j), id), s.now, false)
  {
    hide StartInFlight, Matches;
  }

  lemma PickStopOnCell(c: Consts, s: State, j: Id, id: Id)
    requires id in s.cells
    ensures OnCell(Get(s, id), Get(BeginStop(c, s, j), id), s.now, false)
  {
    hide StopInFlight, Matches;
  }

  lemma BeginOnCell(c: Consts, s: State, step: Step, id: Id)
    requires id in s.cells && !step.Act? && !step.Crash?
    ensures OnCell(Get(s, id), Get(Next(c, s, step), id), s.now, step == BoxDies(id))
  {
    hide BeginStart, BeginStop, Matches;
    match step {
      case PickStart(j) => PickStartOnCell(c, s, j, id);
      case PickStop(j) => PickStopOnCell(c, s, j, id);
      case _ =>
    }
  }

  /** Only its own start run does more to a known sandbox than `Rely` allows, and nobody else
      removes a container without a reason. */
  lemma StepOnCell(c: Consts, s: State, step: Step, id: Id)
    requires Inv(s) && id in s.cells
    ensures
      || IsStartStep(s, step, id)
      || OnCell(Get(s, id), Get(Next(c, s, step), id), s.now, step == BoxDies(id))
  {
    hide StepActor, StepCrash, OnCell, IndexOk;
    SameOnCell(s.cells[id], s.now);
    match step {
      case Act(a, choice) =>
        if a in s.actors {
          ActOnCell(c, s, a, choice, id);
        }
      case Crash(a, redeliver) =>
        if a in s.actors {
          CrashOnCell(s, a, redeliver, id);
        }
      case _ => BeginOnCell(c, s, step, id);
    }
  }

  lemma SameOnCell(cell: Cell, now: Time)
    ensures OnCell(cell, cell, now, false)
  {
  }

  /** A start run's step on its own sandbox is the handler's. */
  lemma OwnCell(c: Consts, s: State, a: nat, choice: Choice)
    requires a in s.actors && s.actors[a].Start?
    ensures
      var x := s.actors[a];
      var s' := Next(c, s, Act(a, choice));
      var out := StepStart(c, s.now, Get(s, x.id), x.try, x.pc, choice);
      && s'.cells == s.cells[x.id := out.cell]
      && (if x.pc.Finish? then a !in s'.actors else a in s'.actors && s'.actors[a] == Start(x.id, x.try, out.pc))
  {
    hide StepStart;
  }

  /** So is a sweep's. */
  lemma SweepOwnStep(c: Consts, s: State, a: nat, choice: Choice)
    requires a in s.actors && s.actors[a].Sweep?
    ensures
      var out := StepSweep(s.cells, s.now, s.actors[a].vars, choice);
      var s' := Next(c, s, Act(a, choice));
      && s'.cells == out.cells
      && (if out.vars.None? then a !in s'.actors else a in s'.actors && s'.actors[a] == Sweep(out.vars.value))
  {
    hide StepSweep;
  }

  lemma BornByAct(c: Consts, s: State, a: nat, choice: Choice, id: Id)
    requires a in s.actors && ActorOk(s, s.actors[a]) && id !in s.cells
    requires id in StepActor(c, s, a, s.actors[a], choice).cells
    ensures
      && s.actors[a].CreateInsert?
      && var CreateInsert(key, expiresAt, pool) := s.actors[a];
         Get(StepActor(c, s, a, s.actors[a], choice), id) == NOBODY.(row := Some(NewRow(key, expiresAt, pool)))
  {
    hide StepStart, StepStop, StepSweep, StepDelete, SweepOk;
    if s.actors[a].Sweep? {
      SweepSameIds(s, s.actors[a].vars, choice);
    }
  }

  lemma NotBornElse(c: Consts, s: State, step: Step, id: Id)
    requires Inv(s) && id !in s.cells && !step.Act?
    ensures id !in Next(c, s, step).cells
  {
    hide IndexOk, CellsOk, StartInFlight, StopInFlight;
    if step.Crash? && step.a in s.actors {
      CrashSameIds(s, step.a, step.redeliver);
    }
  }

  lemma CrashSameIds(s: State, a: nat, redeliver: bool)
    requires a in s.actors && ActorOk(s, s.actors[a])
    ensures StepCrash(s, a, s.actors[a], redeliver).cells.Keys == s.cells.Keys
  {
  }

  /** A sandbox is born queued, without a container and without jobs. */
  lemma NewCell(c: Consts, s: State, step: Step, id: Id)
    requires Inv(s) && id in Next(c, s, step).cells && id !in s.cells
    ensures
      && step.Act? && step.a in s.actors && s.actors[step.a].CreateInsert?
      && var CreateInsert(key, expiresAt, pool) := s.actors[step.a];
         Get(Next(c, s, step), id) == NOBODY.(row := Some(NewRow(key, expiresAt, pool)))
  {
    hide StepActor, StepCrash, IndexOk, CellsOk, BeginStart, BeginStop, BeginCreate, BeginDelete, StepBox;
    if step.Act? {
      if step.a in s.actors {
        BornByAct(c, s, step.a, step.choice, id);
      }
    } else {
      NotBornElse(c, s, step, id);
    }
  }

  lemma SweepSameIds(s: State, v: SweepVars, choice: Choice)
    requires SweepOk(s, v)
    ensures StepSweep(s.cells, s.now, v, choice).cells.Keys == s.cells.Keys
  {
    ListedKnown(s, v);
  }

  lemma NowOf(c: Consts, s: State, step: Step)
    ensures Next(c, s, step).now == if step.Tick? then s.now + step.elapsed else s.now
  {
    hide StepStart, StepStop, StepSweep, StepCreate, StepDelete, StartInFlight, StopInFlight;
  }

  lemma {:induction false} TimePasses(c: Consts, s: State, steps: seq<Step>)
    ensures s.now <= Run(c, s, steps).now
    decreases |steps|
  {
    hide Next;
    if steps == [] {
    } else {
      NowOf(c, s, steps[0]);
      TimePasses(c, Next(c, s, steps[0]), steps[1..]);
    }
  }

  // ---- Actors ----

  /** An actor after a step was there before, of the same kind and about the same sandbox, or is the
      one that just began. */
  ghost predicate CameFrom(c: Consts, s: State, step: Step, b: nat, actor: Actor) {
    if b in s.actors then
      && (actor.Start? ==> s.actors[b].Start? && s.actors[b].id == actor.id)
      && (actor.Stop? ==> s.actors[b].Stop? && s.actors[b].id == actor.id)
      && (actor.Sweep? ==> s.actors[b].Sweep?)
      && (s.actors[b] == actor || (step.Act? && step.a == b))
    else
      && b == s.next
      && (actor.Start? ==> actor.pc.Read? && (c.serial ==> !StartInFlight(s, actor.id)))
      && (actor.Stop? ==> actor.spc.Remove? && (c.serial ==> !StopInFlight(s, actor.id)))
      && (actor.Sweep? ==> actor.vars == NEW_SWEEP)
  }

  predicate IsCreate(actor: Actor) {
    !actor.Start? && !actor.Stop? && !actor.Sweep? && !IsDelete(actor)
  }

  lemma CreateStays(c: Consts, s: State, actor: Actor, choice: Choice)
    requires IsCreate(actor)
    ensures
      var out := StepCreate(c, s.cells, s.keys, s.now, actor, choice);
      out.next.Some? ==> IsCreate(out.next.value)
  {
    hide ActiveIds;
  }

  lemma DeleteStays(cell: Cell, actor: Actor, choice: Choice)
    requires IsDelete(actor)
    ensures
      var out := StepDelete(cell, actor, choice);
      out.next.Some? ==> IsDelete(out.next.value) && out.next.value.id == actor.id
  {
  }

  predicate SameKindOf(x: Actor, y: Actor) {
    && (y.Start? ==> x.Start? && x.id == y.id)
    && (y.Stop? ==> x.Stop? && x.id == y.id)
    && (y.Sweep? ==> x.Sweep?)
  }

  lemma RequestKind(c: Consts, s: State, a: nat, choice: Choice)
    requires a in s.actors && (IsDelete(s.actors[a]) || IsCreate(s.actors[a]))
    ensures
      var s' := StepActor(c, s, a, s.actors[a], choice);
      a in s'.actors ==> SameKindOf(s.actors[a], s'.actors[a])
  {
    hide StepCreate, StepDelete;
    var x := s.actors[a];
    if IsDelete(x) {
      DeleteStays(Get(s, x.id), x, choice);
    } else {
      CreateStays(c, s, x, choice);
    }
  }

  lemma JobKind(c: Consts, s: State, a: nat, choice: Choice)
    requires a in s.actors && (s.actors[a].Start? || s.actors[a].Stop? || s.actors[a].Sweep?)
    ensures
      var s' := StepActor(c, s, a, s.actors[a], choice);
      a in s'.actors ==> SameKindOf(s.actors[a], s'.actors[a])
  {
    hide StepStart, StepStop, StepSweep;
  }

  /** A handler stays the handler it is. */
  lemma SameKind(c: Consts, s: State, a: nat, choice: Choice)
    requires a in s.actors
    ensures
      var s' := StepActor(c, s, a, s.actors[a], choice);
      a in s'.actors ==> SameKindOf(s.actors[a], s'.actors[a])
  {
    hide StepActor;
    if IsDelete(s.actors[a]) || IsCreate(s.actors[a]) {
      RequestKind(c, s, a, choice);
    } else {
      JobKind(c, s, a, choice);
    }
  }

  lemma BeginCameFrom(c: Consts, s: State, step: Step, b: nat)
    requires s.next !in s.actors && b in Next(c, s, step).actors && !step.Act? && !step.Crash?
    ensures CameFrom(c, s, step, b, Next(c, s, step).actors[b])
  {
    hide StartInFlight, StopInFlight, Matches, Get;
  }

  lemma ActorCameFrom(c: Consts, s: State, step: Step, b: nat)
    requires Inv(s) && b in Next(c, s, step).actors
    ensures CameFrom(c, s, step, b, Next(c, s, step).actors[b])
  {
    hide StepActor, StepCrash, BeginStart, BeginStop, BeginCreate, BeginDelete, IndexOk, CellsOk, DataKept,
      StartInFlight, StopInFlight, ActorOk;
    match step {
      case Act(a, choice) =>
        if a in s.actors {
          ActStep(c, s, a, choice);
          SameKind(c, s, a, choice);
        }
      case Crash(a, redeliver) =>
        if a in s.actors {
          CrashStep(c, s, a, redeliver);
          CrashEnds(s, a, redeliver);
        }
      case _ => BeginCameFrom(c, s, step, b);
    }
  }

  lemma CrashEnds(s: State, a: nat, redeliver: bool)
    requires a in s.actors
    ensures StepCrash(s, a, s.actors[a], redeliver).actors == s.actors - {a}
  {
  }
}
