/** What the reconcile sweep decides from old reads is right at the moment it acts, in every
    reachable state. */
module Verdicts {
  import opened Lifecycle
  import opened Protocol
  import opened Invariant
  import opened Locality
  import opened Serial

  /** A state that some run of the service can be in. */
  ghost predicate Reachable(c: Consts, s0: State, steps: seq<Step>, s: State) {
    Init(s0) && s == Run(c, s0, steps)
  }

  lemma ReachableInv(c: Consts, s0: State, steps: seq<Step>, s: State)
    requires Reachable(c, s0, steps, s)
    ensures Inv(s)
    ensures c.serial ==> SerialInv(s)
  {
    InitHolds(s0);
    RunKeeps(c, s0, steps);
    if c.serial {
      SerialRun(c, s0, steps);
    }
  }

  /** Orphan decisions: under any delivery regime and any number of overlapping sweeps, at the
      instant a sweep removes a container whose expiry has not come, the row is not queued,
      starting or running, although its status was read many steps ago. */
  lemma OrphansAreUnwanted(c: Consts, s0: State, steps: seq<Step>, s: State, a: nat)
    requires Reachable(c, s0, steps, s) && a in s.actors && s.actors[a].Sweep?
    requires
      var v := s.actors[a].vars;
      v.pc.Loop? && v.i < |v.listing| && MustGo(v, v.listing[v.i]) && v.listing[v.i].expiry > v.at
    ensures !Matches(Get(s, s.actors[a].vars.listing[s.actors[a].vars.i].id).row, {Queued, Starting, Running})
  {
    ReachableInv(c, s0, steps, s);
    assert ActorOk(s, s.actors[a]);
    RemovalJustified(s, s.actors[a].vars);
  }

  /** Vanished verdicts: in the serial regime, a row that a sweep is about to fail with
      "container disappeared" has no container. */
  lemma VanishedIsGone(c: Consts, s0: State, steps: seq<Step>, s: State, a: nat, id: Id)
    requires c.serial && Reachable(c, s0, steps, s) && a in s.actors && s.actors[a].Sweep?
    requires s.actors[a].vars.pc.Vanish? && id in s.actors[a].vars.pc.todo
    requires Matches(Get(s, id).row, {Running})
    ensures Get(s, id).box.None?
  {
    ReachableInv(c, s0, steps, s);
    assert ActorOk(s, s.actors[a]) && SerialOk(s, s.actors[a]);
    assert LostIfRunning(s, id);
  }

  /** Why a sweep may write a row the way it does. */
  ghost predicate WriteJustified(c: Consts, cell: Cell, cell': Cell, now: Time) {
    // a stop is finished
    || (Matches(cell.row, {Stopping}) && Matches(cell'.row, {Stopped}))
    // the sandbox has outlived its expiry
    || (Matches(cell.row, ACTIVE) && Matches(cell'.row, {Stopped}) && Label(cell.row.value.expiresAt) <= now)
    // it was running, and in the serial regime its container is gone
    || (Matches(cell.row, {Running}) && Matches(cell'.row, {Failed}) && (c.serial ==> cell.box.None?))
  }

  lemma MarkJustified(c: Consts, s: State, v: SweepVars, choice: Choice, id: Id)
    requires CellsOk(s) && SweepOk(s, v) && v.pc.MarkStopped?
    ensures
      var cell' := Look(StepSweep(s.cells, s.now, v, choice).cells, id);
      cell'.row != Get(s, id).row ==> WriteJustified(c, Get(s, id), cell', s.now)
  {
    var e := v.listing[v.i];
    assert e in v.listing;
    if e.id == id && Matches(Get(s, id).row, ACTIVE) && e.expiry > v.at {
      RemovalJustified(s, v.(pc := Loop));
      ActiveUnwanted(Get(s, id).row.value.status);
    }
  }

  lemma ActiveUnwanted(status: Status)
    ensures status in ACTIVE && status !in {Queued, Starting, Running} ==> status == Stopping
  {
  }

  lemma VanishJustified(c: Consts, s: State, v: SweepVars, choice: Choice, id: Id)
    requires v.pc.Vanish? && (c.serial ==> forall j :: j in v.pc.todo ==> LostIfRunning(s, j))
    ensures
      var cell' := Look(StepSweep(s.cells, s.now, v, choice).cells, id);
      cell'.row != Get(s, id).row ==> WriteJustified(c, Get(s, id), cell', s.now)
  {
  }

  lemma LoopJustified(s: State, v: SweepVars, choice: Choice, id: Id)
    requires !v.pc.MarkStopped? && !v.pc.Vanish?
    ensures Look(StepSweep(s.cells, s.now, v, choice).cells, id).row == Get(s, id).row
  {
  }

  lemma RemovalsJustified(s: State, v: SweepVars, choice: Choice, id: Id)
    requires CellsOk(s) && SweepOk(s, v)
    ensures
      var cell' := Look(StepSweep(s.cells, s.now, v, choice).cells, id);
      Get(s, id).box.Some? && cell'.box.None? ==>
        Get(s, id).box.value.expiry <= s.now || !Matches(Get(s, id).row, {Queued, Starting, Running})
  {
    hide StepSweep, CellsOk, SweepOk;
    if id in s.cells {
      SweepOnCell(s, v, choice, id);
    }
  }

  lemma WritesJustified(c: Consts, s: State, v: SweepVars, choice: Choice, id: Id)
    requires CellsOk(s) && SweepOk(s, v) && (c.serial ==> SweepFits(s, v))
    ensures
      var cell' := Look(StepSweep(s.cells, s.now, v, choice).cells, id);
      cell'.row != Get(s, id).row ==> WriteJustified(c, Get(s, id), cell', s.now)
  {
    hide StepSweep, CellsOk, SweepOk, SweepFits, WriteJustified, LostIfRunning;
    if v.pc.MarkStopped? {
      MarkJustified(c, s, v, choice, id);
    } else if v.pc.Vanish? {
      TodoFits(s, v);
      VanishJustified(c, s, v, choice, id);
    } else {
      LoopJustified(s, v, choice, id);
    }
  }

  /** Everything a sweep does is justified at the moment it is done, however old its reads are, and
      wherever it is cut off afterwards: a container it removes is expired or unwanted, and a row it
      writes is stopped because its stop was due or its time is over, or failed because it was
      running without a container. */
  lemma SweepIsJustified(c: Consts, s0: State, steps: seq<Step>, s: State, a: nat, choice: Choice, id: Id)
    requires Reachable(c, s0, steps, s) && a in s.actors && s.actors[a].Sweep?
    ensures
      var cell := Get(s, id);
      var cell' := Get(Next(c, s, Act(a, choice)), id);
      && (cell.box.Some? && cell'.box.None? ==>
            cell.box.value.expiry <= s.now || !Matches(cell.row, {Queued, Starting, Running}))
      && (cell'.row != cell.row ==> WriteJustified(c, cell, cell', s.now))
  {
    ReachableInv(c, s0, steps, s);
    assert ActorOk(s, s.actors[a]) && (c.serial ==> SerialOk(s, s.actors[a]));
    var v := s.actors[a].vars;
    hide Next, StepSweep, Run, Init, Inv, SerialInv, CellsOk, SweepOk, SweepFits, WriteJustified;
    InvParts(s);
    SweepOwnStep(c, s, a, choice);
    RemovalsJustified(s, v, choice, id);
    WritesJustified(c, s, v, choice, id);
  }

  /** The exited container, over whole runs: in the serial regime no sweep ever writes a running row
      whose container exists, up or not, until the time in its label has come. */
  lemma ExitedIsNotNoticed(c: Consts, s0: State, steps: seq<Step>, s: State, a: nat, choice: Choice, id: Id)
    requires c.serial && Reachable(c, s0, steps, s) && a in s.actors && s.actors[a].Sweep?
    requires Matches(Get(s, id).row, {Running}) && Get(s, id).box.Some?
    requires s.now < Label(Get(s, id).row.value.expiresAt)
    ensures Get(Next(c, s, Act(a, choice)), id).row == Get(s, id).row
  {
    hide Next, Run, Init;
    SweepIsJustified(c, s0, steps, s, a, choice, id);
  }

  lemma InvParts(s: State)
    requires Inv(s)
    ensures CellsOk(s)
  {
  }

  lemma TodoFits(s: State, v: SweepVars)
    requires SweepOk(s, v) && v.pc.Vanish?
    ensures SweepFits(s, v) ==> forall j :: j in v.pc.todo ==> LostIfRunning(s, j)
  {
  }

  /** A live sandbox is never killed by mistake: in the serial regime no step of anybody removes
      the unexpired container of a running sandbox; only the outside world can. */
  lemma LiveIsNotKilled(c: Consts, s0: State, steps: seq<Step>, s: State, step: Step, id: Id)
    requires c.serial && Reachable(c, s0, steps, s)
    requires Matches(Get(s, id).row, {Running}) && Get(s, id).box.Some?
    requires Get(s, id).box.value.expiry > s.now && step != BoxDies(id)
    ensures Get(Next(c, s, step), id).box.Some?
  {
    hide Next, CellsOk, IndexOk, Run, Init;
    ReachableInv(c, s0, steps, s);
    StepOnCell(c, s, step, id);
    if IsStartStep(s, step, id) {
      OwnCell(c, s, step.a, step.choice);
      assert SerialOk(s, s.actors[step.a]);
      RunKeepsBox(c, s.now, Get(s, id), s.actors[step.a].try, s.actors[step.a].pc, step.choice);
    }
  }

  /** A start run only removes a container while the sandbox is not running. */
  lemma RunKeepsBox(c: Consts, now: Time, cell: Cell, try: nat, pc: StartPc, choice: Choice)
    requires StartFits(cell, pc) && Matches(cell.row, {Running})
    ensures StepStart(c, now, cell, try, pc, choice).cell.box == cell.box
  {
  }

  // ---- Running means a container runs ----

  predicate Backed(cell: Cell, now: Time) {
    cell.box.Some? || (cell.row.Some? && Label(cell.row.value.expiresAt) <= now)
  }

  /** A launch that was answered keeps its container until it is promoted. */
  ghost predicate PromoteBacked(s: State, id: Id) {
    forall a | a in s.actors && IsStart(s.actors[a], id) && s.actors[a].pc.Promote? ::
      (Matches(Get(s, id).row, {Starting}) ==> Backed(Get(s, id), s.now))
  }

  ghost predicate RunningBacked(s: State, id: Id) {
    && (Matches(Get(s, id).row, {Running}) ==> Backed(Get(s, id), s.now))
    && PromoteBacked(s, id)
  }

  /** Others take the container of a starting or running sandbox only after its time. */
  lemma OthersKeepBacked(cell: Cell, cell': Cell, now: Time, now': Time)
    requires CellOk(cell) && OnCell(cell, cell', now, false) && now <= now' && cell.row.Some?
    requires !AtLeast(cell, 2) && Backed(cell, now)
    ensures Backed(cell', now')
  {
  }

  lemma OwnStepBacked(c: Consts, now: Time, cell: Cell, try: nat, pc: StartPc, choice: Choice)
    requires StartFits(cell, pc)
    requires Matches(cell.row, {Running}) ==> Backed(cell, now)
    requires pc.Promote? && Matches(cell.row, {Starting}) ==> Backed(cell, now)
    ensures
      var out := StepStart(c, now, cell, try, pc, choice);
      && (Matches(out.cell.row, {Running}) ==> Backed(out.cell, now))
      && (out.pc.Promote? && !pc.Finish? && Matches(out.cell.row, {Starting}) ==> Backed(out.cell, now))
  {
  }

  lemma BackedStep(c: Consts, s: State, step: Step, id: Id)
    requires c.serial && Inv(s) && SerialInv(s) && RunningBacked(s, id) && step != BoxDies(id)
    ensures RunningBacked(Next(c, s, step), id)
  {
    hide Next, CellsOk, IndexOk, SweepOk, Backed, StartFits, UrlFits, SweepFits;
    var s' := Next(c, s, step);
    StepKeeps(c, s, step);
    if id !in s.cells {
      if id in s'.cells {
        NewCell(c, s, step, id);
      }
    } else {
      CellIsOk(s, id);
      StepOnCell(c, s, step, id);
      if IsStartStep(s, step, id) {
        OwnStepKeeps(c, s, step.a, step.choice, id);
      } else {
        OthersStepKeeps(c, s, step, id);
      }
    }
  }

  lemma OwnStepKeeps(c: Consts, s: State, a: nat, choice: Choice, id: Id)
    requires c.serial && Inv(s) && SerialInv(s) && RunningBacked(s, id)
    requires a in s.actors && IsStart(s.actors[a], id)
    ensures RunningBacked(Next(c, s, Act(a, choice)), id)
  {
    hide Next, CellsOk, IndexOk, SweepOk, Backed, StartFits, UrlFits, SweepFits, StepStart;
    var step := Act(a, choice);
    var s' := Next(c, s, step);
    var x := s.actors[a];
    OwnCell(c, s, a, choice);
    assert SerialOk(s, x);
    OwnStepBacked(c, s.now, Get(s, id), x.try, x.pc, choice);
    NowOf(c, s, step);
    forall b | b in s'.actors && IsStart(s'.actors[b], id) && s'.actors[b].pc.Promote?
      ensures Matches(Get(s', id).row, {Starting}) ==> Backed(Get(s', id), s'.now)
    {
      ActorCameFrom(c, s, step, b);
      assert b == a;
    }
  }

  lemma OthersStepKeeps(c: Consts, s: State, step: Step, id: Id)
    requires c.serial && Inv(s) && RunningBacked(s, id) && id in s.cells && !IsStartStep(s, step, id)
    requires OnCell(Get(s, id), Get(Next(c, s, step), id), s.now, false)
    ensures RunningBacked(Next(c, s, step), id)
  {
    hide Next, CellsOk, IndexOk, SweepOk, Backed;
    var s' := Next(c, s, step);
    StepKeeps(c, s, step);
    CellIsOk(s, id);
    if Matches(Get(s', id).row, {Running}) {
      OthersKeepBacked(Get(s, id), Get(s', id), s.now, s'.now);
    }
    forall a | a in s'.actors && IsStart(s'.actors[a], id) && s'.actors[a].pc.Promote?
      ensures Matches(Get(s', id).row, {Starting}) ==> Backed(Get(s', id), s'.now)
    {
      ActorCameFrom(c, s, step, a);
      if Matches(Get(s', id).row, {Starting}) {
        OthersKeepBacked(Get(s, id), Get(s', id), s.now, s'.now);
      }
    }
  }

  lemma {:induction false} BackedRun(c: Consts, s: State, steps: seq<Step>, id: Id)
    requires c.serial && Inv(s) && SerialInv(s) && RunningBacked(s, id) && BoxDies(id) !in steps
    ensures RunningBacked(Run(c, s, steps), id)
    decreases |steps|
  {
    hide Next, Inv, SerialInv, RunningBacked;
    if steps == [] {
    } else {
      assert steps[0] in steps;
      BackedStep(c, s, steps[0], id);
      StepKeeps(c, s, steps[0]);
      SerialStep(c, s, steps[0]);
      BackedRun(c, Next(c, s, steps[0]), steps[1..], id);
    }
  }

  /** Hence, in every serial run, with crashes, retries, DELETEs and overlapping sweeps: a running
      row without a container means that the expiry in its label has passed, or that the container
      died outside the system's control. And while it has one, its URL is that container's. */
  lemma RunningIsBacked(c: Consts, s0: State, steps: seq<Step>, s: State, id: Id)
    requires c.serial && Reachable(c, s0, steps, s) && BoxDies(id) !in steps
    requires Matches(Get(s, id).row, {Running})
    ensures Get(s, id).box.None? ==> Label(Get(s, id).row.value.expiresAt) <= s.now
    ensures Get(s, id).box.Some? ==> Get(s, id).row.value.url == Some(Get(s, id).box.value.port)
  {
    InitHolds(s0);
    ReachableInv(c, s0, steps, s);
    BackedRun(c, s0, steps, id);
    assert UrlFits(s.cells[id]);
  }
}
