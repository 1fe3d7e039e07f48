/** One sandbox and the actors at work on it, cut out of the whole system: every step either
    is a step of that small world or leaves it alone. */
module Crew {
  import opened Lifecycle
  import opened Protocol
  import opened Invariant
  import opened Locality

  /** The actor works on this one sandbox. */
  predicate About(actor: Actor, id: Id) {
    match actor
    case CreateEnqueue(_, i, _) => i == id
    case CreateFail(i) => i == id
    case DeleteCas(i) => i == id
    case DeleteRefresh(i) => i == id
    case DeleteRoute(i) => i == id
    case DeleteEnqueue(i, _) => i == id
    case Start(i, _, _) => i == id
    case Stop(i, _, _) => i == id
    case _ => false
  }

  type Crew = map<nat, Actor>

  function CrewOf(s: State, id: Id): Crew {
    map a | a in s.actors && About(s.actors[a], id) :: s.actors[a]
  }

  function Moved(crew: Crew, a: nat, next: Option<Actor>): Crew {
    if next.Some? then crew[a := next.value] else crew - {a}
  }

  ghost predicate Same(s: State, s': State, id: Id) {
    Get(s', id) == Get(s, id) && CrewOf(s', id) == CrewOf(s, id)
  }

  /** How the crew follows when one actor moves. */
  lemma CrewMoved(s: State, s': State, a: nat, next: Option<Actor>, id: Id)
    requires a in s.actors && s'.actors == Goto(s, a, next).actors
    ensures CrewOf(s', id) ==
            if next.Some? && About(next.value, id) then CrewOf(s, id)[a := next.value] else CrewOf(s, id) - {a}
    ensures !About(s.actors[a], id) ==> CrewOf(s, id) - {a} == CrewOf(s, id)
  {
  }

  /** A run of `start_sandbox` moves on, or ends. */
  lemma StartMoves(c: Consts, s: State, a: nat, choice: Choice, id: Id)
    requires a in s.actors && IsStart(s.actors[a], id)
    ensures
      var x := s.actors[a];
      var s' := Next(c, s, Act(a, choice));
      var out := StepStart(c, s.now, Get(s, id), x.try, x.pc, choice);
      && Get(s', id) == out.cell
      && CrewOf(s', id) == Moved(CrewOf(s, id), a, if x.pc.Finish? then None else Some(Start(id, x.try, out.pc)))
  {
    hide StepStart, CrewOf;
    var x := s.actors[a];
    var out := StepStart(c, s.now, Get(s, id), x.try, x.pc, choice);
    CrewMoved(s, Next(c, s, Act(a, choice)), a, if x.pc.Finish? then None else Some(Start(id, x.try, out.pc)), id);
  }

  lemma StopMoves(c: Consts, s: State, a: nat, choice: Choice, id: Id)
    requires a in s.actors && IsStop(s.actors[a], id)
    ensures
      var x := s.actors[a];
      var s' := Next(c, s, Act(a, choice));
      var out := StepStop(c, Get(s, id), x.try, x.spc, choice);
      && Get(s', id) == out.cell
      && CrewOf(s', id) == Moved(CrewOf(s, id), a, if x.spc.StopFinish? then None else Some(Stop(id, x.try, out.pc)))
  {
    hide StepStop, CrewOf;
    var x := s.actors[a];
    var out := StepStop(c, Get(s, id), x.try, x.spc, choice);
    CrewMoved(s, Next(c, s, Act(a, choice)), a, if x.spc.StopFinish? then None else Some(Stop(id, x.try, out.pc)), id);
  }

  lemma DeleteMoves(c: Consts, s: State, a: nat, choice: Choice, id: Id)
    requires a in s.actors && IsDelete(s.actors[a]) && s.actors[a].id == id
    ensures
      var s' := Next(c, s, Act(a, choice));
      var out := StepDelete(Get(s, id), s.actors[a], choice);
      Get(s', id) == out.cell && CrewOf(s', id) == Moved(CrewOf(s, id), a, out.next)
  {
    hide StepDelete, CrewOf;
    DeleteStays(Get(s, id), s.actors[a], choice);
    CrewMoved(s, Next(c, s, Act(a, choice)), a, StepDelete(Get(s, id), s.actors[a], choice).next, id);
  }

  lemma EnqueueMoves(c: Consts, s: State, a: nat, choice: Choice, id: Id)
    requires a in s.actors && s.actors[a].CreateEnqueue? && s.actors[a].id == id
    ensures
      var x := s.actors[a];
      var s' := Next(c, s, Act(a, choice));
      var cell := Get(s, id);
      var queued := cell.(startJob := Enqueue(cell.startJob, x.pool));
      match choice
      case Ok => Get(s', id) == queued && CrewOf(s', id) == CrewOf(s, id) - {a}
      case Fail => Get(s', id) == cell && CrewOf(s', id) == CrewOf(s, id)[a := CreateFail(id)]
      case FailLanded => Get(s', id) == queued && CrewOf(s', id) == CrewOf(s, id)[a := CreateFail(id)]
      case _ => Same(s, s', id)
  {
  }

  lemma FailMoves(c: Consts, s: State, a: nat, choice: Choice, id: Id)
    requires a in s.actors && s.actors[a] == CreateFail(id) && Reached(s, id, 0)
    ensures
      var s' := Next(c, s, Act(a, choice));
      var cell := Get(s, id);
      && Get(s', id) == cell.(row := Some(cell.row.value.(status := Failed, error := Some(EnqueueFailed))))
      && CrewOf(s', id) == CrewOf(s, id) - {a}
  {
  }

  lemma CrashMoves(c: Consts, s: State, a: nat, redeliver: bool, id: Id)
    requires a in s.actors
    ensures
      var s' := Next(c, s, Crash(a, redeliver));
      && CrewOf(s', id) == CrewOf(s, id) - {a}
      && Get(s', id).row == Get(s, id).row && Get(s', id).box == Get(s, id).box
      && Get(s', id).startJob == if !redeliver && IsStart(s.actors[a], id) then None else Get(s, id).startJob
  {
    hide CrewOf;
    CrashEnds(s, a, redeliver);
    CrewMoved(s, Next(c, s, Crash(a, redeliver)), a, None, id);
  }

  /** A start job is picked up: a run begins, or the queue gives the job up. */
  lemma StartBegins(c: Consts, s: State, id: Id)
    requires s.next !in s.actors
    ensures
      var s' := Next(c, s, PickStart(id));
      var cell := Get(s, id);
      || Same(s, s', id)
      || (cell.startJob.Some? && cell.startJob.value.tries >= c.maxTries
          && Get(s', id) == cell.(startJob := None) && CrewOf(s', id) == CrewOf(s, id)
          && (c.serial ==> !StartInFlight(s, id)))
      || (cell.startJob.Some? && cell.startJob.value.tries < c.maxTries
          && var job := cell.startJob.value.(tries := cell.startJob.value.tries + 1);
             Get(s', id) == cell.(startJob := Some(job))
             && CrewOf(s', id) == CrewOf(s, id)[s.next := Start(id, job.tries, Read)]
             && (c.serial ==> !StartInFlight(s, id)))
  {
    hide StartInFlight;
  }

  lemma StopBegins(c: Consts, s: State, id: Id)
    requires s.next !in s.actors
    ensures
      var s' := Next(c, s, PickStop(id));
      var cell := Get(s, id);
      || Same(s, s', id)
      || (cell.stopJob.Some? && cell.stopJob.value.tries >= c.maxTries
          && Get(s', id) == cell.(stopJob := None) && CrewOf(s', id) == CrewOf(s, id)
          && (c.serial ==> !StopInFlight(s, id)))
      || (cell.stopJob.Some? && cell.stopJob.value.tries < c.maxTries
          && var job := cell.stopJob.value.(tries := cell.stopJob.value.tries + 1);
             Get(s', id) == cell.(stopJob := Some(job))
             && CrewOf(s', id) == CrewOf(s, id)[s.next := Stop(id, job.tries, Remove)]
             && (c.serial ==> !StopInFlight(s, id)))
  {
    hide StopInFlight;
  }

  lemma DeleteBegins(c: Consts, s: State, id: Id)
    requires s.next !in s.actors
    ensures
      var s' := Next(c, s, DeleteBegin(id));
      || Same(s, s', id)
      || (Get(s', id) == Get(s, id) && CrewOf(s', id) == CrewOf(s, id)[s.next := DeleteCas(id)]
          && Get(s, id).row.Some?)
  {
  }

  /** A new sandbox and its first crew member. */
  lemma CrewBegins(c: Consts, s: State, step: Step, id: Id)
    requires Inv(s) && id in Next(c, s, step).cells && id !in s.cells
    ensures
      var s' := Next(c, s, step);
      && step.Act?
      && (exists key: Option<Key>, expiresAt: Time, pool: Pool ::
            Get(s', id) == NOBODY.(row := Some(NewRow(key, expiresAt, pool)))
            && CrewOf(s', id) == map[step.a := CreateEnqueue(key, id, pool)])
  {
    NewCell(c, s, step, id);
    var CreateInsert(key, expiresAt, pool) := s.actors[step.a];
    var s' := Next(c, s, step);
    assert forall a :: a in s.actors ==> !About(s.actors[a], id) by { NobodyAbout(s, id); }
    assert s'.actors == s.actors[step.a := CreateEnqueue(key, id, pool)];
    assert CrewOf(s', id) == map[step.a := CreateEnqueue(key, id, pool)];
  }

  lemma NobodyAbout(s: State, id: Id)
    requires Inv(s) && id !in s.cells
    ensures forall a :: a in s.actors ==> !About(s.actors[a], id)
  {
    forall a | a in s.actors ensures !About(s.actors[a], id) {
      assert ActorOk(s, s.actors[a]);
    }
  }

  // ---- Steps of actors that work elsewhere ----

  lemma StartMovesElse(c: Consts, s: State, a: nat, choice: Choice, id: Id)
    requires a in s.actors && !About(s.actors[a], id) && s.actors[a].Start?
    ensures Same(s, Next(c, s, Act(a, choice)), id)
  {
    hide StepStart, CrewOf;
    var x := s.actors[a];
    var out := StepStart(c, s.now, Get(s, x.id), x.try, x.pc, choice);
    CrewMoved(s, Next(c, s, Act(a, choice)), a, if x.pc.Finish? then None else Some(Start(x.id, x.try, out.pc)), id);
  }

  lemma StopMovesElse(c: Consts, s: State, a: nat, choice: Choice, id: Id)
    requires a in s.actors && !About(s.actors[a], id) && s.actors[a].Stop?
    ensures Same(s, Next(c, s, Act(a, choice)), id)
  {
    hide StepStop, CrewOf;
    var x := s.actors[a];
    var out := StepStop(c, Get(s, x.id), x.try, x.spc, choice);
    CrewMoved(s, Next(c, s, Act(a, choice)), a, if x.spc.StopFinish? then None else Some(Stop(x.id, x.try, out.pc)), id);
  }

  lemma DeleteMovesElse(c: Consts, s: State, a: nat, choice: Choice, id: Id)
    requires a in s.actors && !About(s.actors[a], id) && IsDelete(s.actors[a])
    ensures Same(s, Next(c, s, Act(a, choice)), id)
  {
    hide StepDelete, CrewOf;
    var x := s.actors[a];
    DeleteStays(Get(s, x.id), x, choice);
    CrewMoved(s, Next(c, s, Act(a, choice)), a, StepDelete(Get(s, x.id), x, choice).next, id);
  }

  lemma SweepMovesElse(c: Consts, s: State, a: nat, choice: Choice, id: Id)
    requires a in s.actors && s.actors[a].Sweep?
    ensures CrewOf(Next(c, s, Act(a, choice)), id) == CrewOf(s, id)
  {
    hide StepSweep, CrewOf;
    var out := StepSweep(s.cells, s.now, s.actors[a].vars, choice);
    CrewMoved(s, Next(c, s, Act(a, choice)), a, if out.vars.Some? then Some(Sweep(out.vars.value)) else None, id);
  }

  lemma CreateElse(c: Consts, s: State, actor: Actor, choice: Choice, id: Id)
    requires id in s.cells && !About(actor, id) && IsCreate(actor)
    ensures
      var out := StepCreate(c, s.cells, s.keys, s.now, actor, choice);
      Look(out.cells, id) == Get(s, id) && (out.next.Some? ==> !About(out.next.value, id))
  {
    hide ActiveIds;
  }

  lemma CreateMovesElse(c: Consts, s: State, a: nat, choice: Choice, id: Id)
    requires id in s.cells && a in s.actors && !About(s.actors[a], id) && IsCreate(s.actors[a])
    ensures Same(s, Next(c, s, Act(a, choice)), id)
  {
    hide StepCreate, CrewOf;
    var x := s.actors[a];
    CreateElse(c, s, x, choice, id);
    CrewMoved(s, Next(c, s, Act(a, choice)), a, StepCreate(c, s.cells, s.keys, s.now, x, choice).next, id);
  }

  lemma ElsewhereSame(c: Consts, s: State, a: nat, choice: Choice, id: Id)
    requires id in s.cells && a in s.actors && !About(s.actors[a], id)
    ensures
      var s' := Next(c, s, Act(a, choice));
      && CrewOf(s', id) == CrewOf(s, id)
      && (!s.actors[a].Sweep? ==> Get(s', id) == Get(s, id))
  {
    hide Next, CrewOf, About;
    var x := s.actors[a];
    if x.Start? {
      StartMovesElse(c, s, a, choice, id);
    } else if x.Stop? {
      StopMovesElse(c, s, a, choice, id);
    } else if x.Sweep? {
      SweepMovesElse(c, s, a, choice, id);
    } else if IsDelete(x) {
      DeleteMovesElse(c, s, a, choice, id);
    } else {
      CreateMovesElse(c, s, a, choice, id);
    }
  }

  lemma SpawnElse(s: State, actor: Actor, id: Id)
    requires s.next !in s.actors && !About(actor, id)
    ensures Same(s, Spawn(s, actor), id)
  {
  }

  lemma PutElse(s: State, j: Id, cell: Cell, id: Id)
    requires j != id
    ensures Same(s, Put(s, j, cell), id)
  {
  }

  lemma PickStartElse(c: Consts, s: State, j: Id, id: Id)
    requires s.next !in s.actors && j != id
    ensures Same(s, BeginStart(c, s, j), id)
  {
    hide StartInFlight, CrewOf, Spawn;
    var cell := Get(s, j);
    if cell.startJob.Some? {
      var job := cell.startJob.value.(tries := cell.startJob.value.tries + 1);
      var t := Spawn(s, Start(j, job.tries, Read));
      SpawnElse(s, Start(j, job.tries, Read), id);
      PutElse(t, j, cell.(startJob := Some(job)), id);
      PutElse(s, j, cell.(startJob := None), id);
    }
  }

  lemma PickStopElse(c: Consts, s: State, j: Id, id: Id)
    requires s.next !in s.actors && j != id
    ensures Same(s, BeginStop(c, s, j), id)
  {
    hide StopInFlight, CrewOf, Spawn;
    var cell := Get(s, j);
    if cell.stopJob.Some? {
      var job := cell.stopJob.value.(tries := cell.stopJob.value.tries + 1);
      var t := Spawn(s, Stop(j, job.tries, Remove));
      SpawnElse(s, Stop(j, job.tries, Remove), id);
      PutElse(t, j, cell.(stopJob := Some(job)), id);
      PutElse(s, j, cell.(stopJob := None), id);
    }
  }

  /** Requests and jobs of others, the clock, and new sweeps. */
  lemma BeginElse(c: Consts, s: State, step: Step, id: Id)
    requires s.next !in s.actors
    requires step.Tick? || step.CreateBegin? || step.SweepBegin?
      || ((step.DeleteBegin? || step.PickStart? || step.PickStop?) && step.id != id)
    ensures Same(s, Next(c, s, step), id)
  {
    hide BeginStart, BeginStop, Spawn;
    match step {
      case PickStart(j) => PickStartElse(c, s, j, id);
      case PickStop(j) => PickStopElse(c, s, j, id);
      case DeleteBegin(j) => SpawnElse(s, DeleteCas(j), id);
      case SweepBegin => SpawnElse(s, Sweep(NEW_SWEEP), id);
      case CreateBegin(key, ttl) => SpawnElse(s, CreateCount(key, ttl), id);
      case _ =>
    }
  }
}
