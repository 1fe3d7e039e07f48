/** Who will see to the start of a sandbox that waits for one, and which process deaths, and no
    others, leave it without anybody who does. */
module Care {
  import opened Lifecycle
  import opened Protocol
  import opened Invariant
  import opened Locality
  import opened Serial
  import opened Crew

  // ---- The start of one sandbox ----

  ghost predicate HasStart(crew: Crew) {
    exists a :: a in crew && crew[a].Start?
  }

  ghost predicate HasStop(crew: Crew) {
    exists a :: a in crew && crew[a].Stop?
  }

  predicate IsMaker(actor: Actor) {
    actor.CreateEnqueue? || actor.CreateFail?
  }

  /** The request that created the sandbox is still at work on it. */
  ghost predicate Enqueuing(crew: Crew) {
    exists a :: a in crew && IsMaker(crew[a])
  }

  predicate HasTries(c: Consts, cell: Cell) {
    cell.startJob.Some? && cell.startJob.value.tries < c.maxTries
  }

  /** Nobody will see to the start of this sandbox: no run of its start job is in flight, the request
      that created it is gone, and the queue holds no job that it would still deliver. */
  ghost predicate Forlorn(c: Consts, cell: Cell, crew: Crew) {
    !HasStart(crew) && !Enqueuing(crew) && !HasTries(c, cell)
  }

  ghost predicate OneStart(crew: Crew) {
    forall a, b | a in crew && b in crew && a != b :: !(crew[a].Start? && crew[b].Start?)
  }

  /** A run in flight holds its job, and only gives it up once the sandbox needs no start. */
  ghost predicate StartCare(c: Consts, cell: Cell, try: nat, pc: StartPc) {
    && cell.row.Some?
    && StartFits(cell, pc)
    && cell.startJob.Some? && cell.startJob.value.tries == try
    && (pc == Finish(true) ==> try < c.maxTries)
    && (pc == Finish(false) ==> !Matches(cell.row, STARTABLE))
  }

  ghost predicate OneMaker(crew: Crew) {
    forall a, b | a in crew && b in crew && a != b :: !(IsMaker(crew[a]) && IsMaker(crew[b]))
  }

  /** Before the enqueue there is nothing to start. */
  ghost predicate NotYet(cell: Cell, crew: Crew) {
    forall a :: a in crew && crew[a].CreateEnqueue? ==> cell.startJob.None? && !HasStart(crew)
  }

  /** What holds of a sandbox's start in every serial run, process deaths included. */
  ghost predicate Watched(c: Consts, cell: Cell, crew: Crew) {
    && OneStart(crew) && OneMaker(crew) && NotYet(cell, crew)
    && (forall a :: a in crew && crew[a].Start? ==> StartCare(c, cell, crew[a].try, crew[a].pc))
  }

  /** Somebody takes care of the sandbox's start as long as it waits for one. */
  ghost predicate Cared(c: Consts, cell: Cell, crew: Crew) {
    Watched(c, cell, crew) && (Matches(cell.row, STARTABLE) ==> !Forlorn(c, cell, crew))
  }

  /** How a step leads from one situation to the next; `lost` says that it loses the start. Only then
      does a waiting sandbox become forlorn, and a forlorn one stays so. */
  ghost predicate Follows(c: Consts, cell: Cell, crew: Crew, cell': Cell, crew': Crew, lost: bool) {
    && Watched(c, cell', crew')
    && (Matches(cell'.row, STARTABLE) ==> Matches(cell.row, STARTABLE))
    && (Forlorn(c, cell, crew) || lost ==> Forlorn(c, cell', crew'))
    && (Forlorn(c, cell', crew') && Matches(cell'.row, STARTABLE) ==> Forlorn(c, cell, crew) || lost)
  }

  /** Members other than start runs and the creating request come, go and move freely. */
  predicate Bystander(actor: Option<Actor>) {
    actor.None? || actor.value.Stop? || IsDelete(actor.value)
  }

  /** The members that matter are the same. */
  lemma SameCare(crew: Crew, crew': Crew)
    requires forall b :: b in crew && (crew[b].Start? || IsMaker(crew[b])) ==> b in crew' && crew'[b] == crew[b]
    requires forall b :: b in crew' && (crew'[b].Start? || IsMaker(crew'[b])) ==> b in crew && crew[b] == crew'[b]
    ensures HasStart(crew') <==> HasStart(crew)
    ensures Enqueuing(crew') <==> Enqueuing(crew)
  {
    if b :| b in crew && crew[b].Start? {
      assert b in crew' && crew'[b].Start?;
    }
    if b :| b in crew' && crew'[b].Start? {
      assert b in crew && crew[b].Start?;
    }
    if b :| b in crew && IsMaker(crew[b]) {
      assert b in crew' && IsMaker(crew'[b]);
    }
    if b :| b in crew' && IsMaker(crew'[b]) {
      assert b in crew && IsMaker(crew[b]);
    }
  }

  lemma CareStays(c: Consts, cell: Cell, cell': Cell, crew: Crew, crew': Crew, a: nat, next: Option<Actor>)
    requires Watched(c, cell, crew) && Rely(cell, cell') && cell'.startJob == cell.startJob
    requires crew' == crew || (crew' == Moved(crew, a, next) && Bystander(next) && (a in crew ==> Bystander(Some(crew[a]))))
    ensures Follows(c, cell, crew, cell', crew', false)
  {
    SameCare(crew, crew');
    hide HasStart, Enqueuing;
    forall b | b in crew' && crew'[b].Start? ensures StartCare(c, cell', crew'[b].try, crew'[b].pc) {
      assert b in crew && crew[b] == crew'[b];
      RelyFits(cell, cell', crew[b].pc);
    }
  }

  lemma CareStart(c: Consts, now: Time, cell: Cell, crew: Crew, a: nat, choice: Choice)
    requires Watched(c, cell, crew) && a in crew && crew[a].Start? && UrlFits(cell)
    ensures
      var x := crew[a];
      var out := StepStart(c, now, cell, x.try, x.pc, choice);
      Follows(c, cell, crew, out.cell, Moved(crew, a, if x.pc.Finish? then None else Some(Start(x.id, x.try, out.pc))), false)
  {
    hide StepStart, StartFits, UrlFits;
    var x := crew[a];
    var out := StepStart(c, now, cell, x.try, x.pc, choice);
    var crew' := Moved(crew, a, if x.pc.Finish? then None else Some(Start(x.id, x.try, out.pc)));
    assert StartCare(c, cell, x.try, x.pc);
    OwnStepFits(c, now, cell, x.try, x.pc, choice);
    OwnStepCares(c, now, cell, x.try, x.pc, choice);
    assert forall b :: b in crew' && b != a ==> b in crew && crew'[b] == crew[b];
    assert HasStart(crew);
    if !x.pc.Finish? {
      assert crew'[a].Start?;
    }
  }

  lemma OwnStepCares(c: Consts, now: Time, cell: Cell, try: nat, pc: StartPc, choice: Choice)
    requires StartCare(c, cell, try, pc) && cell.row.Some?
    ensures
      var out := StepStart(c, now, cell, try, pc, choice);
      && out.cell.row.Some?
      && (Matches(out.cell.row, STARTABLE) ==> Matches(cell.row, STARTABLE))
      && (pc == Finish(true) ==> out.cell == cell)
      && (!pc.Finish? ==>
            && out.cell.startJob == cell.startJob
            && (out.pc == Finish(true) ==> try < c.maxTries)
            && (out.pc == Finish(false) ==> !Matches(out.cell.row, STARTABLE)))
  {
  }

  lemma CareEnqueue(c: Consts, cell: Cell, crew: Crew, a: nat, pool: Pool, crew': Crew)
    requires c.maxTries > 0 && Watched(c, cell, crew) && a in crew && crew[a].CreateEnqueue?
    requires crew' == crew - {a} || (exists id :: crew' == crew[a := CreateFail(id)])
    ensures Follows(c, cell, crew, cell.(startJob := Enqueue(cell.startJob, pool)), crew', false)
  {
    assert IsMaker(crew[a]);
    assert forall b :: b in crew' && b != a ==> b in crew && crew'[b] == crew[b];
  }

  lemma CareEnqueueFails(c: Consts, cell: Cell, crew: Crew, a: nat, id: Id)
    requires Watched(c, cell, crew) && a in crew && crew[a].CreateEnqueue?
    ensures Follows(c, cell, crew, cell, crew[a := CreateFail(id)], false)
  {
    var crew' := crew[a := CreateFail(id)];
    assert IsMaker(crew[a]) && IsMaker(crew'[a]);
    assert forall b :: b in crew' && b != a ==> b in crew && crew'[b] == crew[b];
  }

  lemma CareFail(c: Consts, cell: Cell, crew: Crew, a: nat)
    requires Watched(c, cell, crew) && a in crew && crew[a].CreateFail? && cell.row.Some?
    ensures Follows(c, cell, crew,
                    cell.(row := Some(cell.row.value.(status := Failed, error := Some(EnqueueFailed)))), crew - {a}, false)
  {
    assert IsMaker(crew[a]);
    var crew' := crew - {a};
    assert forall b :: b in crew' ==> b in crew && crew'[b] == crew[b];
  }

  lemma CareBegins(c: Consts, cell: Cell, crew: Crew, a: nat, id: Id)
    requires Watched(c, cell, crew) && a !in crew && !HasStart(crew) && HasTries(c, cell) && cell.row.Some?
    ensures
      var job := cell.startJob.value.(tries := cell.startJob.value.tries + 1);
      Follows(c, cell, crew, cell.(startJob := Some(job)), crew[a := Start(id, job.tries, Read)], false)
  {
    var crew' := crew[a := Start(id, cell.startJob.value.tries + 1, Read)];
    assert crew'[a].Start?;
    assert forall b :: b in crew' && b != a ==> b in crew && crew'[b] == crew[b];
  }

  /** The queue forgets a job without tries left when it is to be delivered again. */
  lemma CareDrops(c: Consts, cell: Cell, crew: Crew)
    requires Watched(c, cell, crew) && !HasStart(crew) && !HasTries(c, cell)
    ensures Follows(c, cell, crew, cell.(startJob := None), crew, false)
  {
  }

  // ---- Process deaths ----

  /** The death of `a` leaves nobody to see to the start: the creating request dies before its enqueue;
      it dies before its failing write, and neither a run nor a deliverable job is there; or a start
      run dies on its last try or without redelivery, and the creating request is gone. */
  ghost predicate LostBy(c: Consts, cell: Cell, crew: Crew, a: nat, redeliver: bool)
    requires a in crew
  {
    match crew[a]
    case CreateEnqueue(_, _, _) => true
    case CreateFail(_) => !HasStart(crew) && !HasTries(c, cell)
    case Start(_, try, _) => (!redeliver || try >= c.maxTries) && !Enqueuing(crew)
    case _ => false
  }

  lemma StartDies(c: Consts, cell: Cell, crew: Crew, a: nat, redeliver: bool, cell': Cell)
    requires Watched(c, cell, crew) && a in crew && crew[a].Start?
    requires cell'.row == cell.row && cell'.box == cell.box
    requires cell'.startJob == if redeliver then cell.startJob else None
    ensures Follows(c, cell, crew, cell', crew - {a}, LostBy(c, cell, crew, a, redeliver))
  {
    assert StartCare(c, cell, crew[a].try, crew[a].pc);
    hide StartCare;
    assert HasStart(crew);
    OthersMake(crew, a);
    assert !HasStart(crew - {a});
  }

  lemma MakerDies(c: Consts, cell: Cell, crew: Crew, a: nat, redeliver: bool, cell': Cell)
    requires Watched(c, cell, crew) && a in crew && IsMaker(crew[a])
    requires cell'.row == cell.row && cell'.box == cell.box && cell'.startJob == cell.startJob
    ensures Follows(c, cell, crew, cell', crew - {a}, LostBy(c, cell, crew, a, redeliver))
  {
    OthersStart(crew, a);
    assert Enqueuing(crew) && !Enqueuing(crew - {a});
    hide HasStart, Enqueuing;
    assert forall b :: b in crew - {a} ==> b in crew && (crew - {a})[b] == crew[b];
  }

  lemma BystanderDies(c: Consts, cell: Cell, crew: Crew, a: nat, cell': Cell)
    requires Watched(c, cell, crew) && a in crew && !crew[a].Start? && !IsMaker(crew[a])
    requires cell'.row == cell.row && cell'.box == cell.box && cell'.startJob == cell.startJob
    ensures Follows(c, cell, crew, cell', crew - {a}, false)
  {
    SameCare(crew, crew - {a});
    hide HasStart, Enqueuing;
    assert forall b :: b in crew - {a} ==> b in crew && (crew - {a})[b] == crew[b];
  }

  lemma CareDies(c: Consts, cell: Cell, crew: Crew, a: nat, redeliver: bool, cell': Cell)
    requires Watched(c, cell, crew) && a in crew
    requires cell'.row == cell.row && cell'.box == cell.box
    requires cell'.startJob == if !redeliver && crew[a].Start? then None else cell.startJob
    ensures Follows(c, cell, crew, cell', crew - {a}, LostBy(c, cell, crew, a, redeliver))
  {
    hide Watched, Follows;
    if crew[a].Start? {
      StartDies(c, cell, crew, a, redeliver, cell');
    } else if IsMaker(crew[a]) {
      MakerDies(c, cell, crew, a, redeliver, cell');
    } else {
      BystanderDies(c, cell, crew, a, cell');
    }
  }

  lemma OthersStart(crew: Crew, a: nat)
    requires a in crew && !crew[a].Start?
    ensures HasStart(crew - {a}) <==> HasStart(crew)
  {
    if b :| b in crew && crew[b].Start? {
      assert b in crew - {a} && (crew - {a})[b].Start?;
    }
  }

  lemma OthersMake(crew: Crew, a: nat)
    requires a in crew && !IsMaker(crew[a])
    ensures Enqueuing(crew - {a}) <==> Enqueuing(crew)
  {
    if b :| b in crew && IsMaker(crew[b]) {
      assert b in crew - {a} && IsMaker((crew - {a})[b]);
    }
  }

  lemma CrewStart(s: State, id: Id)
    ensures HasStart(CrewOf(s, id)) <==> StartInFlight(s, id)
    ensures HasStop(CrewOf(s, id)) <==> StopInFlight(s, id)
  {
    var crew := CrewOf(s, id);
    if a :| a in s.actors && IsStart(s.actors[a], id) {
      assert a in crew && crew[a].Start?;
    }
    if a :| a in s.actors && IsStop(s.actors[a], id) {
      assert a in crew && crew[a].Stop?;
    }
  }

  // ---- ... over every step ----

  /** Stop runs, DELETEs and sweeps leave the start job alone. */
  lemma OthersKeepStartJob(c: Consts, s: State, a: nat, choice: Choice, id: Id)
    requires a in s.actors && id in s.cells && ActorOk(s, s.actors[a])
    requires s.actors[a].Stop? || IsDelete(s.actors[a]) || s.actors[a].Sweep?
    ensures Get(Next(c, s, Act(a, choice)), id).startJob == Get(s, id).startJob
  {
    var x := s.actors[a];
    if x.Sweep? {
      SweepKeepsJobs(s.cells, s.now, x.vars, choice, id);
      SweepOwnStep(c, s, a, choice);
    }
  }

  lemma SweepKeepsJobs(cells: Cells, now: Time, v: SweepVars, choice: Choice, id: Id)
    requires id in cells
    ensures
      var cell' := Look(StepSweep(cells, now, v, choice).cells, id);
      cell'.startJob == cells[id].startJob && cell'.stopJob == cells[id].stopJob
  {
    hide Enumerates, RunningIds, StatusesOf, MustGo;
  }

  /** The situation of `id` in `s`. */
  ghost predicate WatchedIn(c: Consts, s: State, id: Id) {
    id in s.cells ==> Watched(c, Get(s, id), CrewOf(s, id))
  }

  ghost predicate ForlornIn(c: Consts, s: State, id: Id) {
    id in s.cells && Forlorn(c, Get(s, id), CrewOf(s, id))
  }

  ghost predicate FollowsIn(c: Consts, s: State, s': State, id: Id, lost: bool) {
    Follows(c, Get(s, id), CrewOf(s, id), Get(s', id), CrewOf(s', id), lost)
  }

  lemma CaredAct(c: Consts, s: State, a: nat, choice: Choice, id: Id)
    requires c.serial && c.maxTries > 0 && Inv(s) && SerialInv(s) && id in s.cells && a in s.actors
    requires Watched(c, Get(s, id), CrewOf(s, id))
    ensures FollowsIn(c, s, Next(c, s, Act(a, choice)), id, false)
  {
    hide Next, CrewOf, Follows, Watched, CellsOk, IndexOk, SweepOk, SweepFits, StartFits, UrlFits, OneRun;
    var x := s.actors[a];
    var s' := Next(c, s, Act(a, choice));
    var crew := CrewOf(s, id);
    assert ActorOk(s, x) && UrlFits(s.cells[id]);
    StepOnCell(c, s, Act(a, choice), id);
    CareStays(c, Get(s, id), Get(s, id), crew, crew, a, None);
    if About(x, id) {
      InCrew(s, a, id);
      if x.Start? {
        StartMoves(c, s, a, choice, id);
        CareStart(c, s.now, Get(s, id), crew, a, choice);
      } else if x.Stop? {
        StopMoves(c, s, a, choice, id);
        OthersKeepStartJob(c, s, a, choice, id);
        CareStays(c, Get(s, id), Get(s', id), crew, CrewOf(s', id), a,
                  if x.spc.StopFinish? then None else Some(Stop(id, x.try, StepStop(c, Get(s, id), x.try, x.spc, choice).pc)));
      } else if IsDelete(x) {
        DeleteMoves(c, s, a, choice, id);
        DeleteStays(Get(s, id), x, choice);
        OthersKeepStartJob(c, s, a, choice, id);
        CareStays(c, Get(s, id), Get(s', id), crew, CrewOf(s', id), a, StepDelete(Get(s, id), x, choice).next);
      } else if x.CreateEnqueue? {
        EnqueueMoves(c, s, a, choice, id);
        if choice.Ok? || choice.FailLanded? {
          CareEnqueue(c, Get(s, id), crew, a, x.pool, CrewOf(s', id));
        } else if choice.Fail? {
          CareEnqueueFails(c, Get(s, id), crew, a, id);
        }
      } else {
        FailMoves(c, s, a, choice, id);
        CareFail(c, Get(s, id), crew, a);
      }
    } else {
      ElsewhereSame(c, s, a, choice, id);
      if x.Sweep? {
        OthersKeepStartJob(c, s, a, choice, id);
        CareStays(c, Get(s, id), Get(s', id), crew, crew, a, None);
      }
    }
  }

  lemma InCrew(s: State, a: nat, id: Id)
    requires a in s.actors && About(s.actors[a], id)
    ensures a in CrewOf(s, id) && CrewOf(s, id)[a] == s.actors[a]
  {
  }

  lemma CaredBegin(c: Consts, s: State, step: Step, id: Id)
    requires c.serial && Inv(s) && id in s.cells && !step.Act? && !step.Crash?
    requires Watched(c, Get(s, id), CrewOf(s, id))
    ensures FollowsIn(c, s, Next(c, s, step), id, false)
  {
    hide Next, CrewOf, Follows, Watched, CellsOk, IndexOk, StartInFlight, StopInFlight, HasStart;
    var s' := Next(c, s, step);
    var crew := CrewOf(s, id);
    NotInCrew(s, id);
    CrewStart(s, id);
    CareStays(c, Get(s, id), Get(s, id), crew, crew, 0, None);
    match step {
      case BoxDies(j) => BoxMoves(c, s, step, id); CareStays(c, Get(s, id), Get(s', id), crew, crew, 0, None);
      case BoxExits(j) => BoxMoves(c, s, step, id); CareStays(c, Get(s, id), Get(s', id), crew, crew, 0, None);
      case PickStart(j) =>
        if j == id {
          StartBegins(c, s, id);
          if Get(s', id) != Get(s, id) {
            assert CellOk(s.cells[id]) by { CellIsOk(s, id); }
            if HasTries(c, Get(s, id)) {
              CareBegins(c, Get(s, id), crew, s.next, id);
            } else {
              CareDrops(c, Get(s, id), crew);
            }
          }
        } else {
          BeginElse(c, s, step, id);
        }
      case PickStop(j) =>
        if j == id {
          StopBegins(c, s, id);
          if Get(s', id) != Get(s, id) {
            CareStays(c, Get(s, id), Get(s', id), crew, CrewOf(s', id), s.next,
                      Some(Stop(id, Get(s, id).stopJob.value.tries + 1, Remove)));
          }
        } else {
          BeginElse(c, s, step, id);
        }
      case DeleteBegin(j) =>
        if j == id {
          DeleteBegins(c, s, id);
          CareStays(c, Get(s, id), Get(s', id), crew, CrewOf(s', id), s.next, Some(DeleteCas(id)));
        } else {
          BeginElse(c, s, step, id);
        }
      case _ => BeginElse(c, s, step, id);
    }
  }

  lemma NotInCrew(s: State, id: Id)
    requires Inv(s)
    ensures s.next !in s.actors && s.next !in CrewOf(s, id)
  {
  }

  lemma BoxMoves(c: Consts, s: State, step: Step, id: Id)
    requires id in s.cells && (step.BoxDies? || step.BoxExits?)
    ensures
      var s' := Next(c, s, step);
      && CrewOf(s', id) == CrewOf(s, id)
      && Rely(Get(s, id), Get(s', id)) && Get(s', id).startJob == Get(s, id).startJob
  {
  }

  /** The step is a process death that loses the start of `id`. */
  ghost predicate LosesStart(c: Consts, s: State, step: Step, id: Id) {
    && step.Crash? && step.a in CrewOf(s, id)
    && LostBy(c, Get(s, id), CrewOf(s, id), step.a, step.redeliver)
  }

  lemma CaredCrash(c: Consts, s: State, a: nat, redeliver: bool, id: Id)
    requires Inv(s) && id in s.cells && Watched(c, Get(s, id), CrewOf(s, id))
    ensures FollowsIn(c, s, Next(c, s, Crash(a, redeliver)), id, LosesStart(c, s, Crash(a, redeliver), id))
  {
    hide Next, Follows, Watched, LostBy, Inv;
    var s' := Next(c, s, Crash(a, redeliver));
    var crew := CrewOf(s, id);
    CareStays(c, Get(s, id), Get(s, id), crew, crew, 0, None);
    if a in s.actors {
      CrashMoves(c, s, a, redeliver, id);
      if a in crew {
        CareDies(c, Get(s, id), crew, a, redeliver, Get(s', id));
      } else {
        assert crew - {a} == crew;
        CareStays(c, Get(s, id), Get(s', id), crew, crew, 0, None);
      }
    } else {
      NoCrash(c, s, a, redeliver);
    }
  }

  lemma NoCrash(c: Consts, s: State, a: nat, redeliver: bool)
    requires a !in s.actors
    ensures Next(c, s, Crash(a, redeliver)) == s
  {
  }

  lemma CaredStep(c: Consts, s: State, step: Step, id: Id)
    requires c.serial && c.maxTries > 0 && Inv(s) && SerialInv(s) && id in s.cells
    requires Watched(c, Get(s, id), CrewOf(s, id))
    ensures FollowsIn(c, s, Next(c, s, step), id, LosesStart(c, s, step, id))
  {
    hide Next, Inv, SerialInv, CrewOf, Watched, Follows;
    match step {
      case Act(a, choice) =>
        if a in s.actors {
          CaredAct(c, s, a, choice, id);
        } else {
          NoActor(c, s, a, choice);
          CareStays(c, Get(s, id), Get(s, id), CrewOf(s, id), CrewOf(s, id), 0, None);
        }
      case Crash(a, redeliver) => CaredCrash(c, s, a, redeliver, id);
      case _ => CaredBegin(c, s, step, id);
    }
  }

  lemma NoActor(c: Consts, s: State, a: nat, choice: Choice)
    requires a !in s.actors
    ensures Next(c, s, Act(a, choice)) == s
  {
  }

  lemma CareBorn(c: Consts, s: State, a: nat, id: Id)
    requires exists key: Option<Key>, expiresAt: Time, pool: Pool ::
               Get(s, id) == NOBODY.(row := Some(NewRow(key, expiresAt, pool)))
               && CrewOf(s, id) == map[a := CreateEnqueue(key, id, pool)]
    ensures Cared(c, Get(s, id), CrewOf(s, id))
  {
    hide CrewOf;
    var key: Option<Key>, expiresAt: Time, pool: Pool :|
      Get(s, id) == NOBODY.(row := Some(NewRow(key, expiresAt, pool)))
      && CrewOf(s, id) == map[a := CreateEnqueue(key, id, pool)];
    var crew := CrewOf(s, id);
    assert a in crew && IsMaker(crew[a]);
  }

  /** Some process death in the run loses the start of `id`. */
  ghost predicate StartLost(c: Consts, s: State, steps: seq<Step>, id: Id)
    decreases |steps|
  {
    steps != [] && (LosesStart(c, s, steps[0], id) || StartLost(c, Next(c, s, steps[0]), steps[1..], id))
  }

  /** A sandbox comes into being watched and not forlorn. */
  lemma CareFirst(c: Consts, s: State, step: Step, id: Id)
    requires Inv(s) && id !in s.cells
    ensures WatchedIn(c, Next(c, s, step), id) && !ForlornIn(c, Next(c, s, step), id) && !LosesStart(c, s, step, id)
  {
    hide Next, Watched, Forlorn, Inv, CrewOf;
    NobodyAbout(s, id);
    NoCrew(s, id);
    if id in Next(c, s, step).cells {
      CrewBegins(c, s, step, id);
      CareBorn(c, Next(c, s, step), step.a, id);
      StillWaits(c, Next(c, s, step), step.a, id);
    }
  }

  lemma NoCrew(s: State, id: Id)
    requires forall a :: a in s.actors ==> !About(s.actors[a], id)
    ensures CrewOf(s, id) == map[]
  {
  }

  lemma StillWaits(c: Consts, s: State, a: nat, id: Id)
    requires exists key: Option<Key>, pool: Pool :: CrewOf(s, id) == map[a := CreateEnqueue(key, id, pool)]
    ensures !Forlorn(c, Get(s, id), CrewOf(s, id))
  {
    assert a in CrewOf(s, id) && IsMaker(CrewOf(s, id)[a]);
  }

  lemma {:induction false} CaredRun(c: Consts, s: State, steps: seq<Step>, id: Id)
    requires c.serial && c.maxTries > 0 && Inv(s) && SerialInv(s) && WatchedIn(c, s, id)
    ensures
      var t := Run(c, s, steps);
      && WatchedIn(c, t, id)
      && (Matches(Get(t, id).row, STARTABLE) ==>
            (ForlornIn(c, t, id) <==> ForlornIn(c, s, id) || StartLost(c, s, steps, id)))
    decreases |steps|
  {
    hide Next, Inv, SerialInv, Watched, Forlorn, LosesStart, CrewOf;
    if steps == [] {
    } else {
      var s' := Next(c, s, steps[0]);
      StepKeeps(c, s, steps[0]);
      SerialStep(c, s, steps[0]);
      if id in s.cells {
        CaredStep(c, s, steps[0], id);
      } else {
        CareFirst(c, s, steps[0], id);
      }
      CaredRun(c, s', steps[1..], id);
      RunKeeps(c, s', steps[1..]);
    }
  }

  /** Nobody is at work and nothing is queued. */
  ghost predicate Quiescent(s: State) {
    s.actors == map[] && forall id :: id in s.cells ==> s.cells[id].startJob.None? && s.cells[id].stopJob.None?
  }

  lemma InitCared(c: Consts, s: State, id: Id)
    requires Init(s)
    ensures Inv(s) && SerialInv(s) && WatchedIn(c, s, id)
    ensures !Matches(Get(s, id).row, STARTABLE)
  {
  }

  /** In serial runs, whatever goes wrong: a queued or starting sandbox is left without anybody to see
      to its start if and only if a process death of the run lost it. All other deaths, those of other
      sandboxes' handlers, of sweeps, DELETEs and stop runs, and of tries that are redelivered, do no
      harm, and neither do failed launches, removals and enqueues or dying containers. In particular,
      once everything is done, every start that was not lost has ended in `Running`, in `Failed`, or
      in a status that some other actor gave it. */
  lemma NothingGetsStuck(c: Consts, s0: State, steps: seq<Step>, id: Id)
    requires c.serial && c.maxTries > 0 && Init(s0)
    requires Matches(Get(Run(c, s0, steps), id).row, STARTABLE)
    ensures
      var t := Run(c, s0, steps);
      && (Forlorn(c, Get(t, id), CrewOf(t, id)) <==> StartLost(c, s0, steps, id))
      && (Quiescent(t) ==> StartLost(c, s0, steps, id))
  {
    hide Run, Next, Inv, SerialInv, StartLost;
    InitCared(c, s0, id);
    CaredRun(c, s0, steps, id);
    var t := Run(c, s0, steps);
    if id in s0.cells {
      InitRows(c, s0, steps, id);
    }
    if Quiescent(t) {
      assert CrewOf(t, id) == map[];
    }
  }

  /** Containers left behind by a lost database never get a row. */
  lemma InitRows(c: Consts, s0: State, steps: seq<Step>, id: Id)
    requires Init(s0) && id in s0.cells
    ensures Get(Run(c, s0, steps), id).row.None?
  {
    hide Next;
    InitHolds(s0);
    RunKeeps(c, s0, steps);
  }
}
