/** Start work is bounded: however often jobs are delivered, crash, are retried or duplicated, a
    sandbox sees a fixed number of launches and of handler steps, and one enqueued start job. */
module Budget {
  import opened Lifecycle
  import opened Protocol
  import opened Invariant
  import opened Locality
  import opened Crew
  import Care

  /** What is being counted about one sandbox. */
  datatype Gauge = Work | Launches | Enqueues

  /** How far a start run is from its end. */
  function Rank(pc: StartPc): nat {
    match pc
    case Read => 11
    case Claim => 10
    case Inspect => 9
    case Clear(_) => 8
    case Launch => 7
    case Probe(_) => 6
    case Promote(_) => 5
    case Undo => 4
    case Settle => 3
    case Drop => 2
    case Expire => 2
    case Finish(_) => 1
  }

  const FULL: nat := 12

  /** What is still to come from a run at `pc`. */
  function PcWeight(g: Gauge, pc: StartPc): nat {
    match g
    case Work => Rank(pc)
    case Launches => if pc.Read? || pc.Claim? || pc.Inspect? then 1 else 0
    case Enqueues => 0
  }

  function TriesLeft(c: Consts, job: Job): nat {
    if job.tries <= c.maxTries then c.maxTries - job.tries else 0
  }

  function JobWeight(c: Consts, g: Gauge, job: Option<Job>): nat {
    if job.None? then 0 else
    match g
    case Work => 1 + TriesLeft(c, job.value) * FULL
    case Launches => TriesLeft(c, job.value)
    case Enqueues => 0
  }

  /** What is to come from a sandbox that is still to be enqueued. */
  function NewWeight(c: Consts, g: Gauge): nat {
    match g
    case Work => 2 + c.maxTries * FULL
    case Launches => c.maxTries
    case Enqueues => 1
  }

  function ActorWeight(c: Consts, g: Gauge, actor: Actor): nat {
    match actor
    case CreateEnqueue(_, _, _) => NewWeight(c, g)
    case Start(_, _, pc) => PcWeight(g, pc)
    case _ => 0
  }

  function Sum(c: Consts, g: Gauge, crew: Crew, n: nat): nat {
    if n == 0 then 0
    else Sum(c, g, crew, n - 1) + (if n - 1 in crew then ActorWeight(c, g, crew[n - 1]) else 0)
  }

  function NextWeight(c: Consts, g: Gauge, next: Option<Actor>): nat {
    if next.Some? then ActorWeight(c, g, next.value) else 0
  }

  /** What may still happen to `id`: its budget. */
  function Potential(c: Consts, g: Gauge, s: State, id: Id): nat {
    if id !in s.cells then NewWeight(c, g)
    else JobWeight(c, g, Get(s, id).startJob) + Sum(c, g, CrewOf(s, id), s.next)
  }

  /** A step of a start run of `id`: picked up, advanced or killed. */
  predicate IsWork(s: State, step: Step, id: Id) {
    match step
    case Act(a, _) => a in s.actors && IsStart(s.actors[a], id)
    case Crash(a, _) => a in s.actors && IsStart(s.actors[a], id)
    case _ => false
  }

  /** What a step consumes. */
  function Charge(c: Consts, g: Gauge, s: State, step: Step, id: Id): nat {
    match g
    case Work =>
      if IsWork(s, step, id) || (step == PickStart(id) && Next(c, s, step) != s) then 1 else 0
    case Launches =>
      if step.Act? && IsWork(s, step, id) && s.actors[step.a].pc.Inspect? then 1 else 0
    case Enqueues =>
      if Get(s, id).startJob.None? && Get(Next(c, s, step), id).startJob.Some? then 1 else 0
  }

  // ---- Sums over a crew ----

  lemma {:induction false} SumMoved(c: Consts, g: Gauge, crew: Crew, a: nat, next: Option<Actor>, n: nat)
    requires a < n
    ensures Sum(c, g, Moved(crew, a, next), n) + (if a in crew then ActorWeight(c, g, crew[a]) else 0)
         == Sum(c, g, crew, n) + NextWeight(c, g, next)
  {
    if n - 1 == a {
      SumSame(c, g, crew, Moved(crew, a, next), n - 1);
    } else {
      SumMoved(c, g, crew, a, next, n - 1);
    }
  }

  lemma {:induction false} SumSame(c: Consts, g: Gauge, crew: Crew, crew': Crew, n: nat)
    requires forall b :: b < n ==> (b in crew <==> b in crew') && (b in crew ==> crew[b] == crew'[b])
    ensures Sum(c, g, crew, n) == Sum(c, g, crew', n)
  {
    if n == 0 {
    } else {
      SumSame(c, g, crew, crew', n - 1);
    }
  }

  lemma {:induction false} SumLonger(c: Consts, g: Gauge, crew: Crew, n: nat, m: nat)
    requires n <= m && forall b :: b in crew ==> b < n
    ensures Sum(c, g, crew, m) == Sum(c, g, crew, n)
    decreases m
  {
    if n == m {
    } else {
      SumLonger(c, g, crew, n, m - 1);
    }
  }

  lemma {:induction false} SumEmpty(c: Consts, g: Gauge, n: nat)
    ensures Sum(c, g, map[], n) == 0
  {
    if n == 0 {
    } else {
      SumEmpty(c, g, n - 1);
    }
  }

  // ---- Each step pays ----

  lemma OwnStepPays(c: Consts, g: Gauge, now: Time, cell: Cell, try: nat, pc: StartPc, choice: Choice)
    ensures
      var out := StepStart(c, now, cell, try, pc, choice);
      && (pc.Finish? ==> PcWeight(g, pc) >= (if g.Work? then 1 else 0))
      && (!pc.Finish? ==>
            out.cell.startJob == cell.startJob
            && PcWeight(g, out.pc) + (if g.Work? || (g.Launches? && pc.Inspect?) then 1 else 0) <= PcWeight(g, pc))
      && (pc.Finish? ==> out.cell.startJob == cell.startJob || out.cell.startJob.None?)
  {
  }

  lemma PickPays(c: Consts, g: Gauge, job: Job)
    requires job.tries < c.maxTries
    ensures JobWeight(c, g, Some(job.(tries := job.tries + 1))) + PcWeight(g, Read) + (if g.Work? then 1 else 0)
         <= JobWeight(c, g, Some(job))
  {
  }

  lemma CrewHandles(s: State, id: Id)
    requires Inv(s)
    ensures forall b :: b in CrewOf(s, id) ==> b < s.next
    ensures s.next !in CrewOf(s, id)
  {
  }

  lemma StartPays(c: Consts, g: Gauge, s: State, a: nat, choice: Choice, id: Id)
    requires Inv(s) && a in s.actors && IsStart(s.actors[a], id)
    ensures
      var step := Act(a, choice);
      Potential(c, g, Next(c, s, step), id) + Charge(c, g, s, step, id) <= Potential(c, g, s, id)
  {
    hide Next, CrewOf, CellsOk, IndexOk, StepStart, PcWeight, JobWeight, Rank;
    var x := s.actors[a];
    var step := Act(a, choice);
    var s' := Next(c, s, step);
    var out := StepStart(c, s.now, Get(s, id), x.try, x.pc, choice);
    var next := if x.pc.Finish? then None else Some(Start(id, x.try, out.pc));
    assert ActorOk(s, x) && Reached(s, id, 0);
    StepKeeps(c, s, step);
    StartMoves(c, s, a, choice, id);
    OwnStepPays(c, g, s.now, Get(s, id), x.try, x.pc, choice);
    CrewHandles(s, id);
    CrewHandles(s', id);
    Care.InCrew(s, a, id);
    SumMoved(c, g, CrewOf(s, id), a, next, s.next);
    SumLonger(c, g, CrewOf(s', id), s.next, s'.next) by { MovedHandles(CrewOf(s, id), a, next, s.next); }
    NoJobWeighsNothing(c, g);
  }

  lemma MovedHandles(crew: Crew, a: nat, next: Option<Actor>, n: nat)
    requires a < n && forall b :: b in crew ==> b < n
    ensures forall b :: b in Moved(crew, a, next) ==> b < n
  {
  }

  lemma NoJobWeighsNothing(c: Consts, g: Gauge)
    ensures JobWeight(c, g, None) == 0
  {
  }

  /** A crew member that is no start work moves, and the job stays. */
  lemma FreeMove(c: Consts, g: Gauge, s: State, s': State, a: nat, next: Option<Actor>, id: Id)
    requires Inv(s) && Inv(s') && id in s.cells && id in s'.cells && s.next <= s'.next && a < s'.next
    requires CrewOf(s', id) == Moved(CrewOf(s, id), a, next)
    requires NextWeight(c, g, next) == 0
    requires JobWeight(c, g, Get(s', id).startJob) <= JobWeight(c, g, Get(s, id).startJob)
    ensures Potential(c, g, s', id) <= Potential(c, g, s, id)
  {
    hide Next, CrewOf, Inv, JobWeight, NextWeight;
    CrewHandles(s, id);
    SumMoved(c, g, CrewOf(s, id), a, next, s'.next);
    SumLonger(c, g, CrewOf(s, id), s.next, s'.next);
  }

  lemma FreeStay(c: Consts, g: Gauge, s: State, s': State, id: Id)
    requires Inv(s) && Inv(s') && id in s.cells && id in s'.cells && s.next <= s'.next
    requires CrewOf(s', id) == CrewOf(s, id) && Get(s', id).startJob == Get(s, id).startJob
    ensures Potential(c, g, s', id) == Potential(c, g, s, id)
  {
    hide CrewOf, Inv, JobWeight;
    CrewHandles(s, id);
    SumLonger(c, g, CrewOf(s, id), s.next, s'.next);
  }

  lemma KeptJobCharges(c: Consts, g: Gauge, s: State, step: Step, id: Id)
    requires Get(Next(c, s, step), id).startJob == Get(s, id).startJob || Get(Next(c, s, step), id).startJob.None?
    requires !IsWork(s, step, id) && step != PickStart(id)
    ensures Charge(c, g, s, step, id) == 0
  {
    hide Next;
  }

  lemma StillThere(c: Consts, s: State, step: Step, id: Id)
    requires Inv(s) && id in s.cells
    ensures
      var s' := Next(c, s, step);
      Inv(s') && id in s'.cells && s.next <= s'.next && s.next !in s.actors
  {
    hide Next;
    StepKeeps(c, s, step);
  }

  lemma EnqueuePays(c: Consts, g: Gauge, s: State, a: nat, choice: Choice, id: Id)
    requires Inv(s) && id in s.cells && a in s.actors && s.actors[a].CreateEnqueue? && s.actors[a].id == id
    ensures
      var step := Act(a, choice);
      Potential(c, g, Next(c, s, step), id) + Charge(c, g, s, step, id) <= Potential(c, g, s, id)
  {
    hide Next, CrewOf, CellsOk, IndexOk, ActorOk;
    var step := Act(a, choice);
    var s' := Next(c, s, step);
    var crew := CrewOf(s, id);
    StillThere(c, s, step, id);
    EnqueueMoves(c, s, a, choice, id);
    CrewHandles(s, id);
    Care.InCrew(s, a, id);
    if choice.Ok? || choice.Fail? || choice.FailLanded? {
      var next := if choice.Ok? then None else Some(CreateFail(id));
      assert CrewOf(s', id) == Moved(crew, a, next);
      SumMoved(c, g, crew, a, next, s.next);
      MovedHandles(crew, a, next, s.next);
      SumLonger(c, g, CrewOf(s', id), s.next, s'.next);
    } else {
      FreeStay(c, g, s, s', id);
    }
  }

  lemma OthersPay(c: Consts, g: Gauge, s: State, a: nat, choice: Choice, id: Id)
    requires Inv(s) && id in s.cells && a in s.actors
    requires !IsStart(s.actors[a], id) && !(s.actors[a].CreateEnqueue? && s.actors[a].id == id)
    ensures
      var step := Act(a, choice);
      Potential(c, g, Next(c, s, step), id) + Charge(c, g, s, step, id) <= Potential(c, g, s, id)
  {
    hide Next, CrewOf, CellsOk, IndexOk, SweepOk, StepStop, StepDelete;
    var x := s.actors[a];
    var step := Act(a, choice);
    var s' := Next(c, s, step);
    StillThere(c, s, step, id);
    assert ActorOk(s, x);
    if About(x, id) {
      if x.Stop? {
        StopMoves(c, s, a, choice, id);
        Care.OthersKeepStartJob(c, s, a, choice, id);
        FreeMove(c, g, s, s', a,
                 if x.spc.StopFinish? then None
                 else Some(Stop(id, x.try, StepStop(c, Get(s, id), x.try, x.spc, choice).pc)), id);
      } else if IsDelete(x) {
        DeleteMoves(c, s, a, choice, id);
        DeleteStays(Get(s, id), x, choice);
        Care.OthersKeepStartJob(c, s, a, choice, id);
        FreeMove(c, g, s, s', a, StepDelete(Get(s, id), x, choice).next, id);
      } else {
        FailMoves(c, s, a, choice, id);
        FreeMove(c, g, s, s', a, None, id);
      }
    } else {
      ElsewhereSame(c, s, a, choice, id);
      if x.Sweep? {
        Care.OthersKeepStartJob(c, s, a, choice, id);
      }
      FreeStay(c, g, s, s', id);
    }
    KeptJobCharges(c, g, s, step, id);
  }

  lemma CrashPays(c: Consts, g: Gauge, s: State, a: nat, redeliver: bool, id: Id)
    requires Inv(s) && id in s.cells
    ensures
      var step := Crash(a, redeliver);
      Potential(c, g, Next(c, s, step), id) + Charge(c, g, s, step, id) <= Potential(c, g, s, id)
  {
    hide CrewOf, CellsOk, IndexOk, ActorOk, StepCrash;
    var step := Crash(a, redeliver);
    var s' := Next(c, s, step);
    if a in s.actors {
      StillThere(c, s, step, id);
      CrashMoves(c, s, a, redeliver, id);
      CrewHandles(s, id);
      SumMoved(c, g, CrewOf(s, id), a, None, s.next);
      MovedHandles(CrewOf(s, id), a, None, s.next);
      SumLonger(c, g, CrewOf(s', id), s.next, s'.next);
      if IsStart(s.actors[a], id) {
        Care.InCrew(s, a, id);
      }
    }
  }

  lemma PickStartPays(c: Consts, g: Gauge, s: State, id: Id)
    requires Inv(s) && id in s.cells
    ensures
      var step := PickStart(id);
      Potential(c, g, Next(c, s, step), id) + Charge(c, g, s, step, id) <= Potential(c, g, s, id)
  {
    hide Next, CrewOf, CellsOk, IndexOk, ActorOk, StartInFlight;
    var step := PickStart(id);
    var s' := Next(c, s, step);
    StillThere(c, s, step, id);
    StartBegins(c, s, id);
    CrewHandles(s, id);
    if Get(s', id) == Get(s, id) {
      NoPick(c, s, id);
    } else if CrewOf(s', id) == CrewOf(s, id) {
      SumLonger(c, g, CrewOf(s, id), s.next, s'.next);
    } else {
      var job := Get(s, id).startJob.value;
      var next := Some(Start(id, job.tries + 1, Read));
      PickPays(c, g, job);
      PickNext(c, s, id);
      SumMoved(c, g, CrewOf(s, id), s.next, next, s.next + 1);
      SumLonger(c, g, CrewOf(s, id), s.next, s.next + 1);
    }
  }

  /** Picking up changes the job, or nothing happens. */
  lemma NoPick(c: Consts, s: State, id: Id)
    requires Get(Next(c, s, PickStart(id)), id) == Get(s, id)
    ensures Next(c, s, PickStart(id)) == s
  {
    hide StartInFlight;
  }

  lemma PickNext(c: Consts, s: State, id: Id)
    ensures
      var s' := Next(c, s, PickStart(id));
      s'.next == s.next || s'.next == s.next + 1
    ensures
      var s' := Next(c, s, PickStart(id));
      s.next !in s.actors && s.next in s'.actors ==> s'.next == s.next + 1
  {
    hide StartInFlight;
  }

  lemma BeginPays(c: Consts, g: Gauge, s: State, step: Step, id: Id)
    requires Inv(s) && id in s.cells && !step.Act? && !step.Crash? && step != PickStart(id)
    ensures Potential(c, g, Next(c, s, step), id) + Charge(c, g, s, step, id) <= Potential(c, g, s, id)
  {
    hide Next, CrewOf, CellsOk, IndexOk, ActorOk, StartInFlight, StopInFlight;
    var s' := Next(c, s, step);
    StillThere(c, s, step, id);
    match step {
      case BoxDies(_) => Care.BoxMoves(c, s, step, id); FreeStay(c, g, s, s', id);
      case BoxExits(_) => Care.BoxMoves(c, s, step, id); FreeStay(c, g, s, s', id);
      case PickStop(j) =>
        if j == id {
          StopBegins(c, s, id);
          if CrewOf(s', id) == CrewOf(s, id) {
            FreeStay(c, g, s, s', id);
          } else {
            CrewHandles(s', id);
            FreeMove(c, g, s, s', s.next, Some(Stop(id, Get(s, id).stopJob.value.tries + 1, Remove)), id);
          }
        } else {
          BeginElse(c, s, step, id);
          FreeStay(c, g, s, s', id);
        }
      case DeleteBegin(j) =>
        if j == id {
          DeleteBegins(c, s, id);
          if CrewOf(s', id) == CrewOf(s, id) {
            FreeStay(c, g, s, s', id);
          } else {
            CrewHandles(s', id);
            FreeMove(c, g, s, s', s.next, Some(DeleteCas(id)), id);
          }
        } else {
          BeginElse(c, s, step, id);
          FreeStay(c, g, s, s', id);
        }
      case _ => BeginElse(c, s, step, id); FreeStay(c, g, s, s', id);
    }
    KeptJobCharges(c, g, s, step, id);
  }

  lemma UnbornPays(c: Consts, g: Gauge, s: State, step: Step, id: Id)
    requires Inv(s) && id !in s.cells
    ensures Potential(c, g, Next(c, s, step), id) + Charge(c, g, s, step, id) <= Potential(c, g, s, id)
  {
    hide Next, CrewOf, CellsOk, IndexOk, ActorOk;
    var s' := Next(c, s, step);
    StepKeeps(c, s, step);
    NobodyAbout(s, id);
    assert !IsWork(s, step, id);
    UnknownPick(c, s, id);
    if id in s'.cells {
      CrewBegins(c, s, step, id);
      CrewHandles(s', id);
      var crew := CrewOf(s', id);
      var a := step.a;
      assert a in crew && crew[a].CreateEnqueue?;
      SumMoved(c, g, map[], a, Some(crew[a]), s'.next);
      SumEmpty(c, g, s'.next);
      assert crew == Moved(map[], a, Some(crew[a]));
    }
  }

  lemma UnknownPick(c: Consts, s: State, id: Id)
    requires id !in s.cells
    ensures Next(c, s, PickStart(id)) == s
  {
  }

  /** Whatever happens, under any regime: start work on a sandbox is paid for out of its budget,
      and nothing ever adds to the budget. In particular every step of a start run, a crash and a
      redelivery included, brings the end of the work strictly nearer. */
  lemma StepPays(c: Consts, g: Gauge, s: State, step: Step, id: Id)
    requires Inv(s)
    ensures Potential(c, g, Next(c, s, step), id) + Charge(c, g, s, step, id) <= Potential(c, g, s, id)
  {
    hide Next, Inv, Potential, Charge;
    if id !in s.cells {
      UnbornPays(c, g, s, step, id);
    } else {
      match step {
        case Act(a, choice) =>
          if a !in s.actors {
            IdlePays(c, g, s, step, id);
          } else if IsStart(s.actors[a], id) {
            StartPays(c, g, s, a, choice, id);
          } else if s.actors[a].CreateEnqueue? && s.actors[a].id == id {
            EnqueuePays(c, g, s, a, choice, id);
          } else {
            OthersPay(c, g, s, a, choice, id);
          }
        case Crash(a, redeliver) => CrashPays(c, g, s, a, redeliver, id);
        case PickStart(j) =>
          if j == id {
            PickStartPays(c, g, s, id);
          } else {
            BeginPays(c, g, s, step, id);
          }
        case _ => BeginPays(c, g, s, step, id);
      }
    }
  }

  lemma IdlePays(c: Consts, g: Gauge, s: State, step: Step, id: Id)
    requires step.Act? && step.a !in s.actors
    ensures Potential(c, g, Next(c, s, step), id) + Charge(c, g, s, step, id) <= Potential(c, g, s, id)
  {
  }

  // ---- Whole runs ----

  /** How often the gauge is charged for `id` in a run. */
  function Total(c: Consts, g: Gauge, s: State, steps: seq<Step>, id: Id): nat
    decreases |steps|
  {
    if steps == [] then 0
    else Charge(c, g, s, steps[0], id) + Total(c, g, Next(c, s, steps[0]), steps[1..], id)
  }

  lemma {:induction false} RunPays(c: Consts, g: Gauge, s: State, steps: seq<Step>, id: Id)
    requires Inv(s)
    ensures Total(c, g, s, steps, id) + Potential(c, g, Run(c, s, steps), id) <= Potential(c, g, s, id)
    decreases |steps|
  {
    hide Next, Inv, Potential, Charge;
    if steps == [] {
    } else {
      StepPays(c, g, s, steps[0], id);
      StepKeeps(c, s, steps[0]);
      RunPays(c, g, Next(c, s, steps[0]), steps[1..], id);
    }
  }

  /** In every run, however often its job is delivered, duplicated, crashed and retried, a sandbox
      is launched at most `job_max_tries` times, its start job is enqueued at most once, and its
      start runs take a bounded number of steps. */
  lemma StartWorkIsBounded(c: Consts, s0: State, steps: seq<Step>, id: Id)
    requires Init(s0)
    ensures Total(c, Launches, s0, steps, id) <= c.maxTries
    ensures Total(c, Enqueues, s0, steps, id) <= 1
    ensures Total(c, Work, s0, steps, id) <= 2 + c.maxTries * FULL
  {
    hide Next, Charge, Run, Total;
    InitHolds(s0);
    InitPotential(c, Launches, s0, id);
    InitPotential(c, Enqueues, s0, id);
    InitPotential(c, Work, s0, id);
    RunPays(c, Launches, s0, steps, id);
    RunPays(c, Enqueues, s0, steps, id);
    RunPays(c, Work, s0, steps, id);
  }

  lemma InitPotential(c: Consts, g: Gauge, s0: State, id: Id)
    requires Init(s0)
    ensures Potential(c, g, s0, id) <= NewWeight(c, g)
  {
    if id in s0.cells {
      assert CrewOf(s0, id) == map[];
      SumEmpty(c, g, s0.next);
    }
  }
}
