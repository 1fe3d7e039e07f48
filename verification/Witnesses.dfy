/** Runs that show where the guarantees end: each is a concrete sequence of steps from an empty
    service. */
module Witnesses {
  import opened Lifecycle
  import opened Protocol
  import opened SweepSpec
  import opened Invariant
  import opened Outcomes
  import WorkerCode
  import RoutesCode
  import Care

  const ZERO := Tally(0, 0, 0, 0, 0, 0, 0)
  const EMPTY := State(map[], map[], map[], 0, 0, ZERO, map[])

  /** A service that knows the one sandbox 0. `calm` says that no process has died on the way. */
  datatype Scene = Scene(
    cell: Cell,
    actors: map<nat, Actor>,
    next: nat,
    now: Time,
    tally: Tally,
    replies: map<nat, Reply>,
    calm: bool)

  function World(x: Scene): State {
    State(map[0 := x.cell], map[], x.actors, x.next, x.now, x.tally, x.replies)
  }

  const TTL := 10

  function TheRow(status: Status, attempts: nat): Row {
    Row(status, None, None, attempts, Stable, TTL * SECOND, None)
  }

  /** `steps` lead from an empty service to `x`, and no container dies on the way. */
  ghost predicate Leads(c: Consts, steps: seq<Step>, x: Scene) {
    && Run(c, EMPTY, steps) == World(x)
    && (forall i :: 0 <= i < |steps| ==> !steps[i].BoxDies? && (x.calm ==> !steps[i].Crash?))
  }

  lemma Then(c: Consts, steps: seq<Step>, x: Scene, step: Step, y: Scene)
    requires Leads(c, steps, x) && Next(c, World(x), step) == World(y) && !step.BoxDies?
    requires y.calm ==> x.calm && !step.Crash?
    ensures Leads(c, steps + [step], y)
  {
    hide Next;
    RunSnoc(c, EMPTY, steps, step);
  }

  lemma LeadsTo(c: Consts, steps: seq<Step>, x: Scene)
    requires Leads(c, steps, x)
    ensures Run(c, EMPTY, steps) == World(x)
    ensures forall i :: 0 <= i < |steps| ==> !steps[i].BoxDies? && (x.calm ==> !steps[i].Crash?)
  {
  }

  // ---- One step of one actor on the one sandbox ----

  /** The scene after the start run `a` went from `pc` to `out`. */
  function After(x: Scene, a: nat, try: nat, out: StartOut): Scene {
    x.(cell := out.cell, actors := x.actors[a := Start(0, try, out.pc)], tally := Noted(x.tally, out.note))
  }

  lemma StartMoves(c: Consts, steps: seq<Step>, x: Scene, a: nat, try: nat, pc: StartPc, choice: Choice, out: StartOut)
    requires Leads(c, steps, x) && a in x.actors && x.actors[a] == Start(0, try, pc) && !pc.Finish?
    requires StepStart(c, x.now, x.cell, try, pc, choice) == out
    ensures Leads(c, steps + [Act(a, choice)], After(x, a, try, out))
  {
    hide Next, StepStart, Noted, Leads;
    WorkerCode.StartNext(c, World(x), a, choice);
    assert World(After(x, a, try, out)).cells == World(x).cells[0 := out.cell];
    Then(c, steps, x, Act(a, choice), After(x, a, try, out));
  }

  /** A delivery of the start job is picked up. */
  function Picked(x: Scene): Scene
    requires x.cell.startJob.Some?
  {
    var job := x.cell.startJob.value.(tries := x.cell.startJob.value.tries + 1);
    x.(cell := x.cell.(startJob := Some(job)), actors := x.actors[x.next := Start(0, job.tries, Read)], next := x.next + 1)
  }

  lemma PickMoves(c: Consts, steps: seq<Step>, x: Scene)
    requires Leads(c, steps, x) && x.cell.startJob.Some? && x.cell.startJob.value.tries < c.maxTries
    requires c.serial ==> forall a :: a in x.actors ==> !IsStart(x.actors[a], 0)
    ensures Leads(c, steps + [PickStart(0)], Picked(x))
  {
    hide Leads;
    assert World(Picked(x)).cells == World(x).cells[0 := Picked(x).cell];
    Then(c, steps, x, PickStart(0), Picked(x));
  }

  /** The queue takes note that a run is over. */
  lemma FinishMoves(c: Consts, steps: seq<Step>, x: Scene, a: nat, try: nat, again: bool)
    requires Leads(c, steps, x) && a in x.actors && x.actors[a] == Start(0, try, Finish(again))
    ensures
      Leads(c, steps + [Act(a, Ok)],
            x.(cell := if again then x.cell else x.cell.(startJob := None), actors := x.actors - {a}))
  {
    hide Leads;
    var y := x.(cell := if again then x.cell else x.cell.(startJob := None), actors := x.actors - {a});
    assert World(y).cells == World(x).cells[0 := y.cell];
    assert Noted(x.tally, Quiet) == x.tally;
    Then(c, steps, x, Act(a, Ok), y);
  }

  const NEW_ROW := TheRow(Queued, 0)
  const INSERTED := Scene(NOBODY.(row := Some(NEW_ROW)), map[0 := CreateEnqueue(None, 0, Stable)], 1, 0, ZERO, map[], true)

  lemma Admitted(c: Consts)
    requires c.maxActive >= 1
    ensures Next(c, Next(c, EMPTY, CreateBegin(None, TTL)), Act(0, Ok)) ==
            EMPTY.(actors := map[0 := CreateRoute(None, TTL)], next := 1)
  {
    hide Next;
    RoutesCode.CreateBegins(c, EMPTY, None, TTL);
    var s1 := EMPTY.(actors := map[0 := CreateCount(None, TTL)], next := 1);
    assert ActiveIds(map[]) == {};
    hide ActiveIds;
    RoutesCode.CreateNext(c, s1, 0, Ok);
    assert s1.actors[0 := CreateRoute(None, TTL)] == map[0 := CreateRoute(None, TTL)];
  }

  /** A create request up to the enqueue. */
  lemma Inserted(c: Consts) returns (steps: seq<Step>)
    requires c.maxActive >= 1
    ensures Leads(c, steps, INSERTED)
  {
    hide Next, ActiveIds, Run;
    steps := [CreateBegin(None, TTL), Act(0, Ok), Act(0, Via(Stable)), Act(0, Pick(0))];
    Admitted(c);
    var s2 := EMPTY.(actors := map[0 := CreateRoute(None, TTL)], next := 1);
    var s3 := EMPTY.(actors := map[0 := CreateInsert(None, TTL * SECOND, Stable)], next := 1);
    RoutesCode.CreateNext(c, s2, 0, Via(Stable));
    assert s2.actors[0 := CreateInsert(None, TTL * SECOND, Stable)] == s3.actors;
    RoutesCode.CreateNext(c, s3, 0, Pick(0));
    assert s3.actors[0 := CreateEnqueue(None, 0, Stable)] == INSERTED.actors;
    assert World(INSERTED).cells == s3.cells[0 := INSERTED.cell];
    FourSteps(c, EMPTY, steps);
  }

  lemma FourSteps(c: Consts, s: State, steps: seq<Step>)
    requires |steps| == 4
    ensures Run(c, s, steps) == Next(c, Next(c, Next(c, Next(c, s, steps[0]), steps[1]), steps[2]), steps[3])
  {
    hide Next;
    var s1 := Next(c, s, steps[0]);
    var s2 := Next(c, s1, steps[1]);
    var s3 := Next(c, s2, steps[2]);
    assert Run(c, s, steps) == Run(c, s1, steps[1..]);
    assert steps[1..][0] == steps[1] && steps[1..][1..] == steps[2..];
    assert Run(c, s1, steps[1..]) == Run(c, s2, steps[2..]);
    assert steps[2..][0] == steps[2] && steps[2..][1..] == steps[3..];
    assert Run(c, s2, steps[2..]) == Run(c, s3, steps[3..]);
    assert steps[3..] == [steps[3]];
    assert Run(c, s3, [steps[3]]) == Run(c, Next(c, s3, steps[3]), []);
  }

  const CREATED :=
    Scene(Cell(Some(NEW_ROW), None, Some(Job(Stable, 0)), None), map[], 1, 0, ZERO, map[0 := Accepted(None, 0)], true)

  lemma Created(c: Consts) returns (steps: seq<Step>)
    requires c.maxActive >= 1
    ensures Leads(c, steps, CREATED)
  {
    steps := Inserted(c);
    hide Next, Leads;
    RoutesCode.CreateNext(c, World(INSERTED), 0, Ok);
    assert World(CREATED).cells == World(INSERTED).cells[0 := CREATED.cell];
    Then(c, steps, INSERTED, Act(0, Ok), CREATED);
    steps := steps + [Act(0, Ok)];
  }

  // ---- A start run alone ----

  function Claimed(x: Scene, try: nat): Cell
    requires x.cell.row.Some?
  {
    x.cell.(row := Some(x.cell.row.value.(status := Starting, attempts := try)))
  }

  predicate MayStart(x: Scene) {
    Matches(x.cell.row, STARTABLE) && x.now < x.cell.row.value.expiresAt
  }

  /** From the pickup to the launch. */
  lemma ClaimsAlone(c: Consts, steps: seq<Step>, x: Scene, a: nat, try: nat) returns (more: seq<Step>, y: Scene)
    requires Leads(c, steps, x) && a in x.actors && x.actors[a] == Start(0, try, Read) && MayStart(x)
    ensures steps <= more
    ensures Leads(c, more, y)
    ensures y == x.(cell := Claimed(x, try), actors := x.actors[a := Start(0, try, Inspect)])
  {
    hide Leads;
    var out := StartOut(x.cell, Claim, Quiet);
    StartMoves(c, steps, x, a, try, Read, Ok, out);
    y, more := After(x, a, try, out), steps + [Act(a, Ok)];
    out := StartOut(Claimed(x, try), Inspect, Quiet);
    StartMoves(c, more, y, a, try, Claim, Ok, out);
    y, more := After(y, a, try, out), more + [Act(a, Ok)];
    assert y.actors == x.actors[a := Start(0, try, Inspect)];
  }

  /** From the launch to the promotion that comes next. */
  lemma LaunchesAlone(c: Consts, steps: seq<Step>, x: Scene, a: nat, try: nat) returns (more: seq<Step>, y: Scene)
    requires Leads(c, steps, x) && a in x.actors && x.actors[a] == Start(0, try, Inspect)
    requires x.cell.box.None? && x.cell.row.Some?
    ensures steps <= more
    ensures Leads(c, more, y)
    ensures y == x.(cell := x.cell.(box := Some(Box(Label(x.cell.row.value.expiresAt), true, 80))),
                    actors := x.actors[a := Start(0, try, Promote(80))])
  {
    hide Leads, Label;
    var out := StartOut(x.cell, Launch, Quiet);
    StartMoves(c, steps, x, a, try, Inspect, Ok, out);
    y, more := After(x, a, try, out), steps + [Act(a, Ok)];
    out := StartOut(x.cell.(box := Some(Box(Label(x.cell.row.value.expiresAt), true, 80))), Probe(80), Quiet);
    StartMoves(c, more, y, a, try, Launch, Publish(80), out);
    y, more := After(y, a, try, out), more + [Act(a, Publish(80))];
    out := out.(pc := Promote(80));
    StartMoves(c, more, y, a, try, Probe(80), Ok, out);
    y, more := After(y, a, try, out), more + [Act(a, Ok)];
    assert y.actors == x.actors[a := Start(0, try, Promote(80))];
  }

  function Promoted(cell: Cell): Cell
    requires cell.row.Some?
  {
    cell.(row := Some(cell.row.value.(status := Running, url := Some(80), error := None)))
  }

  lemma Promotes(c: Consts, steps: seq<Step>, x: Scene, a: nat, try: nat) returns (more: seq<Step>, y: Scene)
    requires Leads(c, steps, x) && a in x.actors && x.actors[a] == Start(0, try, Promote(80)) && Matches(x.cell.row, {Starting})
    ensures steps <= more
    ensures Leads(c, more, y) && y.cell == Promoted(x.cell)
    ensures y == After(x, a, try, StartOut(Promoted(x.cell), Finish(false), Success))
  {
    hide Leads;
    var out := StartOut(Promoted(x.cell), Finish(false), Success);
    StartMoves(c, steps, x, a, try, Promote(80), Ok, out);
    y, more := After(x, a, try, out), steps + [Act(a, Ok)];
  }

  // ---- Failing tries ----

  /** The job waits for its next delivery after `n` tries that failed; nobody is at work. */
  predicate Waits(x: Scene, n: nat) {
    && x.cell == Cell(x.cell.row, None, Some(Job(Stable, n)), None)
    && Matches(x.cell.row, {Queued}) && x.cell.row.value.expiresAt == TTL * SECOND
    && x.actors == map[] && x.now == 0 && x.tally.failed == 0 && x.calm
  }

  /** A try whose launch fails takes the container away. */
  lemma Undoes(c: Consts, steps: seq<Step>, x: Scene, a: nat, try: nat) returns (more: seq<Step>, y: Scene)
    requires Leads(c, steps, x) && a in x.actors && x.actors[a] == Start(0, try, Inspect)
    ensures steps <= more
    ensures Leads(c, more, y) && y == x.(cell := x.cell.(box := None), actors := x.actors[a := Start(0, try, Settle)])
  {
    hide Leads;
    var out := StartOut(x.cell, Undo, Quiet);
    StartMoves(c, steps, x, a, try, Inspect, Fail, out);
    y, more := After(x, a, try, out), steps + [Act(a, Fail)];
    out := StartOut(x.cell.(box := None), Settle, Quiet);
    StartMoves(c, more, y, a, try, Undo, Ok, out);
    y, more := After(y, a, try, out), more + [Act(a, Ok)];
    assert y.actors == x.actors[a := Start(0, try, Settle)];
  }

  function Requeued(cell: Cell): Cell {
    cell.(row := SetFailure(cell.row, {Starting}, Queued, LaunchFailed))
  }

  /** A failed try with others to come puts the row back into the queue. */
  lemma Requeues(c: Consts, steps: seq<Step>, x: Scene, a: nat, try: nat) returns (more: seq<Step>, y: Scene)
    requires Leads(c, steps, x) && a in x.actors && x.actors[a] == Start(0, try, Settle)
    requires try < c.maxTries && Matches(x.cell.row, {Starting})
    ensures steps <= more && Leads(c, more, y)
    ensures y == After(x, a, try, StartOut(Requeued(x.cell), Finish(true), Retry))
  {
    hide Leads;
    var out := StartOut(Requeued(x.cell), Finish(true), Retry);
    StartMoves(c, steps, x, a, try, Settle, Ok, out);
    y, more := After(x, a, try, out), steps + [Act(a, Ok)];
  }

  /** The last try settles, and the row is not its own any more. */
  lemma GivesUp(c: Consts, steps: seq<Step>, x: Scene, a: nat, try: nat) returns (more: seq<Step>, y: Scene)
    requires Leads(c, steps, x) && a in x.actors && x.actors[a] == Start(0, try, Settle)
    requires try >= c.maxTries && !Matches(x.cell.row, {Starting})
    ensures more == steps + [Act(a, Ok)] && Leads(c, more, y)
    ensures y == After(x, a, try, StartOut(x.cell, Finish(false), Failure))
  {
    hide Leads;
    var out := StartOut(x.cell, Finish(false), Failure);
    StartMoves(c, steps, x, a, try, Settle, Ok, out);
    y, more := After(x, a, try, out), steps + [Act(a, Ok)];
  }

  lemma RetriesOnce(c: Consts, steps: seq<Step>, x: Scene, n: nat) returns (more: seq<Step>, y: Scene)
    requires Leads(c, steps, x) && Waits(x, n) && n + 1 < c.maxTries
    ensures Leads(c, more, y) && Waits(y, n + 1)
  {
    hide Leads;
    var a := x.next;
    PickMoves(c, steps, x);
    y, more := Picked(x), steps + [PickStart(0)];
    more, y := ClaimsAlone(c, more, y, a, n + 1);
    more, y := Undoes(c, more, y, a, n + 1);
    more, y := Requeues(c, more, y, a, n + 1);
    FinishMoves(c, more, y, a, n + 1, true);
    y, more := y.(actors := y.actors - {a}), more + [Act(a, Ok)];
    assert y.actors == map[];
  }

  /** Any number of failing tries, as long as one is left. */
  lemma {:induction false} Retries(c: Consts, n: nat) returns (steps: seq<Step>, x: Scene)
    requires n < c.maxTries && c.maxActive >= 1
    ensures Leads(c, steps, x) && Waits(x, n)
    decreases n
  {
    hide Leads;
    if n == 0 {
      steps := Created(c);
      x := CREATED;
    } else {
      steps, x := Retries(c, n - 1);
      steps, x := RetriesOnce(c, steps, x, n - 1);
    }
  }

  // ---- Overlapping deliveries ----

  /** Two deliveries of the start job, picked up one after the other. */
  lemma PickedTwice(c: Consts) returns (steps: seq<Step>, x: Scene)
    requires !c.serial && c.maxTries >= 2 && c.maxActive >= 1
    ensures Leads(c, steps, x) && x.cell.row == Some(NEW_ROW) && x.cell.box.None? && x.now == 0
    ensures 1 in x.actors && x.actors[1] == Start(0, 1, Read) && 2 in x.actors && x.actors[2] == Start(0, 2, Read)
  {
    steps := Created(c);
    hide Leads;
    PickMoves(c, steps, CREATED);
    x, steps := Picked(CREATED), steps + [PickStart(0)];
    PickMoves(c, steps, x);
    x, steps := Picked(x), steps + [PickStart(0)];
  }

  /** With overlapping deliveries a sandbox can be running without a container although its time has
      not come and no container ever died: one try discards the container that another is about to
      promote. This is why the guarantees about running rows need the serial regime. */
  lemma OverlapBreaksRunning(c: Consts) returns (steps: seq<Step>)
    requires !c.serial && c.maxTries >= 2 && c.maxActive >= 1
    ensures
      var s := Run(c, EMPTY, steps);
      && Matches(Get(s, 0).row, {Running}) && Get(s, 0).box.None? && s.now < Label(Get(s, 0).row.value.expiresAt)
      && forall i :: 0 <= i < |steps| ==> !steps[i].BoxDies?
  {
    hide Leads;
    var x;
    steps, x := PickedTwice(c);
    steps, x := ClaimsAlone(c, steps, x, 1, 1);
    steps, x := LaunchesAlone(c, steps, x, 1, 1);
    steps, x := ClaimsAlone(c, steps, x, 2, 2);
    steps, x := Undoes(c, steps, x, 2, 2);
    steps, x := Promotes(c, steps, x, 1, 1);
    LeadsTo(c, steps, x);
  }

  /** The last two tries in flight at once, both past their claim. */
  lemma LastTwoTries(c: Consts) returns (steps: seq<Step>, x: Scene, a: nat)
    requires !c.serial && c.maxTries >= 2 && c.maxActive >= 1
    ensures Leads(c, steps, x) && x.calm
    ensures x.cell == Cell(x.cell.row, None, Some(Job(Stable, c.maxTries)), None) && Matches(x.cell.row, {Starting})
    ensures x.actors == map[a := Start(0, c.maxTries - 1, Inspect), a + 1 := Start(0, c.maxTries, Inspect)]
  {
    hide Leads;
    steps, x := Retries(c, c.maxTries - 2);
    a := x.next;
    PickMoves(c, steps, x);
    x, steps := Picked(x), steps + [PickStart(0)];
    PickMoves(c, steps, x);
    x, steps := Picked(x), steps + [PickStart(0)];
    steps, x := ClaimsAlone(c, steps, x, a, c.maxTries - 1);
    steps, x := ClaimsAlone(c, steps, x, a + 1, c.maxTries);
  }

  /** With overlapping deliveries a sandbox can get stuck although no process died: the try before the
      last requeues the row, so the last one does not find it `Starting` and gives up the job without
      settling the row. This is why `NothingGetsStuck` needs the serial regime. */
  lemma OverlapStrandsQueued(c: Consts) returns (steps: seq<Step>)
    requires !c.serial && c.maxTries >= 2 && c.maxActive >= 1
    ensures
      var s := Run(c, EMPTY, steps);
      && Care.Quiescent(s) && Matches(Get(s, 0).row, {Queued})
      && (forall t: Time :: Swept(s.cells, t) == s.cells)
      && forall i :: 0 <= i < |steps| ==> !steps[i].Crash? && !steps[i].BoxDies?
  {
    hide Leads;
    var x, a;
    steps, x, a := LastTwoTries(c);
    steps, x := Undoes(c, steps, x, a, c.maxTries - 1);
    steps, x := Requeues(c, steps, x, a, c.maxTries - 1);
    steps, x := Undoes(c, steps, x, a + 1, c.maxTries);
    steps, x := GivesUp(c, steps, x, a + 1, c.maxTries);
    steps, x := BothEnd(c, steps, x, a);
    LeadsTo(c, steps, x);
    StaysAsItIs(x);
  }

  lemma BothEnd(c: Consts, steps: seq<Step>, x: Scene, a: nat) returns (more: seq<Step>, y: Scene)
    requires Leads(c, steps, x) && x.actors.Keys == {a, a + 1} && c.maxTries >= 1
    requires x.actors[a] == Start(0, c.maxTries - 1, Finish(true))
    requires x.actors[a + 1] == Start(0, c.maxTries, Finish(false))
    ensures Leads(c, more, y) && y == x.(cell := x.cell.(startJob := None), actors := map[])
  {
    hide Leads;
    FinishMoves(c, steps, x, a, c.maxTries - 1, true);
    y, more := x.(actors := x.actors - {a}), steps + [Act(a, Ok)];
    FinishMoves(c, more, y, a + 1, c.maxTries, false);
    y, more := y.(cell := y.cell.(startJob := None), actors := y.actors - {a + 1}), more + [Act(a + 1, Ok)];
    assert y.actors == map[];
  }

  /** A row that waits for a start, without container and job: nobody is at work, and no sweep helps. */
  lemma StaysAsItIs(x: Scene)
    requires x.actors == map[] && x.cell == Cell(x.cell.row, None, None, None) && Matches(x.cell.row, STARTABLE)
    ensures Care.Quiescent(World(x)) && forall t: Time :: Swept(World(x).cells, t) == World(x).cells
  {
    forall t: Time ensures Swept(World(x).cells, t) == World(x).cells {
      assert SweptCell(x.cell, t) == x.cell;
    }
  }

  // ---- A DELETE during the last try ----

  lemma GivenUpSnoc(c: Consts, s: State, steps: seq<Step>, step: Step)
    ensures
      var t := Run(c, s, steps);
      GivenUpTotal(c, s, steps + [step]) == GivenUpTotal(c, s, steps) + |GivenUp(t, step, Next(c, t, step))|
    decreases |steps|
  {
    hide Next, GivenUp;
    if steps == [] {
      assert [] + [step] == [step] && [step][1..] == [];
      assert GivenUpTotal(c, Next(c, s, step), []) == 0;
    } else {
      assert (steps + [step])[0] == steps[0] && (steps + [step])[1..] == steps[1..] + [step];
      GivenUpSnoc(c, Next(c, s, steps[0]), steps[1..], step);
    }
  }

  /** The last try is past its claim when a DELETE moves the row on. */
  lemma DeleteIntervenes(c: Consts) returns (steps: seq<Step>, x: Scene, a: nat)
    requires c.maxTries >= 1 && c.maxActive >= 1
    ensures Leads(c, steps, x) && x.tally.failed == 0
    ensures a in x.actors && x.actors[a] == Start(0, c.maxTries, Inspect) && Matches(x.cell.row, {Stopping})
  {
    hide Leads;
    steps, x := Retries(c, c.maxTries - 1);
    a := x.next;
    PickMoves(c, steps, x);
    x, steps := Picked(x), steps + [PickStart(0)];
    steps, x := ClaimsAlone(c, steps, x, a, c.maxTries);
    steps, x := Deletes(c, steps, x);
  }

  lemma Deletes(c: Consts, steps: seq<Step>, x: Scene) returns (more: seq<Step>, y: Scene)
    requires Leads(c, steps, x) && Matches(x.cell.row, ACTIVE) && x.next !in x.actors
    ensures Leads(c, more, y)
    ensures y == x.(cell := x.cell.(row := SetStatus(x.cell.row, ACTIVE, Stopping)),
                    actors := x.actors[x.next := DeleteRefresh(0)], next := x.next + 1)
  {
    hide Leads;
    var a := x.next;
    y := x.(actors := x.actors[a := DeleteCas(0)], next := a + 1);
    Then(c, steps, x, DeleteBegin(0), y);
    more := steps + [DeleteBegin(0)];
    var z := y.(cell := x.cell.(row := SetStatus(x.cell.row, ACTIVE, Stopping)), actors := y.actors[a := DeleteRefresh(0)]);
    RoutesCode.DeleteNext(c, World(y), a, Ok);
    assert World(z).cells == World(y).cells[0 := z.cell];
    hide Next;
    Then(c, more, y, Act(a, Ok), z);
    y, more := z.(actors := x.actors[a := DeleteRefresh(0)]), more + [Act(a, Ok)];
    assert z.actors == y.actors;
  }

  /** The failure counter is raised although no start run ever failed a row: the last try loses its
      row to a DELETE, in any regime and without any death. */
  lemma DeleteDuringLastTryCounts(c: Consts) returns (steps: seq<Step>)
    requires c.maxTries >= 1 && c.maxActive >= 1
    ensures
      var s := Run(c, EMPTY, steps);
      && s.tally.failed == 1
      && GivenUpTotal(c, EMPTY, steps) == 0 && LastTriesLost(c, EMPTY, steps) == 1
      && Matches(Get(s, 0).row, {Stopping})
  {
    hide Leads, Run, Next;
    var x, a, y;
    steps, x, a := DeleteIntervenes(c);
    steps, x := Undoes(c, steps, x, a, c.maxTries);
    LeadsTo(c, steps, x);
    InitHolds(EMPTY);
    FailureAlsoCountsLostRaces(c, EMPTY, steps);
    GivenUpSnoc(c, EMPTY, steps, Act(a, Ok));
    RunKeeps(c, EMPTY, steps);
    GivenUpBy(c, World(x), Act(a, Ok));
    steps, y := GivesUp(c, steps, x, a, c.maxTries);
    LeadsTo(c, steps, y);
    FailureAlsoCountsLostRaces(c, EMPTY, steps);
  }

  // ---- The order of a sweep's reads ----

  const RUNNING :=
    CREATED.(
      cell := Cell(Some(TheRow(Running, 1).(url := Some(80))), Some(Box(Label(TTL * SECOND), true, 80)),
                   Some(Job(Stable, 1)), None),
      actors := map[1 := Start(0, 1, Finish(false))], next := 2, tally := Noted(ZERO, Success))

  /** A start run on its own, from the created sandbox to the running one. */
  lemma Runs(c: Consts) returns (before: seq<Step>, after: seq<Step>)
    requires c.maxTries >= 1 && c.maxActive >= 1
    ensures Leads(c, before, CREATED) && Leads(c, before + after, RUNNING)
  {
    hide Leads, Label;
    before := Created(c);
    PickMoves(c, before, CREATED);
    var x, steps := Picked(CREATED), before + [PickStart(0)];
    steps, x := ClaimsAlone(c, steps, x, 1, 1);
    steps, x := LaunchesAlone(c, steps, x, 1, 1);
    steps, x := Promotes(c, steps, x, 1, 1);
    assert x.actors == RUNNING.actors;
    after := steps[|before|..];
    assert before + after == steps;
  }

  /** Listing the containers first and reading the running rows second would be wrong, in the serial
      regime and without any fault: the list was taken before the container was created, the rows
      were read after the promotion, and the verdict of the sweep fails a healthy sandbox. */
  lemma ListingFirstBreaksVerdicts(c: Consts) returns (before: seq<Step>, after: seq<Step>)
    requires c.serial && c.maxTries >= 1 && c.maxActive >= 1
    ensures
      var listed := Run(c, EMPTY, before);
      var s := Run(c, listed, after);
      var wrong := NEW_SWEEP.(running := RunningIds(s.cells), listing := Listing([], listed.cells),
                              pc := Vanish(RunningIds(s.cells) - Live(Listing([], listed.cells))));
      && Enumerates([], listed.cells)
      && Get(s, 0).box.Some? && s.now < Get(s, 0).box.value.expiry && Matches(Get(s, 0).row, {Running})
      && 0 in wrong.pc.todo
      && var cells := StepSweep(s.cells, s.now, wrong, Pick(0)).cells;
         Matches(Look(cells, 0).row, {Failed}) && Look(cells, 0).box == Get(s, 0).box
  {
    before, after := Runs(c);
    LeadsTo(c, before, CREATED);
    LeadsTo(c, before + after, RUNNING);
    RunAppend(c, EMPTY, before, after);
    hide Run, Leads;
    assert Live(Listing([], World(CREATED).cells)) == {};
    assert RunningIds(World(RUNNING).cells) == {0};
  }

  // ---- Crashes ----

  /** A worker dies. */
  lemma Dies(c: Consts, steps: seq<Step>, x: Scene, a: nat) returns (more: seq<Step>, y: Scene)
    requires Leads(c, steps, x) && a in x.actors
    ensures steps <= more && Leads(c, more, y) && y == x.(actors := x.actors - {a}, calm := false)
  {
    hide Leads;
    y, more := x.(actors := x.actors - {a}, calm := false), steps + [Crash(a, true)];
    Then(c, steps, x, Crash(a, true), y);
  }

  /** A job without tries left is forgotten when it is picked up again. */
  lemma Dropped(c: Consts, steps: seq<Step>, x: Scene) returns (more: seq<Step>, y: Scene)
    requires Leads(c, steps, x) && x.cell.startJob.Some? && x.cell.startJob.value.tries >= c.maxTries
    requires x.actors == map[]
    ensures steps <= more && Leads(c, more, y) && y == x.(cell := x.cell.(startJob := None))
  {
    hide Leads;
    y, more := x.(cell := x.cell.(startJob := None)), steps + [PickStart(0)];
    assert World(y).cells == World(x).cells[0 := y.cell];
    Then(c, steps, x, PickStart(0), y);
  }

  /** The documented limitation, for every number of tries: if a worker dies on the last try of a
      start job, the queue forgets the job, the row stays `Starting` although nothing is at work any
      more, and no sweep at any time changes it. */
  lemma CrashLeavesStarting(c: Consts) returns (steps: seq<Step>)
    requires c.maxTries >= 1 && c.maxActive >= 1
    ensures
      var s := Run(c, EMPTY, steps);
      && Care.Quiescent(s)
      && Matches(Get(s, 0).row, {Starting})
      && forall t: Time :: Swept(s.cells, t) == s.cells
  {
    hide Leads;
    var x;
    steps, x := Retries(c, c.maxTries - 1);
    var a := x.next;
    PickMoves(c, steps, x);
    x, steps := Picked(x), steps + [PickStart(0)];
    steps, x := ClaimsAlone(c, steps, x, a, c.maxTries);
    steps, x := Dies(c, steps, x, a);
    assert x.actors == map[];
    steps, x := Dropped(c, steps, x);
    LeadsTo(c, steps, x);
    StaysAsItIs(x);
  }

  // ---- The plain write ----

  /** The request sees its enqueue fail although it took place; the sandbox waits out its time. */
  lemma WaitsTooLong(c: Consts) returns (steps: seq<Step>, y: Scene)
    requires c.maxTries >= 1 && c.maxActive >= 1
    ensures Leads(c, steps, y) && y.cell == NOBODY.(row := Some(NEW_ROW), startJob := Some(Job(Stable, 0)))
    ensures y.actors == map[0 := CreateFail(0)] && y.now == TTL * SECOND && y.next == 1
  {
    steps := Inserted(c);
    hide Leads;
    var x := INSERTED.(cell := INSERTED.cell.(startJob := Some(Job(Stable, 0))), actors := map[0 := CreateFail(0)]);
    Landed(c, steps, x);
    steps := steps + [Act(0, FailLanded)];
    y := x.(now := TTL * SECOND);
    Then(c, steps, x, Tick(TTL * SECOND), y);
    steps := steps + [Tick(TTL * SECOND)];
  }

  /** A stopped row can become a failed one: the enqueue of the create request was reported as failed
      although it took place, the start job found the sandbox expired and stopped it, and then the
      request's unconditional write lands. */
  lemma PlainWriteOverwritesStopped(c: Consts) returns (steps: seq<Step>)
    requires c.maxTries >= 1 && c.maxActive >= 1
    ensures
      var s := Run(c, EMPTY, steps);
      && Matches(Get(s, 0).row, {Stopped}) && Get(s, 0).row.value.error == Some(ExpiredInQueue)
      && Matches(Get(Next(c, s, Act(0, Ok)), 0).row, {Failed})
  {
    var y;
    steps, y := WaitsTooLong(c);
    hide Leads, Next, Run;
    PickMoves(c, steps, y);
    y, steps := Picked(y), steps + [PickStart(0)];
    var out := StartOut(y.cell, Expire, Quiet);
    StartMoves(c, steps, y, 1, 1, Read, Ok, out);
    y, steps := After(y, 1, 1, out), steps + [Act(1, Ok)];
    out := StartOut(y.cell.(row := Some(NEW_ROW.(status := Stopped, error := Some(ExpiredInQueue)))), Finish(false), Expired);
    StartMoves(c, steps, y, 1, 1, Expire, Ok, out);
    y, steps := After(y, 1, 1, out), steps + [Act(1, Ok)];
    LeadsTo(c, steps, y);
    RoutesCode.CreateNext(c, World(y), 0, Ok);
  }

  lemma Landed(c: Consts, steps: seq<Step>, x: Scene)
    requires Leads(c, steps, INSERTED)
    requires x == INSERTED.(cell := INSERTED.cell.(startJob := Some(Job(Stable, 0))), actors := map[0 := CreateFail(0)])
    ensures Leads(c, steps + [Act(0, FailLanded)], x)
  {
    hide Next, Leads;
    RoutesCode.CreateNext(c, World(INSERTED), 0, FailLanded);
    assert World(x).cells == World(INSERTED).cells[0 := x.cell];
    assert INSERTED.actors[0 := CreateFail(0)] == x.actors;
    Then(c, steps, INSERTED, Act(0, FailLanded), x);
  }
}
