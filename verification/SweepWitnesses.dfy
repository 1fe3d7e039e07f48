/** Runs of sweeps that show where their guarantees end. */
module SweepWitnesses {
  import opened Lifecycle
  import opened Protocol
  import opened SweepSpec
  import opened Witnesses
  import QuietSweep

  // ---- One step of one sweep ----

  /** `more` goes on from `steps` with awaits of `a` alone. */
  ghost predicate ByOnly(steps: seq<Step>, more: seq<Step>, a: nat) {
    steps <= more && forall i :: |steps| <= i < |more| ==> more[i].Act? && more[i].a == a
  }

  function AfterSweep(x: Scene, a: nat, cell: Cell, v: SweepVars): Scene {
    x.(cell := cell, actors := x.actors[a := Sweep(v)])
  }

  lemma SweepMoves(c: Consts, steps: seq<Step>, x: Scene, a: nat, v: SweepVars, choice: Choice, cell: Cell, w: SweepVars)
    requires Leads(c, steps, x) && a in x.actors && x.actors[a] == Sweep(v)
    requires
      var out := StepSweep(World(x).cells, x.now, v, choice);
      out.vars == Some(w) && out.cells == World(x).cells[0 := cell]
    ensures Leads(c, steps + [Act(a, choice)], AfterSweep(x, a, cell, w))
  {
    hide Next, StepSweep, Leads;
    QuietSweep.SweepNext(c, World(x), a, choice);
    assert World(AfterSweep(x, a, cell, w)).cells == World(x).cells[0 := cell];
    Then(c, steps, x, Act(a, choice), AfterSweep(x, a, cell, w));
  }

  /** A row, and a container with this expiry. */
  predicate Holds(x: Scene, expiry: Time) {
    x.cell.box.Some? && x.cell.box.value.expiry == expiry && x.cell.row.Some?
  }

  function SeenAt(x: Scene, expiry: Time): SweepVars
    requires x.cell.row.Some?
  {
    SweepVars(Loop, RunningIds(World(x).cells), [Entry(0, expiry)], map[0 := x.cell.row.value.status], x.now, 0, NOTHING_REAPED)
  }

  /** A sweep up to its first decision. */
  lemma Lists(c: Consts, steps: seq<Step>, x: Scene, a: nat, expiry: Time) returns (more: seq<Step>, y: Scene)
    requires Leads(c, steps, x) && a in x.actors && x.actors[a] == Sweep(NEW_SWEEP) && Holds(x, expiry)
    ensures ByOnly(steps, more, a) && Leads(c, more, y)
    ensures
      var v := NEW_SWEEP.(pc := Statuses, running := RunningIds(World(x).cells), listing := [Entry(0, expiry)]);
      y == AfterSweep(x, a, x.cell, v)
  {
    hide Leads, RunningIds;
    assert World(x).cells[0 := x.cell] == World(x).cells;
    var v := NEW_SWEEP.(pc := List, running := RunningIds(World(x).cells));
    SweepMoves(c, steps, x, a, NEW_SWEEP, Ok, x.cell, v);
    y, more := AfterSweep(x, a, x.cell, v), steps + [Act(a, Ok)];
    assert Enumerates([0], World(x).cells);
    assert Listing([0], World(x).cells) == [Entry(0, expiry)];
    hide Enumerates;
    var w := v.(pc := Statuses, listing := [Entry(0, expiry)]);
    SweepMoves(c, more, y, a, v, Listed([0]), x.cell, w);
    y, more := AfterSweep(y, a, x.cell, w), more + [Act(a, Listed([0]))];
  }

  lemma Observes(c: Consts, steps: seq<Step>, x: Scene, a: nat, expiry: Time) returns (more: seq<Step>, y: Scene)
    requires Leads(c, steps, x) && a in x.actors && x.actors[a] == Sweep(NEW_SWEEP) && Holds(x, expiry)
    ensures ByOnly(steps, more, a) && Leads(c, more, y) && y == AfterSweep(x, a, x.cell, SeenAt(x, expiry))
  {
    more, y := Lists(c, steps, x, a, expiry);
    hide Leads, RunningIds, Enumerates;
    assert World(x).cells[0 := x.cell] == World(x).cells;
    assert StatusesOf(World(x).cells, [Entry(0, expiry)]) == map[0 := x.cell.row.value.status] by {
      assert Live([Entry(0, expiry)]) == {0};
    }
    hide StatusesOf;
    var w := y.actors[a].vars;
    var v := w.(pc := Clock, statuses := map[0 := x.cell.row.value.status]);
    SweepMoves(c, more, y, a, w, Ok, x.cell, v);
    y, more := AfterSweep(y, a, x.cell, v), more + [Act(a, Ok)];
    w := v.(pc := Loop, at := x.now, i := 0);
    SweepMoves(c, more, y, a, v, Ok, x.cell, w);
    y, more := AfterSweep(y, a, x.cell, w), more + [Act(a, Ok)];
  }

  /** It removes the container it saw, marks the row and counts. */
  lemma Reaps(c: Consts, steps: seq<Step>, x: Scene, a: nat, v: SweepVars) returns (more: seq<Step>, y: Scene)
    requires Leads(c, steps, x) && a in x.actors && x.actors[a] == Sweep(v)
    requires v.pc.Loop? && v.i == 0 && |v.listing| == 1 && v.listing[0].id == 0 && v.listing[0].expiry <= v.at
    ensures ByOnly(steps, more, a) && Leads(c, more, y)
    ensures y.cell.box.None? && a in y.actors && y.actors[a].Sweep? && y.actors[a].vars.reaped == Count(v.reaped, true)
    ensures forall b :: b != a && b in x.actors ==> b in y.actors && y.actors[b] == x.actors[b]
  {
    hide Leads;
    var cell, w := x.cell.(box := None), v.(pc := MarkStopped);
    SweepMoves(c, steps, x, a, v, Ok, cell, w);
    y, more := AfterSweep(x, a, cell, w), steps + [Act(a, Ok)];
    cell := cell.(row := SetStatus(cell.row, ACTIVE, Stopped));
    var u := w.(pc := Loop, i := 1, reaped := Count(v.reaped, true));
    SweepMoves(c, more, y, a, w, Ok, cell, u);
    y, more := AfterSweep(y, a, cell, u), more + [Act(a, Ok)];
  }

  // ---- Overlapping sweeps ----

  /** A sandbox whose time runs out during its start, and two sweeps about to look. */
  lemma TwoSweeps(c: Consts) returns (steps: seq<Step>, x: Scene)
    requires c.maxTries >= 1 && c.maxActive >= 1
    ensures Leads(c, steps, x) && Holds(x, Label(TTL * SECOND)) && Label(TTL * SECOND) <= x.now
    ensures 2 in x.actors && x.actors[2] == Sweep(NEW_SWEEP) && 3 in x.actors && x.actors[3] == Sweep(NEW_SWEEP)
  {
    hide Leads, Label;
    steps := Created(c);
    PickMoves(c, steps, CREATED);
    x, steps := Picked(CREATED), steps + [PickStart(0)];
    steps, x := ClaimsAlone(c, steps, x, 1, 1);
    steps, x := LaunchesAlone(c, steps, x, 1, 1);
    assert Label(TTL * SECOND) <= TTL * SECOND;
    hide StepStart;
    var y := x.(now := x.now + TTL * SECOND);
    Then(c, steps, x, Tick(TTL * SECOND), y);
    steps, x := steps + [Tick(TTL * SECOND)], y;
    y := x.(actors := x.actors[2 := Sweep(NEW_SWEEP)], next := 3);
    Then(c, steps, x, SweepBegin, y);
    steps, x := steps + [SweepBegin], y;
    y := x.(actors := x.actors[3 := Sweep(NEW_SWEEP)], next := 4);
    Then(c, steps, x, SweepBegin, y);
    steps, x := steps + [SweepBegin], y;
  }

  /** Overlapping sweeps may count one removed container twice. */
  lemma OverlappingSweepsCountTwice(c: Consts) returns (before: seq<Step>, after: seq<Step>)
    requires c.maxTries >= 1 && c.maxActive >= 1
    ensures
      var s := Run(c, EMPTY, before);
      var t := Run(c, s, after);
      && 2 in s.actors && s.actors[2] == Sweep(NEW_SWEEP) && 3 in s.actors && s.actors[3] == Sweep(NEW_SWEEP)
      && 2 in t.actors && t.actors[2].Sweep? && 3 in t.actors && t.actors[3].Sweep?
      && |BoxIds(s.cells) - BoxIds(t.cells)| == 1
      && t.actors[2].vars.reaped.expired + t.actors[3].vars.reaped.expired == 2
  {
    var x, y, steps;
    before, x := TwoSweeps(c);
    hide Leads, SeenAt, Label;
    steps, y := Observes(c, before, x, 2, Label(TTL * SECOND));
    steps, y := Observes(c, steps, y, 3, Label(TTL * SECOND));
    Sees(x, Label(TTL * SECOND));
    Sees(AfterSweep(x, 2, x.cell, SeenAt(x, Label(TTL * SECOND))), Label(TTL * SECOND));
    steps, y := Reaps(c, steps, y, 2, y.actors[2].vars);
    steps, y := Reaps(c, steps, y, 3, y.actors[3].vars);
    after := steps[|before|..];
    assert before + after == steps;
    RunAppend(c, EMPTY, before, after);
    LeadsTo(c, before, x);
    LeadsTo(c, steps, y);
    hide Run;
    assert BoxIds(World(x).cells) == {0};
    assert BoxIds(World(y).cells) == {};
  }

  lemma Sees(x: Scene, expiry: Time)
    requires x.cell.row.Some? && expiry <= x.now
    ensures
      var v := SeenAt(x, expiry);
      v.pc.Loop? && v.i == 0 && v.listing == [Entry(0, expiry)] && v.listing[0].expiry <= v.at && v.reaped == NOTHING_REAPED
  {
  }

  // ---- A sweep that finds nothing to do ----

  /** The last await of a sweep over a sandbox whose container is listed, or which is not stopping. */
  lemma SweepEnds(c: Consts, steps: seq<Step>, x: Scene, a: nat, v: SweepVars)
    requires Leads(c, steps, x) && a in x.actors && x.actors[a] == Sweep(v) && v.pc == Vanish({})
    requires !Matches(x.cell.row, {Stopping})
    ensures Leads(c, steps + [Act(a, Ok)], x.(actors := x.actors - {a}))
  {
    hide Leads, Next, Live;
    QuietSweep.SweepNext(c, World(x), a, Ok);
    assert FinishLostStops(World(x).cells, Live(v.listing)) == World(x).cells;
    Then(c, steps, x, Act(a, Ok), x.(actors := x.actors - {a}));
  }

  /** The end of the loop, when every running sandbox has been listed. */
  lemma LeavesLoop(c: Consts, steps: seq<Step>, x: Scene, a: nat, v: SweepVars)
    requires Leads(c, steps, x) && a in x.actors && x.actors[a] == Sweep(v) && v.pc.Loop? && v.i >= |v.listing|
    ensures Leads(c, steps + [Act(a, Ok)], AfterSweep(x, a, x.cell, v.(pc := Vanish(v.running - Live(v.listing)))))
  {
    hide Leads, Live;
    assert World(x).cells[0 := x.cell] == World(x).cells;
    SweepMoves(c, steps, x, a, v, Ok, x.cell, v.(pc := Vanish(v.running - Live(v.listing))));
  }

  lemma Begins(c: Consts, steps: seq<Step>, x: Scene) returns (y: Scene)
    requires Leads(c, steps, x)
    ensures Leads(c, steps + [SweepBegin], y)
    ensures y == x.(actors := x.actors[x.next := Sweep(NEW_SWEEP)], next := x.next + 1)
  {
    hide Leads;
    y := x.(actors := x.actors[x.next := Sweep(NEW_SWEEP)], next := x.next + 1);
    Then(c, steps, x, SweepBegin, y);
  }

  /** A sweep that has decided to leave the one container goes through to its end. */
  lemma Leaves(c: Consts, steps: seq<Step>, x: Scene, a: nat, v: SweepVars) returns (more: seq<Step>, y: Scene)
    requires Leads(c, steps, x) && a in x.actors && x.actors[a] == Sweep(v) && !Matches(x.cell.row, {Stopping})
    requires v.pc.Loop? && v.i == 0 && |v.listing| == 1 && !MustGo(v, v.listing[0]) && v.running <= {v.listing[0].id}
    ensures ByOnly(steps, more, a) && Leads(c, more, y) && y == x.(actors := x.actors - {a})
  {
    hide Leads, MustGo;
    var w := v.(i := 1);
    assert World(x).cells[0 := x.cell] == World(x).cells;
    SweepMoves(c, steps, x, a, v, Ok, x.cell, w);
    y, more := AfterSweep(x, a, x.cell, w), steps + [Act(a, Ok)];
    LeavesLoop(c, more, y, a, w);
    assert w.listing[0] in w.listing;
    assert w.running - Live(w.listing) == {};
    w := w.(pc := Vanish({}));
    y, more := AfterSweep(y, a, y.cell, w), more + [Act(a, Ok)];
    SweepEnds(c, more, y, a, w);
    y, more := y.(actors := y.actors - {a}), more + [Act(a, Ok)];
    assert y.actors == x.actors - {a};
  }

  /** A whole sweep over a running sandbox with an unexpired container, up or not. */
  lemma Passes(c: Consts, steps: seq<Step>, x: Scene, expiry: Time) returns (more: seq<Step>, y: Scene)
    requires Leads(c, steps, x) && Holds(x, expiry) && x.now < expiry && Matches(x.cell.row, {Running})
    requires x.actors == map[]
    ensures ByOnly(steps + [SweepBegin], more, x.next) && Leads(c, more, y) && y == x.(next := x.next + 1)
  {
    hide Leads;
    var a := x.next;
    var z := Begins(c, steps, x);
    more, y := Observes(c, steps + [SweepBegin], z, a, expiry);
    assert RunningIds(World(z).cells) == {0};
    more, y := Leaves(c, more, y, a, SeenAt(z, expiry));
    assert y.actors == map[];
  }

  const SERVED := RUNNING.(cell := RUNNING.cell.(startJob := None), actors := map[])

  /** A sandbox that runs, and nobody at work. */
  lemma Serves(c: Consts) returns (steps: seq<Step>)
    requires c.maxTries >= 1 && c.maxActive >= 1
    ensures Leads(c, steps, SERVED)
  {
    hide Leads;
    var before, after := Runs(c);
    FinishMoves(c, before + after, RUNNING, 1, 1, false);
    steps := before + after + [Act(1, Ok)];
    assert RUNNING.actors - {1} == map[];
  }

  const EXITED := SERVED.(cell := SERVED.cell.(box := Some(Box(Label(TTL * SECOND), false, 80))))

  /** Its container exits. */
  lemma Exits(c: Consts) returns (steps: seq<Step>)
    requires c.maxTries >= 1 && c.maxActive >= 1
    ensures Leads(c, steps, EXITED)
  {
    hide Leads, Label;
    steps := Serves(c);
    assert World(EXITED).cells == World(SERVED).cells[0 := EXITED.cell];
    Then(c, steps, SERVED, BoxExits(0), EXITED);
    steps := steps + [BoxExits(0)];
  }

  /** The container of a running sandbox has exited and nobody is at work; a whole sweep passes, and
      the row is still running: against the documentation the sweep does not notice. */
  lemma ExitedStaysRunning(c: Consts) returns (before: seq<Step>, sweep: seq<Step>)
    requires c.maxTries >= 1 && c.maxActive >= 1
    ensures
      var s := Run(c, EMPTY, before);
      var t := Run(c, s, [SweepBegin] + sweep);
      && Care.Quiescent(s) && Get(s, 0).box.Some? && !Get(s, 0).box.value.up && Matches(Get(s, 0).row, {Running})
      && QuietSweep.OnlyActs(sweep, s.next) && Care.Quiescent(t) && t.cells == s.cells
  {
    hide Leads, Run, Label;
    before := Exits(c);
    assert 0 < Label(TTL * SECOND) by { assert Label(TTL * SECOND) > TTL * SECOND - SECOND; }
    var steps, y := Passes(c, before, EXITED, Label(TTL * SECOND));
    sweep := steps[|before| + 1..];
    assert before + ([SweepBegin] + sweep) == steps;
    RunAppend(c, EMPTY, before, [SweepBegin] + sweep);
    LeadsTo(c, before, EXITED);
    LeadsTo(c, steps, y);
  }

  // ---- A sweep that dies between removal and mark ----

  /** A sweep removes the container it saw and dies. */
  lemma RemovesAndDies(c: Consts, steps: seq<Step>, x: Scene, expiry: Time) returns (more: seq<Step>, y: Scene)
    requires Leads(c, steps, x) && Holds(x, expiry) && expiry <= x.now && x.actors == map[]
    ensures steps <= more && Leads(c, more, y)
    ensures y == x.(cell := x.cell.(box := None), next := x.next + 1, calm := false)
  {
    hide Leads, SeenAt;
    var a := x.next;
    var z := Begins(c, steps, x);
    more, y := Observes(c, steps + [SweepBegin], z, a, expiry);
    Sees(z, expiry);
    var v := SeenAt(z, expiry);
    var w := v.(pc := MarkStopped);
    SweepMoves(c, more, y, a, v, Ok, y.cell.(box := None), w);
    y, more := AfterSweep(y, a, y.cell.(box := None), w), more + [Act(a, Ok)];
    more, y := Dies(c, more, y, a);
    assert y.actors == map[];
  }

  /** What a sweep sees when there is no container. */
  function SeenBare(x: Scene): SweepVars {
    SweepVars(Vanish(RunningIds(World(x).cells)), RunningIds(World(x).cells), [], map[], x.now, 0, NOTHING_REAPED)
  }

  /** The reads of a sweep that finds no container. */
  lemma ListsNothing(c: Consts, steps: seq<Step>, x: Scene, a: nat) returns (more: seq<Step>, y: Scene)
    requires Leads(c, steps, x) && x.cell.box.None? && a in x.actors && x.actors[a] == Sweep(NEW_SWEEP)
    ensures ByOnly(steps, more, a) && Leads(c, more, y)
    ensures y == AfterSweep(x, a, x.cell, SeenBare(x).(pc := Statuses, at := 0))
  {
    hide Leads, RunningIds;
    assert World(x).cells[0 := x.cell] == World(x).cells;
    var v := NEW_SWEEP.(pc := List, running := RunningIds(World(x).cells));
    SweepMoves(c, steps, x, a, NEW_SWEEP, Ok, x.cell, v);
    y, more := AfterSweep(x, a, x.cell, v), steps + [Act(a, Ok)];
    assert Enumerates([], World(x).cells);
    assert Listing([], World(x).cells) == [];
    hide Enumerates;
    var w := v.(pc := Statuses, listing := []);
    SweepMoves(c, more, y, a, v, Listed([]), x.cell, w);
    y, more := AfterSweep(y, a, x.cell, w), more + [Act(a, Listed([]))];
  }

  lemma DecidesNothing(c: Consts, steps: seq<Step>, x: Scene, a: nat) returns (more: seq<Step>, y: Scene)
    requires Leads(c, steps, x) && x.cell.box.None? && a in x.actors && x.actors[a] == Sweep(NEW_SWEEP)
    ensures ByOnly(steps, more, a) && Leads(c, more, y) && y == AfterSweep(x, a, x.cell, SeenBare(x))
  {
    more, y := ListsNothing(c, steps, x, a);
    hide Leads, RunningIds;
    assert World(x).cells[0 := x.cell] == World(x).cells;
    assert StatusesOf(World(x).cells, []) == map[];
    hide StatusesOf;
    var v := y.actors[a].vars;
    var w := v.(pc := Clock);
    SweepMoves(c, more, y, a, v, Ok, x.cell, w);
    y, more := AfterSweep(y, a, x.cell, w), more + [Act(a, Ok)];
    v := w.(pc := Loop, at := x.now);
    SweepMoves(c, more, y, a, w, Ok, x.cell, v);
    y, more := AfterSweep(y, a, x.cell, v), more + [Act(a, Ok)];
    LeavesLoop(c, more, y, a, v);
    assert v.running - Live([]) == v.running;
    y, more := AfterSweep(y, a, x.cell, SeenBare(x)), more + [Act(a, Ok)];
    assert y.actors == x.actors[a := Sweep(SeenBare(x))];
  }

  /** A whole sweep over a sandbox without a container that is not stopping. */
  lemma Reconciles(c: Consts, steps: seq<Step>, x: Scene) returns (more: seq<Step>, y: Scene)
    requires Leads(c, steps, x) && x.actors == map[] && x.cell.box.None? && x.cell.row.Some?
    requires !Matches(x.cell.row, {Stopping})
    ensures ByOnly(steps + [SweepBegin], more, x.next) && Leads(c, more, y)
    ensures y == x.(cell := FailedCell(x.cell), next := x.next + 1)
  {
    hide Leads;
    var a := x.next;
    y := Begins(c, steps, x);
    more, y := DecidesNothing(c, steps + [SweepBegin], y, a);
    var v := y.actors[a].vars;
    if Matches(x.cell.row, {Running}) {
      assert RunningIds(World(x.(actors := y.actors, next := y.next)).cells) == {0};
      var w := v.(pc := Vanish({}), reaped := v.reaped.(vanished := 1));
      assert v.pc.todo - {0} == {};
      SweepMoves(c, more, y, a, v, Pick(0), FailedCell(x.cell), w);
      y, more := AfterSweep(y, a, FailedCell(x.cell), w), more + [Act(a, Pick(0))];
      v := w;
    } else {
      assert RunningIds(World(x.(actors := y.actors, next := y.next)).cells) == {};
    }
    SweepEnds(c, more, y, a, v);
    y, more := y.(actors := y.actors - {a}), more + [Act(a, Ok)];
    assert y.actors == map[];
  }

  /** A sandbox that has outlived its time while nobody was at work. */
  lemma Outlives(c: Consts, steps: seq<Step>, x: Scene) returns (more: seq<Step>, y: Scene)
    requires Leads(c, steps, x)
    ensures Leads(c, more, y) && y == x.(now := x.now + TTL * SECOND)
  {
    hide Leads;
    y, more := x.(now := x.now + TTL * SECOND), steps + [Tick(TTL * SECOND)];
    Then(c, steps, x, Tick(TTL * SECOND), y);
  }

  /** From a state in which nobody is at work, a sweep dies after a removal and another one passes. */
  lemma DiesAndReruns(c: Consts, before: seq<Step>, x: Scene, expiry: Time) returns (after: seq<Step>, y: Scene)
    requires Leads(c, before, x) && Holds(x, expiry) && expiry <= x.now && x.actors == map[]
    requires !Matches(x.cell.row, {Stopping})
    ensures Leads(c, before + after, y)
    ensures y == x.(cell := FailedCell(x.cell.(box := None)), next := x.next + 2, calm := false)
  {
    hide Leads;
    var steps;
    steps, y := RemovesAndDies(c, before, x, expiry);
    steps, y := Reconciles(c, steps, y);
    after := steps[|before|..];
    assert before + after == steps;
  }

  /** A running sandbox past its time: one sweep stops it, as documented. If that sweep dies between
      the removal and the mark, the next one reports a failure instead. */
  lemma KilledSweepFailsExpired(c: Consts) returns (before: seq<Step>, after: seq<Step>)
    requires c.maxTries >= 1 && c.maxActive >= 1
    ensures
      var s := Run(c, EMPTY, before);
      var t := Run(c, s, after);
      && Care.Quiescent(s) && Matches(Get(s, 0).row, {Running}) && Get(s, 0).box.Some?
      && Matches(Look(Swept(s.cells, s.now), 0).row, {Stopped})
      && Care.Quiescent(t) && t.now == s.now
      && Matches(Get(t, 0).row, {Failed}) && Get(t, 0).row.value.error == Some(ContainerDisappeared)
  {
    hide Leads, Run, Label;
    var x, y;
    before := Serves(c);
    before, x := Outlives(c, before, SERVED);
    assert Label(TTL * SECOND) <= TTL * SECOND;
    after, y := DiesAndReruns(c, before, x, Label(TTL * SECOND));
    RunAppend(c, EMPTY, before, after);
    LeadsTo(c, before, x);
    LeadsTo(c, before + after, y);
    assert SweptCell(x.cell, x.now) == ReapedCell(x.cell);
  }

  /** A worker dies on the last try, past the launch, and the queue forgets the job; the time of the
      sandbox runs out. */
  lemma Abandoned(c: Consts) returns (steps: seq<Step>, x: Scene)
    requires c.maxTries >= 1 && c.maxActive >= 1
    ensures Leads(c, steps, x) && x.actors == map[] && x.now == TTL * SECOND
    ensures x.cell == Cell(x.cell.row, Some(Box(Label(TTL * SECOND), true, 80)), None, None)
    ensures Matches(x.cell.row, {Starting})
  {
    hide Leads, Label;
    steps, x := Retries(c, c.maxTries - 1);
    var a := x.next;
    PickMoves(c, steps, x);
    x, steps := Picked(x), steps + [PickStart(0)];
    steps, x := ClaimsAlone(c, steps, x, a, c.maxTries);
    steps, x := LaunchesAlone(c, steps, x, a, c.maxTries);
    steps, x := Dies(c, steps, x, a);
    assert x.actors == map[];
    steps, x := Dropped(c, steps, x);
    steps, x := Outlives(c, steps, x);
  }

  /** A starting sandbox past its time, its start abandoned: one sweep stops it. If that sweep dies
      between the removal and the mark, the next one leaves the row starting, and so does every
      sweep after it: the sandbox keeps its slot without container and job. */
  lemma KilledSweepStrandsStarting(c: Consts) returns (before: seq<Step>, after: seq<Step>)
    requires c.maxTries >= 1 && c.maxActive >= 1
    ensures
      var s := Run(c, EMPTY, before);
      var t := Run(c, s, after);
      && Care.Quiescent(s) && Matches(Get(s, 0).row, {Starting}) && Get(s, 0).box.Some?
      && Matches(Look(Swept(s.cells, s.now), 0).row, {Stopped})
      && Care.Quiescent(t) && Matches(Get(t, 0).row, {Starting}) && Get(t, 0).box.None?
      && forall u: Time :: Swept(t.cells, u) == t.cells
  {
    hide Leads, Run, Label;
    var x, y;
    before, x := Abandoned(c);
    assert Label(TTL * SECOND) <= TTL * SECOND;
    after, y := DiesAndReruns(c, before, x, Label(TTL * SECOND));
    RunAppend(c, EMPTY, before, after);
    LeadsTo(c, before, x);
    LeadsTo(c, before + after, y);
    assert SweptCell(x.cell, x.now) == ReapedCell(x.cell);
    StaysAsItIs(y);
  }
}
