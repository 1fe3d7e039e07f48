/** `app/worker.py`: the reconcile sweep as a program. */
module ReaperCode {
  import opened Lifecycle
  import opened Protocol
  import opened ServiceCode
  import opened SweepSpec
  import opened QuietSweep
  import opened Invariant
  import opened Serial
  import opened Progress
  import opened SweepCounts

  /** The sweep `a` stands at `v`; every id it has seen is known. */
  predicate AtSweep(svc: Service, a: nat, v: SweepVars)
    reads svc
  {
    && svc.Valid() && a in svc.actors && a < svc.next && svc.actors[a] == Sweep(v)
    && v.running <= svc.known
    && (forall i :: 0 <= i < |v.listing| ==> v.listing[i].id in svc.known)
  }

  // ---- Reading ----

  function RunningRows(rows: map<Id, Row>): set<Id> {
    set id | id in rows && rows[id].status == Running
  }

  lemma SameRunning(svc: Service)
    requires svc.Valid()
    ensures RunningIds(svc.World().cells) == RunningRows(svc.rows)
  {
  }

  lemma KnownRunning(svc: Service)
    requires svc.Valid()
    ensures RunningRows(svc.rows) <= svc.known
    ensures forall id :: id in RunningRows(svc.rows) <==>
                         id in svc.World().cells && Matches(svc.World().cells[id].row, {Running})
  {
  }

  /** Snapshot the running rows before listing the containers. */
  method TakeSnapshot(svc: Service, a: nat, others: seq<Step>) returns (v: SweepVars)
    requires AtSweep(svc, a, NEW_SWEEP) && forall i :: 0 <= i < |others| ==> Avoids(others[i], a)
    modifies svc
    ensures svc.World() == Next(svc.c, Run(svc.c, old(svc.World()), others), Act(a, Ok))
    ensures AtSweep(svc, a, v) && v.pc.List?
    ensures
      var met := Run(svc.c, old(svc.World()), others);
      && v == SweepVars(List, v.running, [], map[], 0, 0, Reaped(0, 0, 0))
      && (forall id :: id in v.running <==> id in met.cells && Matches(met.cells[id].row, {Running}))
      && GoesOn(met, svc.World(), a, Sweep(v))
  {
    hide Run, Next, Assembled, RunningIds, RunningRows;
    svc.Yield(others, a);
    SweepNext(svc.c, svc.World(), a, Ok);
    SameRunning(svc);
    KnownRunning(svc);
    v := NEW_SWEEP.(pc := List, running := RunningRows(svc.rows));
    svc.actors := svc.actors[a := Sweep(v)];
  }

  /** The daemon lists every container once, in any order. */
  method DaemonOrder(svc: Service) returns (order: seq<Id>)
    requires svc.Valid()
    ensures Enumerates(order, svc.World().cells)
    ensures forall i :: 0 <= i < |order| ==> order[i] in svc.known
  {
    order := [];
    var rest := svc.boxes.Keys;
    while rest != {}
      invariant rest <= svc.boxes.Keys
      invariant forall id :: id in order <==> id in svc.boxes && id !in rest
      invariant forall i, j :: 0 <= i < j < |order| ==> order[i] != order[j]
      decreases |rest|
    {
      var id :| id in rest;
      order, rest := order + [id], rest - {id};
    }
  }

  method ListContainers(svc: Service, a: nat, v: SweepVars, others: seq<Step>, fails: bool)
    returns (w: SweepVars, ghost choice: Choice)
    requires AtSweep(svc, a, v) && v.pc.List? && forall i :: 0 <= i < |others| ==> Avoids(others[i], a)
    modifies svc
    ensures svc.World() == Next(svc.c, Run(svc.c, old(svc.World()), others), Act(a, choice))
    ensures (choice.Fail? <==> fails) && !choice.FailLanded?
    ensures if fails then svc.Valid() && a !in svc.actors && w == v else AtSweep(svc, a, w) && w.pc.Statuses?
    ensures
      var met := Run(svc.c, old(svc.World()), others);
      if fails then svc.World() == met.(actors := met.actors - {a})
      else
        && w == v.(pc := Statuses, listing := w.listing) && Shown(w.listing, met.cells)
        && GoesOn(met, svc.World(), a, Sweep(w))
  {
    hide Run, Next, Assembled, Enumerates;
    svc.Yield(others, a);
    if fails {
      w, choice := v, Fail;
      SweepNext(svc.c, svc.World(), a, Fail);
      svc.actors := svc.actors - {a};
    } else {
      var order := DaemonOrder(svc);
      choice := Listed(order);
      SweepNext(svc.c, svc.World(), a, Listed(order));
      var found := svc.ListSandboxes(order);
      w := v.(pc := Statuses, listing := found);
      svc.actors := svc.actors[a := Sweep(w)];
    }
  }

  function StatusesIn(rows: map<Id, Row>, live: set<Id>): map<Id, Status> {
    map id | id in rows && id in live :: rows[id].status
  }

  lemma SameStatuses(svc: Service, listing: seq<Entry>)
    requires svc.Valid()
    ensures StatusesOf(svc.World().cells, listing) == StatusesIn(svc.rows, Live(listing))
    ensures forall id :: id in StatusesIn(svc.rows, Live(listing)) <==>
                         id in Live(listing) && Get(svc.World(), id).row.Some?
    ensures forall id :: id in StatusesIn(svc.rows, Live(listing)) ==>
                         StatusesIn(svc.rows, Live(listing))[id] == Get(svc.World(), id).row.value.status
  {
    hide Live;
  }

  method ReadStatuses(svc: Service, a: nat, v: SweepVars, others: seq<Step>) returns (w: SweepVars)
    requires AtSweep(svc, a, v) && v.pc.Statuses? && forall i :: 0 <= i < |others| ==> Avoids(others[i], a)
    modifies svc
    ensures svc.World() == Next(svc.c, Run(svc.c, old(svc.World()), others), Act(a, Ok))
    ensures AtSweep(svc, a, w) && w.pc.Clock?
    ensures
      var met := Run(svc.c, old(svc.World()), others);
      && w == v.(pc := Clock, statuses := w.statuses)
      && (forall id :: id in w.statuses <==> id in Live(v.listing) && Get(met, id).row.Some?)
      && (forall id :: id in w.statuses ==> w.statuses[id] == Get(met, id).row.value.status)
      && GoesOn(met, svc.World(), a, Sweep(w))
  {
    hide Run, Next, Assembled, StatusesOf, StatusesIn;
    svc.Yield(others, a);
    SweepNext(svc.c, svc.World(), a, Ok);
    SameStatuses(svc, v.listing);
    w := v.(pc := Clock, statuses := StatusesIn(svc.rows, Live(v.listing)));
    svc.actors := svc.actors[a := Sweep(w)];
  }

  method ReadClock(svc: Service, a: nat, v: SweepVars, others: seq<Step>) returns (w: SweepVars)
    requires AtSweep(svc, a, v) && v.pc.Clock? && forall i :: 0 <= i < |others| ==> Avoids(others[i], a)
    modifies svc
    ensures svc.World() == Next(svc.c, Run(svc.c, old(svc.World()), others), Act(a, Ok))
    ensures AtSweep(svc, a, w) && w.pc.Loop?
    ensures
      var met := Run(svc.c, old(svc.World()), others);
      w == v.(pc := Loop, at := met.now, i := 0) && GoesOn(met, svc.World(), a, Sweep(w))
  {
    hide Run, Next, Assembled;
    svc.Yield(others, a);
    SweepNext(svc.c, svc.World(), a, Ok);
    w := v.(pc := Loop, at := svc.now, i := 0);
    svc.actors := svc.actors[a := Sweep(w)];
  }

  // ---- Writing ----

  method SkipListed(svc: Service, a: nat, v: SweepVars) returns (w: SweepVars)
    requires AtSweep(svc, a, v) && v.pc.Loop? && v.i < |v.listing| && !MustGo(v, v.listing[v.i])
    modifies svc`actors
    ensures svc.World() == Next(svc.c, old(svc.World()), Act(a, Ok))
    ensures AtSweep(svc, a, w) && w == v.(i := v.i + 1)
    ensures GoesOn(old(svc.World()), svc.World(), a, Sweep(w))
  {
    hide Next, Assembled;
    SweepNext(svc.c, svc.World(), a, Ok);
    w := v.(i := v.i + 1);
    svc.actors := svc.actors[a := Sweep(w)];
  }

  method RemoveListed(svc: Service, a: nat, v: SweepVars, others: seq<Step>, fails: bool)
    returns (w: SweepVars, ghost choice: Choice)
    requires AtSweep(svc, a, v) && v.pc.Loop? && v.i < |v.listing| && MustGo(v, v.listing[v.i])
    requires forall i :: 0 <= i < |others| ==> Avoids(others[i], a)
    modifies svc
    ensures svc.World() == Next(svc.c, Run(svc.c, old(svc.World()), others), Act(a, choice))
    ensures (choice.Fail? <==> fails) && !choice.FailLanded?
    ensures if fails then svc.Valid() && a !in svc.actors && w == v else AtSweep(svc, a, w) && w == v.(pc := MarkStopped)
    ensures !fails ==> v.listing[v.i].id !in svc.boxes
    ensures
      var met := Run(svc.c, old(svc.World()), others);
      var id := v.listing[v.i].id;
      if fails then svc.World() == met.(actors := met.actors - {a})
      else Became(met, svc.World(), a, id, Get(met, id).(box := None), Some(Sweep(w)), met.tally)
  {
    hide Run, Next, Assembled;
    svc.Yield(others, a);
    choice := if fails then Fail else Ok;
    SweepNext(svc.c, svc.World(), a, choice);
    if fails {
      w := v;
      svc.actors := svc.actors - {a};
    } else {
      var id := v.listing[v.i].id;
      svc.LookAt(id);
      var _ := svc.Remove(id);
      svc.LookAt(id);
      w := v.(pc := MarkStopped);
      svc.actors := svc.actors[a := Sweep(w)];
    }
  }

  method MarkListed(svc: Service, a: nat, v: SweepVars, others: seq<Step>) returns (w: SweepVars)
    requires AtSweep(svc, a, v) && v.pc.MarkStopped? && v.i < |v.listing|
    requires forall i :: 0 <= i < |others| ==> Avoids(others[i], a)
    modifies svc
    ensures svc.World() == Next(svc.c, Run(svc.c, old(svc.World()), others), Act(a, Ok))
    ensures AtSweep(svc, a, w) && w.pc.Loop? && w.i == v.i + 1 && w.listing == v.listing
    ensures !Matches(svc.CellOf(v.listing[v.i].id).row, ACTIVE)
    ensures
      var met := Run(svc.c, old(svc.World()), others);
      var e := v.listing[v.i];
      var was := Get(met, e.id);
      && w == v.(pc := Loop, i := v.i + 1,
                 reaped := if e.expiry <= v.at then v.reaped.(expired := v.reaped.expired + 1)
                           else v.reaped.(orphan := v.reaped.orphan + 1))
      && Became(met, svc.World(), a, e.id,
                if Matches(was.row, ACTIVE) then was.(row := Some(was.row.value.(status := Stopped))) else was,
                Some(Sweep(w)), met.tally)
  {
    hide Run, Next, Assembled;
    svc.Yield(others, a);
    SweepNext(svc.c, svc.World(), a, Ok);
    var e := v.listing[v.i];
    svc.LookAt(e.id);
    var _ := svc.Transition(e.id, ACTIVE, Values(Stopped, None, None, None));
    svc.LookAt(e.id);
    w := v.(pc := Loop, i := v.i + 1, reaped := Count(v.reaped, e.expiry <= v.at));
    svc.actors := svc.actors[a := Sweep(w)];
  }

  method LeaveLoop(svc: Service, a: nat, v: SweepVars) returns (w: SweepVars)
    requires AtSweep(svc, a, v) && v.pc.Loop? && v.i >= |v.listing|
    modifies svc`actors
    ensures svc.World() == Next(svc.c, old(svc.World()), Act(a, Ok))
    ensures AtSweep(svc, a, w) && w == v.(pc := Vanish(v.running - Live(v.listing)))
    ensures GoesOn(old(svc.World()), svc.World(), a, Sweep(w))
  {
    hide Next, Assembled, Live;
    SweepNext(svc.c, svc.World(), a, Ok);
    w := v.(pc := Vanish(v.running - Live(v.listing)));
    svc.actors := svc.actors[a := Sweep(w)];
  }

  method FailLost(svc: Service, a: nat, v: SweepVars, id: Id, others: seq<Step>) returns (w: SweepVars)
    requires AtSweep(svc, a, v) && v.pc.Vanish? && id in v.pc.todo && id in svc.known
    requires forall i :: 0 <= i < |others| ==> Avoids(others[i], a)
    modifies svc
    ensures svc.World() == Next(svc.c, Run(svc.c, old(svc.World()), others), Act(a, Pick(id)))
    ensures AtSweep(svc, a, w) && w.pc == Vanish(v.pc.todo - {id})
    ensures w.running == v.running && w.listing == v.listing
    ensures !Matches(svc.CellOf(id).row, {Running}) && old(svc.known) <= svc.known
    ensures
      var met := Run(svc.c, old(svc.World()), others);
      var was := Get(met, id);
      var own := Matches(was.row, {Running});
      && w.reaped == (if own then v.reaped.(vanished := v.reaped.vanished + 1) else v.reaped)
      && Became(met, svc.World(), a, id,
                if own then was.(row := Some(was.row.value.(status := Failed, error := Some(ContainerDisappeared)))) else was,
                Some(Sweep(w)), met.tally)
  {
    hide Run, Next, Assembled;
    svc.Yield(others, a);
    SweepNext(svc.c, svc.World(), a, Pick(id));
    svc.LookAt(id);
    svc.SameCell(id);
    w := v.(pc := Vanish(v.pc.todo - {id}));
    var changed := svc.Transition(id, {Running}, Values(Failed, Some(Some(ContainerDisappeared)), None, None));
    if changed {
      w := w.(reaped := w.reaped.(vanished := w.reaped.vanished + 1));
    }
    svc.LookAt(id);
    svc.actors := svc.actors[a := Sweep(w)];
  }

  function StopsFinished(rows: map<Id, Row>, live: set<Id>): map<Id, Row> {
    map id | id in rows :: if rows[id].status == Stopping && id !in live then rows[id].(status := Stopped) else rows[id]
  }

  /** A stop with nothing left to remove is finished; nothing else changes. */
  function StopFinished(cell: Cell, listed: bool): Cell {
    if Matches(cell.row, {Stopping}) && !listed then cell.(row := Some(cell.row.value.(status := Stopped))) else cell
  }

  lemma SameBulk(svc: Service, live: set<Id>)
    requires svc.Valid()
    ensures FinishLostStops(svc.World().cells, live) ==
            Assembled(svc.known, StopsFinished(svc.rows, live), svc.boxes, svc.startJobs, svc.stopJobs)
    ensures
      var after := Assembled(svc.known, StopsFinished(svc.rows, live), svc.boxes, svc.startJobs, svc.stopJobs);
      && after.Keys == svc.World().cells.Keys
      && forall id :: id in after ==> after[id] == StopFinished(svc.World().cells[id], id in live)
    ensures StopsFinished(svc.rows, live).Keys <= svc.known
    ensures
      var rows := StopsFinished(svc.rows, live);
      forall id :: id in rows && rows[id].status == Stopping ==> id in live
  {
    var cells, rows := svc.World().cells, StopsFinished(svc.rows, live);
    forall id | id in svc.known
      ensures FinishLostStops(cells, live)[id] ==
              Cell(At(rows, id), At(svc.boxes, id), At(svc.startJobs, id), At(svc.stopJobs, id))
    {
      assert cells[id] == svc.CellOf(id);
    }
  }

  /** The bulk update. */
  method FinishStops(svc: Service, a: nat, v: SweepVars, others: seq<Step>)
    requires AtSweep(svc, a, v) && v.pc == Vanish({})
    requires forall i :: 0 <= i < |others| ==> Avoids(others[i], a)
    modifies svc
    ensures svc.World() == Next(svc.c, Run(svc.c, old(svc.World()), others), Act(a, Ok))
    ensures svc.Valid() && a !in svc.actors
    ensures forall id :: id in svc.rows && svc.rows[id].status == Stopping ==> id in Live(v.listing)
    ensures
      var met := Run(svc.c, old(svc.World()), others);
      && svc.World() == met.(cells := svc.World().cells, actors := met.actors - {a})
      && svc.World().cells.Keys == met.cells.Keys
      && forall id :: id in met.cells ==>
           svc.World().cells[id] == StopFinished(met.cells[id], id in Live(v.listing))
  {
    hide Run, Next, Live, FinishLostStops, StopsFinished, StopFinished, Assembled;
    svc.Yield(others, a);
    SweepNext(svc.c, svc.World(), a, Ok);
    SameBulk(svc, Live(v.listing));
    svc.rows := StopsFinished(svc.rows, Live(v.listing));
    svc.actors := svc.actors - {a};
  }

  // ---- The sweep ----

  /** As long as nobody interferes, the sweep is where an undisturbed one would be. */
  ghost predicate Calm(env: Env, s0: State, s: State, a: nat) {
    Undisturbed(env) ==> QuietAt(s0, s, a)
  }

  /** What a sweep that has ended means for the service `s0` it found: nothing is claimed if others
      interfered; otherwise it has converged, or has been aborted and leaves only half-done work that
      the next sweep repairs. */
  ghost predicate Achieved(env: Env, s0: State, s: State, success: bool, reaped: Reaped) {
    Undisturbed(env) ==>
      if success then s.cells == Swept(s0.cells, s0.now) && reaped == SweptCounts(s0.cells, s0.now)
      else Concluded(s0, s.cells)
  }

  /** One more await of the sweep. */
  lemma Await(c: Consts, env: Env, a: nat, s0: State, start: State, trace: seq<Step>, k: nat, choice: Choice,
              s1: State, s2: State)
    requires EnvAvoids(env, a) && Woven(env, a, trace) && Permitted(env, choice) && Calm(env, s0, s1, a)
    requires s1 == Run(c, start, trace) && s2 == Next(c, Run(c, s1, env.others(k)), Act(a, choice))
    ensures
      var more := trace + env.others(k) + [Act(a, choice)];
      s2 == Run(c, start, more) && Woven(env, a, more)
    ensures a in s2.actors ==> Calm(env, s0, s2, a)
    ensures a !in s2.actors && Undisturbed(env) ==> s2 == Next(c, s1, Act(a, choice))
  {
    hide Next, Woven, QuietAt;
    Extend(c, env, a, start, trace, k, choice, s1, s2);
    if Undisturbed(env) {
      QuietStep(c, s0, s1, a, choice);
    }
  }

  /** One more step without waiting. */
  lemma Straight(c: Consts, env: Env, a: nat, s0: State, start: State, trace: seq<Step>, s1: State, s2: State)
    requires Woven(env, a, trace) && Calm(env, s0, s1, a)
    requires s1 == Run(c, start, trace) && s2 == Next(c, s1, Act(a, Ok)) && a in s2.actors
    ensures
      var more := trace + [Act(a, Ok)];
      s2 == Run(c, start, more) && Woven(env, a, more) && Calm(env, s0, s2, a)
  {
    hide Next, QuietAt;
    RunSnoc(c, start, trace, Act(a, Ok));
    if Undisturbed(env) {
      QuietStep(c, s0, s1, a, Ok);
    }
  }

  /** The last await of a sweep. */
  lemma Ended(c: Consts, env: Env, a: nat, s0: State, s1: State, choice: Choice, s2: State, v: SweepVars)
    requires Calm(env, s0, s1, a) && a in s1.actors && s1.actors[a] == Sweep(v) && a !in s2.actors
    requires Undisturbed(env) ==> s2 == Next(c, s1, Act(a, choice))
    ensures Achieved(env, s0, s2, v.pc.Vanish?, v.reaped)
  {
    hide Next, QuietAt, Concluded, Swept, SweptCounts;
    if Undisturbed(env) {
      QuietStep(c, s0, s1, a, choice);
      QuietEnds(c, s0, s1, a, choice);
    }
  }

  method GatherPicture(svc: Service, a: nat, env: Env)
    returns (v: SweepVars, success: bool, ghost trace: seq<Step>)
    requires AtSweep(svc, a, NEW_SWEEP) && EnvAvoids(env, a)
    modifies svc
    ensures svc.World() == Run(svc.c, old(svc.World()), trace) && Woven(env, a, trace)
    ensures success <==> !env.choice(1).Fail?
    ensures success ==> AtSweep(svc, a, v) && v.pc.Loop? && Calm(env, old(svc.World()), svc.World(), a)
    ensures !success ==> svc.Valid() && a !in svc.actors && Achieved(env, old(svc.World()), svc.World(), false, v.reaped)
    ensures !success ==> LastReaped(svc.c, old(svc.World()), trace, a, v.reaped, false)
  {
    hide Run, Next, Assembled, Woven, QuietAt, Achieved, LastReaped, GoesOn;
    ghost var s0 := svc.World();
    ghost var s1 := s0;
    trace := [];
    Nothing(svc.c, env, a, s0);
    assert Calm(env, s0, s0, a) by { Begins(s0, a); }
    hide Calm;
    v := TakeSnapshot(svc, a, env.others(0));
    Await(svc.c, env, a, s0, s0, trace, 0, Ok, s1, svc.World());
    trace := trace + env.others(0) + [Act(a, Ok)];
    s1 := svc.World();
    success := !env.choice(1).Fail?;
    ghost var choice;
    ghost var before := v;
    v, choice := ListContainers(svc, a, v, env.others(1), !success);
    ReapedLast(svc.c, s0, trace, s1, env.others(1), choice, a, before);
    Await(svc.c, env, a, s0, s0, trace, 1, choice, s1, svc.World());
    trace := trace + env.others(1) + [Act(a, choice)];
    if !success {
      Ended(svc.c, env, a, s0, s1, choice, svc.World(), before);
      return;
    }
    s1 := svc.World();
    v := ReadStatuses(svc, a, v, env.others(2));
    Await(svc.c, env, a, s0, s0, trace, 2, Ok, s1, svc.World());
    trace := trace + env.others(2) + [Act(a, Ok)];
    s1 := svc.World();
    v := ReadClock(svc, a, v, env.others(3));
    Await(svc.c, env, a, s0, s0, trace, 3, Ok, s1, svc.World());
    trace := trace + env.others(3) + [Act(a, Ok)];
  }

  lemma Begins(s0: State, a: nat)
    requires a in s0.actors && s0.actors[a] == Sweep(NEW_SWEEP)
    ensures QuietAt(s0, s0, a)
  {
  }

  /** The loop over the listing. */
  method ReapListed(svc: Service, a: nat, v0: SweepVars, k0: nat, env: Env, ghost s0: State)
    returns (v: SweepVars, success: bool, k: nat, ghost trace: seq<Step>)
    requires AtSweep(svc, a, v0) && v0.pc.Loop? && EnvAvoids(env, a) && Calm(env, s0, svc.World(), a)
    modifies svc
    ensures svc.World() == Run(svc.c, old(svc.World()), trace) && Woven(env, a, trace)
    ensures (forall j :: k0 <= j ==> !env.choice(j).Fail?) ==> success
    ensures success ==> AtSweep(svc, a, v) && v.pc.Vanish? && v.pc.todo <= v.running && Calm(env, s0, svc.World(), a)
    ensures !success ==> svc.Valid() && a !in svc.actors && Achieved(env, s0, svc.World(), false, v.reaped)
    ensures !success ==> LastReaped(svc.c, old(svc.World()), trace, a, v.reaped, false)
    ensures k0 <= k
  {
    hide Run, Next, Assembled, Woven, QuietAt, Achieved, Calm, Live, MustGo, LastReaped, GoesOn, Became;
    ghost var start := svc.World();
    ghost var s1 := start;
    ghost var choice;
    v, k, trace, success := v0, k0, [], true;
    Nothing(svc.c, env, a, start);
    while v.i < |v.listing|
      invariant AtSweep(svc, a, v) && v.pc.Loop? && v.listing == v0.listing && k0 <= k && success
      invariant svc.World() == Run(svc.c, start, trace) && Woven(env, a, trace) && Calm(env, s0, svc.World(), a)
      decreases |v0.listing| - v.i
    {
      s1 := svc.World();
      if !MustGo(v, v.listing[v.i]) {
        v := SkipListed(svc, a, v);
        Straight(svc.c, env, a, s0, start, trace, s1, svc.World());
        trace := trace + [Act(a, Ok)];
      } else {
        success := !env.choice(k).Fail?;
        ghost var before, prior := v, trace;
        v, choice := RemoveListed(svc, a, v, env.others(k), !success);
        Await(svc.c, env, a, s0, start, trace, k, choice, s1, svc.World());
        trace := trace + env.others(k) + [Act(a, choice)];
        if !success {
          ReapedLast(svc.c, start, prior, s1, env.others(k), choice, a, before);
          Ended(svc.c, env, a, s0, s1, choice, svc.World(), before);
          return;
        }
        s1 := svc.World();
        v := MarkListed(svc, a, v, env.others(k + 1));
        Await(svc.c, env, a, s0, start, trace, k + 1, Ok, s1, svc.World());
        trace := trace + env.others(k + 1) + [Act(a, Ok)];
        k := k + 2;
      }
    }
    s1 := svc.World();
    v := LeaveLoop(svc, a, v);
    Straight(svc.c, env, a, s0, start, trace, s1, svc.World());
    trace := trace + [Act(a, Ok)];
  }

  /** Only the bulk update is left to do. */
  ghost predicate AboutToFinish(s: State, a: nat) {
    a in s.actors && s.actors[a].Sweep? && s.actors[a].vars.pc == Vanish({})
  }

  lemma Waits(c: Consts, start: State, trace: seq<Step>, s: State, env: Env, k: nat, a: nat)
    requires s == Run(c, start, trace) && EnvAvoids(env, a) && a < s.next && AboutToFinish(s, a)
    ensures AboutToFinish(Run(c, start, trace + env.others(k)), a)
  {
    hide Next;
    RunAppend(c, start, trace, env.others(k));
    OthersKeepMeRun(c, s, env.others(k), a);
  }

  /** What a completed sweep has achieved although others were at work all the time: every stop it
      found pending is done, every sandbox it found running past its time is not running any more,
      every container it found unwanted is gone, and in the serial regime every loss it found is
      noticed. */
  ghost predicate Progressed(c: Consts, s0: State, s: State) {
    Inv(s0) ==>
      && (forall id :: Matches(Get(s0, id).row, {Stopping}) ==> AtLeast(Get(s, id), 3))
      && (forall id :: Matches(Get(s0, id).row, {Running}) && Label(Get(s0, id).row.value.expiresAt) <= s0.now ==>
            AtLeast(Get(s, id), 2))
      && (forall id :: Leaked(s0, id) ==> Get(s, id).box.None?)
      && (c.serial && SerialInv(s0) ==>
            forall id :: Matches(Get(s0, id).row, {Running}) && Get(s0, id).box.None? ==> AtLeast(Get(s, id), 2))
  }

  lemma Progresses(c: Consts, s0: State, steps: seq<Step>, a: nat, s: State)
    requires a in s0.actors && s0.actors[a] == Sweep(NEW_SWEEP) && AboutToFinish(Run(c, s0, steps), a)
    requires s == Run(c, s0, steps + [Act(a, Ok)])
    ensures Progressed(c, s0, s)
  {
    hide Next, Run, Inv, SerialInv, Leaked, Label;
    RunSnoc(c, s0, steps, Act(a, Ok));
    if Inv(s0) {
      forall id | Matches(Get(s0, id).row, {Stopping}) ensures AtLeast(Get(s, id), 3) {
        StopsAreFinished(c, s0, a, id, steps, Ok);
      }
      forall id | Matches(Get(s0, id).row, {Running}) && Label(Get(s0, id).row.value.expiresAt) <= s0.now
        ensures AtLeast(Get(s, id), 2)
      {
        LifetimesAreEnforced(c, s0, a, id, steps, Ok);
      }
      forall id | Leaked(s0, id) ensures Get(s, id).box.None? {
        LeaksAreRemoved(c, s0, a, id, steps, Ok);
      }
      if c.serial && SerialInv(s0) {
        forall id | Matches(Get(s0, id).row, {Running}) && Get(s0, id).box.None? ensures AtLeast(Get(s, id), 2) {
          LossesAreNoticed(c, s0, a, id, steps, Ok);
        }
      }
    }
  }

  /** The loop over the running rows without a container, and the bulk update. */
  method FailVanished(svc: Service, a: nat, v0: SweepVars, k0: nat, env: Env, ghost s0: State)
    returns (reaped: Reaped, ghost trace: seq<Step>, ghost last: seq<Step>)
    requires AtSweep(svc, a, v0) && v0.pc.Vanish? && v0.pc.todo <= v0.running
    requires EnvAvoids(env, a) && Calm(env, s0, svc.World(), a)
    modifies svc
    ensures svc.World() == Run(svc.c, old(svc.World()), trace) && Woven(env, a, trace)
    ensures svc.Valid() && a !in svc.actors && Achieved(env, s0, svc.World(), true, reaped)
    ensures trace == last + [Act(a, Ok)] && AboutToFinish(Run(svc.c, old(svc.World()), last), a)
    ensures LastReaped(svc.c, old(svc.World()), trace, a, reaped, true)
    ensures forall id :: id in svc.rows && svc.rows[id].status == Stopping ==> id in Live(v0.listing)
  {
    hide Run, Next, Assembled, Woven, QuietAt, Achieved, Calm, Live, LastReaped, Became;
    ghost var start := svc.World();
    ghost var s1 := start;
    var v, k, todo := v0, k0, v0.pc.todo;
    trace := [];
    Nothing(svc.c, env, a, start);
    while todo != {}
      invariant AtSweep(svc, a, v) && v.pc == Vanish(todo) && todo <= v.running && v.listing == v0.listing
      invariant svc.World() == Run(svc.c, start, trace) && Woven(env, a, trace) && Calm(env, s0, svc.World(), a)
      decreases |todo|
    {
      s1 := svc.World();
      var id :| id in todo;
      v := FailLost(svc, a, v, id, env.others(k));
      Await(svc.c, env, a, s0, start, trace, k, Pick(id), s1, svc.World());
      trace := trace + env.others(k) + [Act(a, Pick(id))];
      todo, k := todo - {id}, k + 1;
    }
    s1 := svc.World();
    last := trace + env.others(k);
    Waits(svc.c, start, trace, s1, env, k, a);
    FinishStops(svc, a, v, env.others(k));
    ReapedLast(svc.c, start, trace, s1, env.others(k), Ok, a, v);
    Await(svc.c, env, a, s0, start, trace, k, Ok, s1, svc.World());
    trace := trace + env.others(k) + [Act(a, Ok)];
    Ended(svc.c, env, a, s0, s1, Ok, svc.World(), v);
    reaped := v.reaped;
  }

  /** `reconcile_sandboxes`. It takes the steps of its actor in the protocol whatever others do
      meanwhile; completed or aborted, it reports exactly its own writes; and when it completes it has
      made the progress it is for. If nobody interferes it
      leaves exactly the declared state and reports exactly the declared counts, in whatever order
      the daemon lists the containers; and it fails only if a call to Docker does. */
  method ReconcileSandboxes(svc: Service, a: nat, env: Env)
    returns (reaped: Reaped, success: bool, ghost trace: seq<Step>)
    requires AtSweep(svc, a, NEW_SWEEP) && EnvAvoids(env, a)
    modifies svc
    ensures svc.World() == Run(svc.c, old(svc.World()), trace) && Woven(env, a, trace)
    ensures svc.Valid() && a !in svc.actors
    ensures (forall k :: !env.choice(k).Fail?) ==> success
    ensures Achieved(env, old(svc.World()), svc.World(), success, reaped)
    ensures success ==> Progressed(svc.c, old(svc.World()), svc.World())
    ensures LastReaped(svc.c, old(svc.World()), trace, a, reaped, success)
    ensures Inv(old(svc.World())) ==> reaped == CountedBy(svc.c, old(svc.World()), trace, a)
  {
    hide Run, Next, Assembled, Woven, QuietAt, Achieved, Calm, Progressed, AboutToFinish, LastReaped, Inv;
    ghost var s0 := svc.World();
    var v;
    v, success, trace := GatherPicture(svc, a, env);
    ghost var s1, more, last := svc.World(), [], [];
    var k := 4;
    if success {
      v, success, k, more := ReapListed(svc, a, v, k, env, s0);
      if !success {
        ReapedLastJoins(svc.c, s0, trace, s1, more, a, v.reaped, false);
      }
      Join(svc.c, env, a, s0, trace, more, s1, svc.World());
      trace := trace + more;
    }
    reaped := v.reaped;
    if success {
      s1 := svc.World();
      ghost var before;
      reaped, last, before := FailVanished(svc, a, v, k, env, s0);
      Join(svc.c, env, a, s0, trace, last, s1, svc.World());
      RunAppend(svc.c, s0, trace, before);
      assert trace + last == (trace + before) + [Act(a, Ok)];
      Progresses(svc.c, s0, trace + before, a, svc.World());
      ReapedLastJoins(svc.c, s0, trace, s1, last, a, reaped, true);
      trace := trace + last;
    }
    if Inv(s0) {
      SweepReportsItsWrites(svc.c, s0, trace, a, reaped, success);
    }
  }
}
