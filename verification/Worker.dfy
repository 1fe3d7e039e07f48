/** `app/worker.py`: the start and stop jobs as programs. */
module WorkerCode {
  import opened Lifecycle
  import opened Protocol
  import opened Invariant
  import opened Serial
  import opened ServiceCode

  datatype StartOutcome =
    | Missing
    | Settled(status: Status)
    | ExpiredBeforeStart
    | Cancelled
    | Retried
    | FailedStart
    | NowRunning

  /** The step of a start run, spelled out. */
  lemma StartNext(c: Consts, s: State, a: nat, choice: Choice)
    requires a in s.actors && s.actors[a].Start? && !s.actors[a].pc.Finish?
    ensures
      var x := s.actors[a];
      var out := StepStart(c, s.now, Get(s, x.id), x.try, x.pc, choice);
      Next(c, s, Act(a, choice)) == s.(
        actors := s.actors[a := Start(x.id, x.try, out.pc)],
        cells := s.cells[x.id := out.cell],
        tally := Noted(s.tally, out.note))
    ensures Noted(s.tally, Quiet) == s.tally
  {
    hide StepStart;
  }

  // ---- start_sandbox, await by await ----

  /** The run `a` of `start_sandbox` is about to perform `pc`. */
  predicate AtStart(svc: Service, a: nat, id: Id, try: nat, pc: StartPc)
    reads svc
  {
    svc.Valid() && id in svc.known && a in svc.actors && a < svc.next && svc.actors[a] == Start(id, try, pc)
  }

  method ReadRow(svc: Service, a: nat, id: Id, try: nat, others: seq<Step>) returns (pc: StartPc, outcome: StartOutcome)
    requires AtStart(svc, a, id, try, Read) && forall i :: 0 <= i < |others| ==> Avoids(others[i], a)
    modifies svc
    ensures svc.World() == Next(svc.c, Run(svc.c, old(svc.World()), others), Act(a, Ok))
    ensures AtStart(svc, a, id, try, pc) && (pc.Expire? || pc.Claim? || pc == Finish(false))
    ensures pc.Finish? ==>
              var row := Get(Run(svc.c, old(svc.World()), others), id).row;
              outcome == if row.Some? then Settled(row.value.status) else Missing
    ensures pc.Finish? ==> outcome == if svc.CellOf(id).row.Some? then Settled(svc.CellOf(id).row.value.status) else Missing
    ensures pc.Finish? ==> !Matches(svc.CellOf(id).row, STARTABLE)
    ensures pc.Expire? ==> Matches(svc.CellOf(id).row, STARTABLE) && svc.CellOf(id).row.value.expiresAt <= svc.now
    ensures pc.Claim? ==> Matches(svc.CellOf(id).row, STARTABLE) && svc.CellOf(id).row.value.expiresAt > svc.now
    ensures
      var w := Run(svc.c, old(svc.World()), others);
      var was := Get(w, id);
      && pc == (if !Matches(was.row, STARTABLE) then Finish(false)
                else if was.row.value.expiresAt <= w.now then Expire else Claim)
      && Became(w, svc.World(), a, id, was, Some(Start(id, try, pc)),
                if was.row.None? then w.tally.(failed := w.tally.failed + 1) else w.tally)
  {
    hide Run, Next, Assembled;
    svc.Yield(others, a);
    StartNext(svc.c, svc.World(), a, Ok);
    outcome := Missing;
    if id !in svc.rows {
      svc.tally := Noted(svc.tally, Failure);
      pc := Finish(false);
    } else if svc.rows[id].status !in STARTABLE {
      pc, outcome := Finish(false), Settled(svc.rows[id].status);
    } else if svc.rows[id].expiresAt <= svc.now {
      pc := Expire;
    } else {
      pc := Claim;
    }
    svc.actors := svc.actors[a := Start(id, try, pc)];
    svc.SameCell(id);
    svc.LookAt(id);
  }

  method ExpireRow(svc: Service, a: nat, id: Id, try: nat, others: seq<Step>)
    requires AtStart(svc, a, id, try, Expire) && forall i :: 0 <= i < |others| ==> Avoids(others[i], a)
    modifies svc
    ensures svc.World() == Next(svc.c, Run(svc.c, old(svc.World()), others), Act(a, Ok))
    ensures AtStart(svc, a, id, try, Finish(false)) && !Matches(svc.CellOf(id).row, STARTABLE)
    ensures
      var w := Run(svc.c, old(svc.World()), others);
      var was := Get(w, id);
      var stopped := if Matches(was.row, STARTABLE)
                     then was.(row := Some(was.row.value.(status := Stopped, error := Some(ExpiredInQueue)))) else was;
      Became(w, svc.World(), a, id, stopped, Some(Start(id, try, Finish(false))),
             w.tally.(expired := w.tally.expired + 1))
  {
    hide Run, Next, Assembled;
    svc.Yield(others, a);
    StartNext(svc.c, svc.World(), a, Ok);
    svc.LookAt(id);
    var _ := svc.Transition(id, STARTABLE, Values(Stopped, Some(Some(ExpiredInQueue)), None, None));
    svc.tally := Noted(svc.tally, Expired);
    svc.actors := svc.actors[a := Start(id, try, Finish(false))];
    svc.LookAt(id);
  }

  method ClaimRow(svc: Service, a: nat, id: Id, try: nat, others: seq<Step>) returns (changed: bool)
    requires AtStart(svc, a, id, try, Claim) && forall i :: 0 <= i < |others| ==> Avoids(others[i], a)
    modifies svc
    ensures svc.World() == Next(svc.c, Run(svc.c, old(svc.World()), others), Act(a, Ok))
    ensures AtStart(svc, a, id, try, if changed then Inspect else Finish(false))
    ensures changed ==> Matches(svc.CellOf(id).row, {Starting}) && svc.CellOf(id).row.value.attempts == try
    ensures !changed ==> !Matches(svc.CellOf(id).row, STARTABLE)
    ensures
      var w := Run(svc.c, old(svc.World()), others);
      var was := Get(w, id);
      && (changed <==> Matches(was.row, STARTABLE))
      && Became(w, svc.World(), a, id,
                if changed then was.(row := Some(was.row.value.(status := Starting, attempts := try))) else was,
                Some(Start(id, try, if changed then Inspect else Finish(false))), w.tally)
  {
    hide Run, Next, Assembled;
    svc.Yield(others, a);
    StartNext(svc.c, svc.World(), a, Ok);
    svc.LookAt(id);
    changed := svc.Transition(id, STARTABLE, Values(Starting, None, None, Some(try)));
    svc.actors := svc.actors[a := Start(id, try, if changed then Inspect else Finish(false))];
    svc.LookAt(id);
  }

  // `_ensure_container` and `_wait_ready`: every Docker call may be the one that raises.

  method InspectBox(svc: Service, a: nat, id: Id, try: nat, others: seq<Step>, choice: Choice) returns (pc: StartPc)
    requires AtStart(svc, a, id, try, Inspect) && forall i :: 0 <= i < |others| ==> Avoids(others[i], a)
    modifies svc
    ensures svc.World() == Next(svc.c, Run(svc.c, old(svc.World()), others), Act(a, choice))
    ensures AtStart(svc, a, id, try, pc) && (pc.Undo? || pc.Launch? || pc.Clear? || pc.Probe?)
    ensures
      var w := Run(svc.c, old(svc.World()), others);
      var was := Get(w, id);
      && pc == (if !choice.Ok? then Undo
                else if was.box.None? then Launch
                else if was.box.value.up then Probe(was.box.value.port)
                else Clear(was.box.value))
      && Became(w, svc.World(), a, id, was, Some(Start(id, try, pc)), w.tally)
  {
    hide Run, Next, Assembled;
    svc.Yield(others, a);
    StartNext(svc.c, svc.World(), a, choice);
    svc.LookAt(id);
    if !choice.Ok? {
      pc := Undo;
    } else if id !in svc.boxes {
      pc := Launch;
    } else if svc.boxes[id].up {
      pc := Probe(svc.boxes[id].port);
    } else {
      pc := Clear(svc.boxes[id]);
    }
    svc.actors := svc.actors[a := Start(id, try, pc)];
    svc.SameCell(id);
  }

  method ClearBox(svc: Service, a: nat, id: Id, try: nat, seen: Box, others: seq<Step>, choice: Choice) returns (pc: StartPc)
    requires AtStart(svc, a, id, try, Clear(seen)) && forall i :: 0 <= i < |others| ==> Avoids(others[i], a)
    modifies svc
    ensures svc.World() == Next(svc.c, Run(svc.c, old(svc.World()), others), Act(a, choice))
    ensures AtStart(svc, a, id, try, pc) && (pc.Undo? || pc.Launch?)
    ensures
      var w := Run(svc.c, old(svc.World()), others);
      var was := Get(w, id);
      && pc == (if choice.Ok? && was.box == Some(seen) then Launch else Undo)
      && Became(w, svc.World(), a, id, if pc.Launch? then was.(box := None) else was, Some(Start(id, try, pc)), w.tally)
  {
    hide Run, Next, Assembled;
    svc.Yield(others, a);
    StartNext(svc.c, svc.World(), a, choice);
    svc.LookAt(id);
    if choice.Ok? && id in svc.boxes && svc.boxes[id] == seen {
      var _ := svc.Remove(id);
      pc := Launch;
    } else {
      pc := Undo;
      svc.SameCell(id);
    }
    svc.actors := svc.actors[a := Start(id, try, pc)];
  }

  method LaunchBox(svc: Service, a: nat, id: Id, try: nat, others: seq<Step>, choice: Choice) returns (pc: StartPc)
    requires AtStart(svc, a, id, try, Launch) && forall i :: 0 <= i < |others| ==> Avoids(others[i], a)
    modifies svc
    ensures svc.World() == Next(svc.c, Run(svc.c, old(svc.World()), others), Act(a, choice))
    ensures AtStart(svc, a, id, try, pc) && (pc.Undo? || pc.Probe?)
    ensures
      var w := Run(svc.c, old(svc.World()), others);
      var was := Get(w, id);
      // a container that is there is reused if it is up; otherwise one is created with the label
      var creates := was.box.None? && was.row.Some?;
      && pc == (if choice.Publish? && was.box.Some? && was.box.value.up then Probe(was.box.value.port)
                else if choice.Publish? && creates then Probe(choice.port)
                else Undo)
      && Became(w, svc.World(), a, id,
                if creates && choice.Publish? then was.(box := Some(Box(Label(was.row.value.expiresAt), true, choice.port)))
                else if creates && choice.FailLanded? then was.(box := Some(Box(Label(was.row.value.expiresAt), false, 0)))
                else was,
                Some(Start(id, try, pc)), w.tally)
  {
    hide Run, Next, Assembled;
    svc.Yield(others, a);
    StartNext(svc.c, svc.World(), a, choice);
    svc.LookAt(id);
    if id in svc.boxes {
      pc := if choice.Publish? && svc.boxes[id].up then Probe(svc.boxes[id].port) else Undo;
      svc.SameCell(id);
    } else if id !in svc.rows {
      pc := Undo;
      svc.SameCell(id);
    } else if choice.Publish? {
      svc.CreateBox(id, Box(Label(svc.rows[id].expiresAt), true, choice.port));
      pc := Probe(choice.port);
    } else {
      if choice.FailLanded? {
        svc.CreateBox(id, Box(Label(svc.rows[id].expiresAt), false, 0));
      } else {
        svc.SameCell(id);
      }
      pc := Undo;
    }
    svc.actors := svc.actors[a := Start(id, try, pc)];
  }

  method ProbeBox(svc: Service, a: nat, id: Id, try: nat, port: nat, others: seq<Step>, choice: Choice) returns (pc: StartPc)
    requires AtStart(svc, a, id, try, Probe(port)) && forall i :: 0 <= i < |others| ==> Avoids(others[i], a)
    modifies svc
    ensures svc.World() == Next(svc.c, Run(svc.c, old(svc.World()), others), Act(a, choice))
    ensures AtStart(svc, a, id, try, pc) && (pc == Undo || pc == Promote(port))
    ensures
      var w := Run(svc.c, old(svc.World()), others);
      var was := Get(w, id);
      && (pc.Promote? <==> choice.Ok? && was.box.Some? && was.box.value.up)
      && Became(w, svc.World(), a, id, was, Some(Start(id, try, pc)), w.tally)
  {
    hide Run, Next, Assembled;
    svc.Yield(others, a);
    StartNext(svc.c, svc.World(), a, choice);
    svc.LookAt(id);
    pc := if choice.Ok? && id in svc.boxes && svc.boxes[id].up then Promote(port) else Undo;
    svc.actors := svc.actors[a := Start(id, try, pc)];
    svc.SameCell(id);
  }

  method PromoteRow(svc: Service, a: nat, id: Id, try: nat, port: nat, others: seq<Step>, choice: Choice)
    returns (changed: bool)
    requires AtStart(svc, a, id, try, Promote(port)) && forall i :: 0 <= i < |others| ==> Avoids(others[i], a)
    modifies svc
    ensures svc.World() == Next(svc.c, Run(svc.c, old(svc.World()), others), Act(a, choice))
    ensures AtStart(svc, a, id, try, if changed then Finish(false) else Drop)
    ensures changed ==> Matches(svc.CellOf(id).row, {Running}) && svc.CellOf(id).row.value.url == Some(port)
    ensures !changed ==> !Matches(svc.CellOf(id).row, {Starting})
    ensures
      var w := Run(svc.c, old(svc.World()), others);
      var was := Get(w, id);
      && (changed <==> Matches(was.row, {Starting}))
      && Became(w, svc.World(), a, id,
                if changed then was.(row := Some(was.row.value.(status := Running, url := Some(port), error := None))) else was,
                Some(Start(id, try, if changed then Finish(false) else Drop)),
                if changed then w.tally.(success := w.tally.success + 1) else w.tally)
  {
    hide Run, Next, Assembled;
    svc.Yield(others, a);
    StartNext(svc.c, svc.World(), a, choice);
    svc.LookAt(id);
    changed := svc.Transition(id, {Starting}, Values(Running, Some(None), Some(port), None));
    if changed {
      svc.tally := Noted(svc.tally, Success);
    }
    svc.actors := svc.actors[a := Start(id, try, if changed then Finish(false) else Drop)];
    svc.LookAt(id);
  }

  /** `_discard`: best effort, before a failed try is settled or after a lost race. */
  method Discard(svc: Service, a: nat, id: Id, try: nat, pc: StartPc, others: seq<Step>, choice: Choice)
    requires pc.Undo? || pc.Drop?
    requires AtStart(svc, a, id, try, pc) && forall i :: 0 <= i < |others| ==> Avoids(others[i], a)
    modifies svc
    ensures svc.World() == Next(svc.c, Run(svc.c, old(svc.World()), others), Act(a, choice))
    ensures AtStart(svc, a, id, try, if pc.Undo? then Settle else Finish(false))
    ensures choice.Ok? ==> id !in svc.boxes
    ensures
      var w := Run(svc.c, old(svc.World()), others);
      var was := Get(w, id);
      Became(w, svc.World(), a, id, if choice.Ok? then was.(box := None) else was,
             Some(Start(id, try, if pc.Undo? then Settle else Finish(false))), w.tally)
  {
    hide Run, Next, Assembled;
    svc.Yield(others, a);
    StartNext(svc.c, svc.World(), a, choice);
    svc.LookAt(id);
    if choice.Ok? {
      var _ := svc.Remove(id);
      svc.LookAt(id);
    } else {
      svc.SameCell(id);
    }
    svc.actors := svc.actors[a := Start(id, try, if pc.Undo? then Settle else Finish(false))];
  }

  lemma SettleNext(c: Consts, s: State, a: nat, choice: Choice)
    requires a in s.actors && s.actors[a].Start? && s.actors[a].pc.Settle?
    ensures
      var Start(id, try, _) := s.actors[a];
      var was, last := Get(s, id), try >= c.maxTries;
      var own := Matches(was.row, {Starting});
      Became(s, Next(c, s, Act(a, choice)), a, id,
             if !own then was
             else was.(row := Some(was.row.value.(status := if last then Failed else Queued, error := Some(LaunchFailed)))),
             Some(Start(id, try, Finish(!last && own))),
             if last then s.tally.(failed := s.tally.failed + 1)
             else if own then s.tally.(retry := s.tally.retry + 1)
             else s.tally)
  {
    StartNext(c, s, a, choice);
  }

  method SettleRow(svc: Service, a: nat, id: Id, try: nat, others: seq<Step>, choice: Choice) returns (outcome: StartOutcome)
    requires AtStart(svc, a, id, try, Settle) && forall i :: 0 <= i < |others| ==> Avoids(others[i], a)
    modifies svc
    ensures svc.World() == Next(svc.c, Run(svc.c, old(svc.World()), others), Act(a, choice))
    ensures AtStart(svc, a, id, try, Finish(outcome.Retried?))
    ensures outcome.Retried? ==> try < svc.c.maxTries && Matches(svc.CellOf(id).row, {Queued})
    ensures outcome.FailedStart? <==> try >= svc.c.maxTries
    ensures outcome.Retried? || outcome.FailedStart? || outcome.Cancelled?
    ensures !Matches(svc.CellOf(id).row, {Starting})
    ensures
      var w := Run(svc.c, old(svc.World()), others);
      var was := Get(w, id);
      var own := Matches(was.row, {Starting});
      && outcome == (if try >= svc.c.maxTries then FailedStart else if own then Retried else Cancelled)
      && Became(w, svc.World(), a, id,
                if !own then was
                else was.(row := Some(was.row.value.(status := if try < svc.c.maxTries then Queued else Failed,
                                                     error := Some(LaunchFailed)))),
                Some(Start(id, try, Finish(outcome.Retried?))),
                if outcome.Retried? then w.tally.(retry := w.tally.retry + 1)
                else if outcome.FailedStart? then w.tally.(failed := w.tally.failed + 1)
                else w.tally)
  {
    hide Run, Next, StepStart, Assembled;
    svc.Yield(others, a);
    SettleNext(svc.c, svc.World(), a, choice);
    svc.LookAt(id);
    if try < svc.c.maxTries {
      var changed := svc.Transition(id, {Starting}, Values(Queued, Some(Some(LaunchFailed)), None, None));
      if changed {
        svc.tally := Noted(svc.tally, Retry);
      }
      outcome := if changed then Retried else Cancelled;
    } else {
      var _ := svc.Transition(id, {Starting}, Values(Failed, Some(Some(LaunchFailed)), None, None));
      svc.tally := Noted(svc.tally, Failure);
      outcome := FailedStart;
    }
    svc.actors := svc.actors[a := Start(id, try, Finish(outcome.Retried?))];
    svc.LookAt(id);
  }

  /** `DockerRuntime.launch`: create or reuse the container by its name, then wait until it answers. */
  method LaunchSandbox(svc: Service, a: nat, id: Id, try: nat, env: Env) returns (pc: StartPc, ghost trace: seq<Step>)
    requires AtStart(svc, a, id, try, Inspect) && EnvAvoids(env, a)
    modifies svc
    ensures svc.World() == Run(svc.c, old(svc.World()), trace) && Woven(env, a, trace)
    ensures AtStart(svc, a, id, try, pc) && (pc.Promote? || pc.Undo?)
    ensures pc.Promote? ==> env.choice(5).Ok?
  {
    hide Run, Next, Service.World, Woven;
    ghost var s0 := svc.World();
    ghost var s1 := s0;
    trace := [];
    Nothing(svc.c, env, a, s0);
    pc := InspectBox(svc, a, id, try, env.others(2), env.choice(2));
    Extend(svc.c, env, a, s0, trace, 2, env.choice(2), s1, svc.World());
    trace := trace + env.others(2) + [Act(a, env.choice(2))];
    if pc.Clear? {
      s1 := svc.World();
      pc := ClearBox(svc, a, id, try, pc.seen, env.others(3), env.choice(3));
      Extend(svc.c, env, a, s0, trace, 3, env.choice(3), s1, svc.World());
      trace := trace + env.others(3) + [Act(a, env.choice(3))];
    }
    if pc.Launch? {
      s1 := svc.World();
      pc := LaunchBox(svc, a, id, try, env.others(4), env.choice(4));
      Extend(svc.c, env, a, s0, trace, 4, env.choice(4), s1, svc.World());
      trace := trace + env.others(4) + [Act(a, env.choice(4))];
    }
    if pc.Probe? {
      s1 := svc.World();
      pc := ProbeBox(svc, a, id, try, pc.port, env.others(5), env.choice(5));
      Extend(svc.c, env, a, s0, trace, 5, env.choice(5), s1, svc.World());
      trace := trace + env.others(5) + [Act(a, env.choice(5))];
    }
  }

  /** Why a start run that began in `s0` gives way: under serial delivery somebody has stopped or
      failed the sandbox. */
  ghost predicate GivesWay(c: Consts, s0: State, cell: Cell) {
    c.serial && Inv(s0) && SerialInv(s0) ==> AtLeast(cell, 2)
  }

  lemma LostRace(c: Consts, now: Time, cell: Cell, try: nat, pc: StartPc, choice: Choice)
    requires StartFits(cell, pc)
    requires pc.Drop? || ((pc.Claim? || pc.Settle?) && StepStart(c, now, cell, try, pc, choice).pc == Finish(false))
    requires pc.Settle? ==> try < c.maxTries
    ensures AtLeast(StepStart(c, now, cell, try, pc, choice).cell, 2)
  {
  }

  /** A lost claim, a lost settling write, and the discard after a lost promotion. */
  lemma Overtaken(c: Consts, s0: State, trace: seq<Step>, s1: State, others: seq<Step>, s2: State,
                  a: nat, id: Id, try: nat, pc: StartPc, choice: Choice)
    requires s1 == Run(c, s0, trace) && s2 == Next(c, Run(c, s1, others), Act(a, choice))
    requires a in s1.actors && a < s1.next && s1.actors[a] == Start(id, try, pc)
    requires forall i :: 0 <= i < |others| ==> Avoids(others[i], a)
    requires pc.Drop? || ((pc.Claim? || pc.Settle?) && a in s2.actors && s2.actors[a] == Start(id, try, Finish(false)))
    requires pc.Settle? ==> try < c.maxTries
    ensures GivesWay(c, s0, Get(s2, id))
  {
    hide Next, Run, Inv, StepStart, StartFits;
    if c.serial && Inv(s0) && SerialInv(s0) {
      var u := Run(c, s1, others);
      SerialRun(c, s0, trace);
      SerialRun(c, s1, others);
      OthersKeepMeRun(c, s1, others, a);
      assert SerialOk(u, u.actors[a]);
      StartNext(c, u, a, choice);
      LostRace(c, u.now, Get(u, id), try, pc, choice);
    }
  }

  lemma StillGivesWay(c: Consts, s0: State, trace: seq<Step>, s1: State, cell: Cell)
    requires s1 == Run(c, s0, trace)
    ensures GivesWay(c, s1, cell) ==> GivesWay(c, s0, cell)
  {
    hide Inv, SerialInv;
    if c.serial && Inv(s0) && SerialInv(s0) {
      SerialRun(c, s0, trace);
    }
  }

  /** What a run tells when the await `pc` was its last and met `row`. */
  function OutcomeFor(c: Consts, pc: StartPc, row: Option<Row>, try: nat): StartOutcome {
    match pc
    case Read => if row.None? then Missing else Settled(row.value.status)
    case Expire => ExpiredBeforeStart
    case Promote(_) => NowRunning
    case Settle => if try >= c.maxTries then FailedStart else if Matches(row, {Starting}) then Retried else Cancelled
    case _ => Cancelled
  }

  /** The outcome tells what the last await of the run was and what it met. */
  ghost predicate TellsLast(c: Consts, s0: State, trace: seq<Step>, a: nat, outcome: StartOutcome) {
    trace != [] &&
    var u := Met(c, s0, trace);
    && a in u.actors && u.actors[a].Start?
    && outcome == OutcomeFor(c, u.actors[a].pc, Get(u, u.actors[a].id).row, u.actors[a].try)
  }

  lemma LastAwait(c: Consts, s0: State, trace: seq<Step>, s1: State, others: seq<Step>, step: Step,
                  a: nat, id: Id, try: nat, pc: StartPc, outcome: StartOutcome)
    requires s1 == Run(c, s0, trace) && a in s1.actors && a < s1.next && s1.actors[a] == Start(id, try, pc)
    requires forall i :: 0 <= i < |others| ==> Avoids(others[i], a)
    requires outcome == OutcomeFor(c, pc, Get(Run(c, s1, others), id).row, try)
    ensures TellsLast(c, s0, trace + others + [step], a, outcome)
  {
    hide Run, Met;
    MetLast(c, s0, trace, s1, others, step);
    OthersKeepMeRun(c, s1, others, a);
  }

  lemma TellsLastJoins(c: Consts, s0: State, trace: seq<Step>, s1: State, more: seq<Step>, a: nat, outcome: StartOutcome)
    requires s1 == Run(c, s0, trace) && TellsLast(c, s1, more, a, outcome)
    ensures TellsLast(c, s0, trace + more, a, outcome)
  {
    hide Run, Met;
    MetJoins(c, s0, trace, s1, more);
  }

  /** After a successful launch: promotion, or discard if the row was lost. */
  method ConcludeLaunched(svc: Service, a: nat, id: Id, try: nat, port: nat, env: Env)
    returns (outcome: StartOutcome, ghost trace: seq<Step>)
    requires AtStart(svc, a, id, try, Promote(port)) && EnvAvoids(env, a)
    modifies svc
    ensures svc.World() == Run(svc.c, old(svc.World()), trace) && Woven(env, a, trace)
    ensures AtStart(svc, a, id, try, Finish(false)) && (outcome.NowRunning? || outcome.Cancelled?)
    ensures outcome.NowRunning? ==> Matches(svc.CellOf(id).row, {Running}) && svc.CellOf(id).row.value.url == Some(port)
    ensures outcome.Cancelled? ==> GivesWay(svc.c, old(svc.World()), svc.CellOf(id))
    ensures TellsLast(svc.c, old(svc.World()), trace, a, outcome)
  {
    hide Run, Next, Assembled, Woven, GivesWay, TellsLast, Became;
    ghost var s0 := svc.World();
    Nothing(svc.c, env, a, s0);
    var changed := PromoteRow(svc, a, id, try, port, env.others(6), env.choice(6));
    Extend(svc.c, env, a, s0, [], 6, env.choice(6), s0, svc.World());
    trace := [] + env.others(6) + [Act(a, env.choice(6))];
    if changed {
      outcome := NowRunning;
      LastAwait(svc.c, s0, [], s0, env.others(6), Act(a, env.choice(6)), a, id, try, Promote(port), outcome);
    } else {
      outcome := Cancelled;
      ghost var s1 := svc.World();
      Discard(svc, a, id, try, Drop, env.others(7), env.choice(7));
      Overtaken(svc.c, s0, trace, s1, env.others(7), svc.World(), a, id, try, Drop, env.choice(7));
      LastAwait(svc.c, s0, trace, s1, env.others(7), Act(a, env.choice(7)), a, id, try, Drop, Cancelled);
      svc.LookAt(id);
      Extend(svc.c, env, a, s0, trace, 7, env.choice(7), s1, svc.World());
      trace := trace + env.others(7) + [Act(a, env.choice(7))];
    }
  }

  /** After a failed launch: discard, then settle the row. */
  method ConcludeFailed(svc: Service, a: nat, id: Id, try: nat, env: Env)
    returns (outcome: StartOutcome, ghost trace: seq<Step>)
    requires AtStart(svc, a, id, try, Undo) && EnvAvoids(env, a)
    modifies svc
    ensures svc.World() == Run(svc.c, old(svc.World()), trace) && Woven(env, a, trace)
    ensures AtStart(svc, a, id, try, Finish(outcome.Retried?))
    ensures outcome.Retried? || outcome.FailedStart? || outcome.Cancelled?
    ensures outcome.Retried? ==> Matches(svc.CellOf(id).row, {Queued}) && try < svc.c.maxTries
    ensures outcome.FailedStart? ==> try >= svc.c.maxTries && !Matches(svc.CellOf(id).row, {Starting})
    ensures outcome.Cancelled? ==> GivesWay(svc.c, old(svc.World()), svc.CellOf(id))
    ensures TellsLast(svc.c, old(svc.World()), trace, a, outcome)
  {
    hide Run, Next, Assembled, Woven, GivesWay, TellsLast, Became;
    ghost var s0 := svc.World();
    Nothing(svc.c, env, a, s0);
    Discard(svc, a, id, try, Undo, env.others(7), env.choice(7));
    Extend(svc.c, env, a, s0, [], 7, env.choice(7), s0, svc.World());
    trace := [] + env.others(7) + [Act(a, env.choice(7))];
    ghost var s1 := svc.World();
    outcome := SettleRow(svc, a, id, try, env.others(8), env.choice(8));
    LastAwait(svc.c, s0, trace, s1, env.others(8), Act(a, env.choice(8)), a, id, try, Settle, outcome);
    if outcome.Cancelled? {
      Overtaken(svc.c, s0, trace, s1, env.others(8), svc.World(), a, id, try, Settle, env.choice(8));
      svc.LookAt(id);
    }
    Extend(svc.c, env, a, s0, trace, 8, env.choice(8), s1, svc.World());
    trace := trace + env.others(8) + [Act(a, env.choice(8))];
  }

  /** What follows a launch. */
  method ConcludeStart(svc: Service, a: nat, id: Id, try: nat, pc: StartPc, env: Env)
    returns (outcome: StartOutcome, ghost trace: seq<Step>)
    requires AtStart(svc, a, id, try, pc) && (pc.Promote? || pc.Undo?) && EnvAvoids(env, a)
    modifies svc
    ensures svc.World() == Run(svc.c, old(svc.World()), trace) && Woven(env, a, trace)
    ensures AtStart(svc, a, id, try, Finish(outcome.Retried?))
    ensures outcome.NowRunning? || outcome.Retried? || outcome.FailedStart? || outcome.Cancelled?
    ensures outcome.NowRunning? ==> pc.Promote?
    ensures outcome.NowRunning? ==> Matches(svc.CellOf(id).row, {Running}) && svc.CellOf(id).row.value.url.Some?
    ensures outcome.Retried? ==> Matches(svc.CellOf(id).row, {Queued}) && try < svc.c.maxTries
    ensures outcome.FailedStart? ==> try >= svc.c.maxTries && !Matches(svc.CellOf(id).row, {Starting})
    ensures outcome.Cancelled? ==> GivesWay(svc.c, old(svc.World()), svc.CellOf(id))
    ensures TellsLast(svc.c, old(svc.World()), trace, a, outcome)
  {
    if pc.Promote? {
      outcome, trace := ConcludeLaunched(svc, a, id, try, pc.port, env);
    } else {
      outcome, trace := ConcludeFailed(svc, a, id, try, env);
    }
  }

  /** From the claimed row to the end of the attempt. */
  method LaunchClaimed(svc: Service, a: nat, id: Id, try: nat, env: Env) returns (outcome: StartOutcome, ghost trace: seq<Step>)
    requires AtStart(svc, a, id, try, Inspect) && EnvAvoids(env, a)
    modifies svc
    ensures svc.World() == Run(svc.c, old(svc.World()), trace) && Woven(env, a, trace)
    ensures AtStart(svc, a, id, try, Finish(outcome.Retried?))
    ensures outcome.NowRunning? || outcome.Retried? || outcome.FailedStart? || outcome.Cancelled?
    ensures outcome.NowRunning? ==> Matches(svc.CellOf(id).row, {Running}) && svc.CellOf(id).row.value.url.Some?
    ensures outcome.Retried? ==> Matches(svc.CellOf(id).row, {Queued}) && try < svc.c.maxTries
    ensures outcome.FailedStart? ==> try >= svc.c.maxTries && !Matches(svc.CellOf(id).row, {Starting})
    ensures outcome.Cancelled? ==> GivesWay(svc.c, old(svc.World()), svc.CellOf(id))
    ensures outcome.NowRunning? ==> env.choice(5).Ok?
    ensures TellsLast(svc.c, old(svc.World()), trace, a, outcome)
  {
    hide Run, Next, Assembled, Woven, GivesWay, TellsLast, Became;
    ghost var s0 := svc.World();
    var pc;
    pc, trace := LaunchSandbox(svc, a, id, try, env);
    ghost var s1 := svc.World();
    ghost var last;
    outcome, last := ConcludeStart(svc, a, id, try, pc, env);
    StillGivesWay(svc.c, s0, trace, s1, svc.CellOf(id));
    TellsLastJoins(svc.c, s0, trace, s1, last, a, outcome);
    Join(svc.c, env, a, s0, trace, last, s1, svc.World());
    trace := trace + last;
  }

  /** `start_sandbox`. Whatever others do at its awaits and however its calls end, it takes the
      steps of its actor in the protocol, and its return value tells what it has achieved. */
  method StartSandbox(svc: Service, a: nat, id: Id, try: nat, env: Env) returns (outcome: StartOutcome, ghost trace: seq<Step>)
    requires AtStart(svc, a, id, try, Read) && EnvAvoids(env, a)
    modifies svc
    ensures svc.World() == Run(svc.c, old(svc.World()), trace) && Woven(env, a, trace)
    ensures AtStart(svc, a, id, try, Finish(outcome.Retried?))
    ensures outcome.NowRunning? ==> Matches(svc.CellOf(id).row, {Running}) && svc.CellOf(id).row.value.url.Some?
    ensures outcome.Retried? ==> Matches(svc.CellOf(id).row, {Queued}) && try < svc.c.maxTries
    ensures outcome.FailedStart? ==> try >= svc.c.maxTries && !Matches(svc.CellOf(id).row, {Starting})
    ensures outcome.Missing? ==> svc.CellOf(id).row.None?
    ensures outcome.Settled? ==> Matches(svc.CellOf(id).row, {outcome.status}) && outcome.status !in STARTABLE
    ensures outcome.ExpiredBeforeStart? ==> !Matches(svc.CellOf(id).row, STARTABLE)
    ensures outcome.Cancelled? ==> GivesWay(svc.c, old(svc.World()), svc.CellOf(id))
    ensures outcome.NowRunning? ==> env.choice(5).Ok?
    ensures TellsLast(svc.c, old(svc.World()), trace, a, outcome)
  {
    hide Run, Next, Assembled, Woven, GivesWay, TellsLast, Became;
    ghost var s0 := svc.World();
    ghost var s1 := s0;
    trace := [];
    Nothing(svc.c, env, a, s0);
    var pc;
    pc, outcome := ReadRow(svc, a, id, try, env.others(0));
    if pc.Finish? {
      LastAwait(svc.c, s0, trace, s1, env.others(0), Act(a, Ok), a, id, try, Read, outcome);
    }
    Extend(svc.c, env, a, s0, trace, 0, Ok, s1, svc.World());
    trace := trace + env.others(0) + [Act(a, Ok)];
    s1 := svc.World();
    if pc.Expire? {
      ExpireRow(svc, a, id, try, env.others(1));
      LastAwait(svc.c, s0, trace, s1, env.others(1), Act(a, Ok), a, id, try, Expire, ExpiredBeforeStart);
      Extend(svc.c, env, a, s0, trace, 1, Ok, s1, svc.World());
      trace := trace + env.others(1) + [Act(a, Ok)];
      outcome := ExpiredBeforeStart;
    } else if pc.Claim? {
      var changed := ClaimRow(svc, a, id, try, env.others(1));
      if !changed {
        LastAwait(svc.c, s0, trace, s1, env.others(1), Act(a, Ok), a, id, try, Claim, Cancelled);
        Overtaken(svc.c, s0, trace, s1, env.others(1), svc.World(), a, id, try, Claim, Ok);
      }
      Extend(svc.c, env, a, s0, trace, 1, Ok, s1, svc.World());
      trace := trace + env.others(1) + [Act(a, Ok)];
      if changed {
        ghost var more;
        s1 := svc.World();
        outcome, more := LaunchClaimed(svc, a, id, try, env);
        StillGivesWay(svc.c, s0, trace, s1, svc.CellOf(id));
        TellsLastJoins(svc.c, s0, trace, s1, more, a, outcome);
        Join(svc.c, env, a, s0, trace, more, s1, svc.World());
        trace := trace + more;
      } else {
        outcome := Cancelled;
        svc.LookAt(id);
      }
    }
  }

  // ---- stop_sandbox ----

  datatype StopOutcome = StoppedNow | StopRetried | StopGivenUp

  /** The run `a` of `stop_sandbox` is about to perform `pc`. */
  predicate AtStop(svc: Service, a: nat, id: Id, try: nat, pc: StopPc)
    reads svc
  {
    svc.Valid() && id in svc.known && a in svc.actors && a < svc.next && svc.actors[a] == Stop(id, try, pc)
  }

  lemma StopNext(c: Consts, s: State, a: nat, choice: Choice)
    requires a in s.actors && s.actors[a].Stop? && !s.actors[a].spc.StopFinish?
    ensures
      var x := s.actors[a];
      var out := StepStop(c, Get(s, x.id), x.try, x.spc, choice);
      Next(c, s, Act(a, choice)) == s.(
        actors := s.actors[a := Stop(x.id, x.try, out.pc)],
        cells := s.cells[x.id := out.cell],
        tally := Noted(s.tally, out.note))
    ensures Noted(s.tally, Quiet) == s.tally
  {
    hide StepStop;
  }

  method RemoveStopped(svc: Service, a: nat, id: Id, try: nat, others: seq<Step>, choice: Choice)
    returns (pc: StopPc)
    requires AtStop(svc, a, id, try, Remove) && forall i :: 0 <= i < |others| ==> Avoids(others[i], a)
    modifies svc
    ensures svc.World() == Next(svc.c, Run(svc.c, old(svc.World()), others), Act(a, choice))
    ensures AtStop(svc, a, id, try, pc)
    ensures pc == if choice.Ok? then Mark else StopFinish(try < svc.c.maxTries)
    ensures choice.Ok? ==> id !in svc.boxes
    ensures
      var w := Run(svc.c, old(svc.World()), others);
      var was := Get(w, id);
      Became(w, svc.World(), a, id, if choice.Ok? then was.(box := None) else was, Some(Stop(id, try, pc)),
             if choice.Ok? then w.tally
             else if try < svc.c.maxTries then w.tally.(stopRetry := w.tally.stopRetry + 1)
             else w.tally.(stopFailed := w.tally.stopFailed + 1))
  {
    hide Run, Next, Assembled;
    svc.Yield(others, a);
    StopNext(svc.c, svc.World(), a, choice);
    svc.LookAt(id);
    if choice.Ok? {
      var _ := svc.Remove(id);
      svc.LookAt(id);
      pc := Mark;
    } else {
      svc.SameCell(id);
      svc.tally := Noted(svc.tally, if try < svc.c.maxTries then StopRetry else StopFailure);
      pc := StopFinish(try < svc.c.maxTries);
    }
    svc.actors := svc.actors[a := Stop(id, try, pc)];
  }

  method MarkStoppedRow(svc: Service, a: nat, id: Id, try: nat, others: seq<Step>)
    requires AtStop(svc, a, id, try, Mark) && forall i :: 0 <= i < |others| ==> Avoids(others[i], a)
    modifies svc
    ensures svc.World() == Next(svc.c, Run(svc.c, old(svc.World()), others), Act(a, Ok))
    ensures AtStop(svc, a, id, try, StopFinish(false))
    ensures !Matches(svc.CellOf(id).row, {Stopping})
    ensures
      var w := Run(svc.c, old(svc.World()), others);
      var was := Get(w, id);
      Became(w, svc.World(), a, id,
             if Matches(was.row, {Stopping}) then was.(row := Some(was.row.value.(status := Stopped))) else was,
             Some(Stop(id, try, StopFinish(false))), w.tally.(stopSuccess := w.tally.stopSuccess + 1))
  {
    hide Run, Next, Assembled;
    svc.Yield(others, a);
    StopNext(svc.c, svc.World(), a, Ok);
    svc.LookAt(id);
    var _ := svc.Transition(id, {Stopping}, Values(Stopped, None, None, None));
    svc.tally := Noted(svc.tally, StopSuccess);
    svc.actors := svc.actors[a := Stop(id, try, StopFinish(false))];
    svc.LookAt(id);
  }

  lemma MarkConcludes(c: Consts, cell: Cell, try: nat, choice: Choice)
    requires AtLeast(cell, 2)
    ensures AtLeast(StepStop(c, cell, try, Mark, choice).cell, 3)
  {
  }

  lemma StopReached(s: State, a: nat)
    requires Inv(s) && a in s.actors && s.actors[a].Stop?
    ensures Reached(s, s.actors[a].id, 2)
  {
    assert ActorOk(s, s.actors[a]);
  }

  /** After its mark a stop run leaves its row terminal: a stop job is never there for a row that is
      not stopping or terminal already. */
  lemma StopConcludes(c: Consts, s0: State, trace: seq<Step>, s1: State, others: seq<Step>, s2: State,
                      a: nat, id: Id, try: nat)
    requires s1 == Run(c, s0, trace) && s2 == Next(c, Run(c, s1, others), Act(a, Ok))
    requires a in s1.actors && a < s1.next && s1.actors[a] == Stop(id, try, Mark)
    requires forall i :: 0 <= i < |others| ==> Avoids(others[i], a)
    ensures Inv(s0) ==> AtLeast(Get(s2, id), 3)
  {
    hide Next, Run, Inv, StepStop, Guarantee;
    if Inv(s0) {
      var u := Run(c, s1, others);
      RunKeeps(c, s0, trace);
      RunKeeps(c, s1, others);
      OthersKeepMeRun(c, s1, others, a);
      StopReached(u, a);
      StopNext(c, u, a, Ok);
      MarkConcludes(c, Get(u, id), try, Ok);
    }
  }

  /** `stop_sandbox`: remove, then mark; a failed removal is retried while tries are left. In a
      reachable state a run that reports success leaves its row terminal. */
  method StopSandbox(svc: Service, a: nat, id: Id, try: nat, env: Env) returns (outcome: StopOutcome, ghost trace: seq<Step>)
    requires AtStop(svc, a, id, try, Remove) && EnvAvoids(env, a)
    modifies svc
    ensures svc.World() == Run(svc.c, old(svc.World()), trace) && Woven(env, a, trace)
    ensures AtStop(svc, a, id, try, StopFinish(outcome.StopRetried?))
    ensures outcome.StoppedNow? <==> env.choice(0).Ok?
    ensures outcome.StoppedNow? ==> !Matches(svc.CellOf(id).row, {Stopping})
    ensures outcome.StoppedNow? && Inv(old(svc.World())) ==> AtLeast(svc.CellOf(id), 3)
    ensures outcome.StoppedNow? ==>
              // the last await met this row, and left it stopped if it was stopping
              trace != [] &&
              var met := Get(Met(svc.c, old(svc.World()), trace), id).row;
              svc.CellOf(id).row == if Matches(met, {Stopping}) then Some(met.value.(status := Stopped)) else met
    ensures outcome.StopRetried? ==> try < svc.c.maxTries
    ensures outcome.StopGivenUp? ==> try >= svc.c.maxTries
  {
    hide Run, Next, Assembled, Woven, Inv;
    ghost var s0 := svc.World();
    ghost var s1 := s0;
    trace := [];
    Nothing(svc.c, env, a, s0);
    var pc := RemoveStopped(svc, a, id, try, env.others(0), env.choice(0));
    Extend(svc.c, env, a, s0, trace, 0, env.choice(0), s1, svc.World());
    trace := trace + env.others(0) + [Act(a, env.choice(0))];
    if pc.Mark? {
      s1 := svc.World();
      MarkStoppedRow(svc, a, id, try, env.others(1));
      StopConcludes(svc.c, s0, trace, s1, env.others(1), svc.World(), a, id, try);
      MetLast(svc.c, s0, trace, s1, env.others(1), Act(a, Ok));
      svc.LookAt(id);
      Extend(svc.c, env, a, s0, trace, 1, Ok, s1, svc.World());
      trace := trace + env.others(1) + [Act(a, Ok)];
      outcome := StoppedNow;
    } else {
      outcome := if try < svc.c.maxTries then StopRetried else StopGivenUp;
    }
  }
}
